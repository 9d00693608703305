/**
 * Conversion of the raw transactions of an imported CoinGecko portfolio file
 * into `BaseTransactionInfo` records, one record at a time and for a whole
 * batch. The decimal and RFC 3339 parsers of the `rust_decimal` and `time`
 * crates are parameters: each maps a text to a value or to an error text.
 */
module RawImport {
  import opened Wrappers
  import opened Text
  import opened Currencies
  import opened Transactions
  import opened Errors

  /** A transaction as read from the import file: every field is text except the numeric id. */
  datatype RawTransaction = RawTransaction(
    id: nat,
    transactionType: string,
    currency: string,
    quantity: string,
    price: string,
    transactionTimestamp: string,
    fees: string,
    notes: string)

  datatype BaseTransactionInfo = BaseTransactionInfo(
    externalId: Option<string>,
    fees: Decimal,
    executedAt: Instant,
    notes: Option<string>,
    currency: Currency,
    quantity: Decimal,
    price: Decimal,
    txType: TxType)

  /** The crate parsers the conversion relies on. */
  datatype Parsers = Parsers(
    decimal: string -> Result<Decimal, string>,
    rfc3339: string -> Result<Instant, string>)

  /** `str::parse::<Decimal>()?`: a failure becomes `AppError::DecimalError`. */
  function ParseDecimal(p: Parsers, s: string): (r: Result<Decimal, AppError>)
    ensures r.Ok? <==> p.decimal(s).Ok?
    ensures r.Ok? ==> r.value == p.decimal(s).value
    ensures r.Err? ==> r.error == DecimalError(p.decimal(s).error)
  {
    match p.decimal(s)
    case Ok(v) => Ok(v)
    case Err(e) => Err(DecimalError(e))
  }

  /** `OffsetDateTime::parse(.., &Rfc3339)?`: a failure becomes `AppError::TimeParseError`. */
  function ParseInstant(p: Parsers, s: string): (r: Result<Instant, AppError>)
    ensures r.Ok? <==> p.rfc3339(s).Ok?
    ensures r.Ok? ==> r.value == p.rfc3339(s).value
    ensures r.Err? ==> r.error == TimeParseError(p.rfc3339(s).error)
  {
    match p.rfc3339(s)
    case Ok(v) => Ok(v)
    case Err(e) => Err(TimeParseError(e))
  }

  /** The error text of the strum parser when no variant matches. */
  const VARIANT_NOT_FOUND: string := "Matching variant not found"

  /** `to_lowercase().parse::<Currency>()?`. */
  function ParseCurrencyText(s: string): (r: Result<Currency, AppError>)
    ensures r.Ok? <==> Lower(s) == "usd" || Lower(s) == "vnd"
    ensures r.Ok? ==> AsStr(r.value) == Lower(s)
    ensures r.Err? ==> r.error == StrumParseError(VARIANT_NOT_FOUND)
  {
    AsStrFromStr(Lower(s));
    match FromStr(Lower(s))
    case Some(c) => Ok(c)
    case None => Err(StrumParseError(VARIANT_NOT_FOUND))
  }

  /** `to_lowercase().parse::<TxType>()?`. */
  function ParseTxTypeText(s: string): (r: Result<TxType, AppError>)
    ensures r.Ok? <==> Lower(s) in {"buy", "sell", "transferin", "transferout"}
    ensures r.Ok? ==> TxTypeName(r.value) == Lower(s)
    ensures r.Err? ==> r.error == StrumParseError(VARIANT_NOT_FOUND)
  {
    match ParseTxType(Lower(s))
    case Some(t) => TxTypeNameParse(Lower(s), t); Ok(t)
    case None => Err(StrumParseError(VARIANT_NOT_FOUND))
  }

  /** The first failing field parse, in the order the source tries them, if any. */
  function FirstFailure(p: Parsers, raw: RawTransaction): Option<AppError> {
    if ParseDecimal(p, raw.fees).Err? then Some(ParseDecimal(p, raw.fees).error)
    else if ParseInstant(p, raw.transactionTimestamp).Err? then Some(ParseInstant(p, raw.transactionTimestamp).error)
    else if ParseCurrencyText(raw.currency).Err? then Some(ParseCurrencyText(raw.currency).error)
    else if ParseDecimal(p, raw.quantity).Err? then Some(ParseDecimal(p, raw.quantity).error)
    else if ParseDecimal(p, raw.price).Err? then Some(ParseDecimal(p, raw.price).error)
    else if ParseTxTypeText(raw.transactionType).Err? then Some(ParseTxTypeText(raw.transactionType).error)
    else None
  }

  /**
   * `BaseTransactionInfo::from_raw_tx`: the fields are parsed in the order
   * fees, executed_at, currency, quantity, price, tx_type, and the first
   * failure is the result.
   */
  function FromRawTx(p: Parsers, raw: RawTransaction): (r: Result<BaseTransactionInfo, AppError>)
    ensures r.Err? <==> FirstFailure(p, raw).Some?
    ensures r.Err? ==> r.error == FirstFailure(p, raw).value
    ensures r.Ok? ==> r.value.externalId == Some(DecimalString(raw.id)) && r.value.notes == Some(raw.notes)
  {
    var fees :- ParseDecimal(p, raw.fees);
    var executedAt :- ParseInstant(p, raw.transactionTimestamp);
    var currency :- ParseCurrencyText(raw.currency);
    var quantity :- ParseDecimal(p, raw.quantity);
    var price :- ParseDecimal(p, raw.price);
    var txType :- ParseTxTypeText(raw.transactionType);
    Ok(BaseTransactionInfo(
      Some(DecimalString(raw.id)), fees, executedAt, Some(raw.notes), currency, quantity, price, txType))
  }

  /**
   * On success every field holds its parsed value: the amounts and the time
   * are what the parsers return, and currency and type are the ones whose
   * names are the lower-cased text.
   */
  lemma FromRawTxSpec(p: Parsers, raw: RawTransaction)
    ensures FromRawTx(p, raw).Ok? ==>
      var info := FromRawTx(p, raw).value;
      && Ok(info.fees) == ParseDecimal(p, raw.fees)
      && Ok(info.executedAt) == ParseInstant(p, raw.transactionTimestamp)
      && Ok(info.quantity) == ParseDecimal(p, raw.quantity)
      && Ok(info.price) == ParseDecimal(p, raw.price)
      && AsStr(info.currency) == Lower(raw.currency)
      && TxTypeName(info.txType) == Lower(raw.transactionType)
  {
  }

  /** Distinct raw ids give distinct external ids. */
  lemma ExternalIdsDistinct(p: Parsers, a: RawTransaction, b: RawTransaction)
    requires FromRawTx(p, a).Ok? && FromRawTx(p, b).Ok?
    requires a.id != b.id
    ensures FromRawTx(p, a).value.externalId != FromRawTx(p, b).value.externalId
  {
    if FromRawTx(p, a).value.externalId == FromRawTx(p, b).value.externalId {
      DecimalStringInjective(a.id, b.id);
    }
  }

  /** Type and currency are matched without regard to ASCII case. */
  lemma FromRawTxCaseInsensitive(p: Parsers, raw: RawTransaction)
    ensures FromRawTx(p, raw) == FromRawTx(p, raw.(transactionType := Lower(raw.transactionType),
                                                     currency := Lower(raw.currency)))
  {
    LowerIdempotent(raw.transactionType);
    LowerIdempotent(raw.currency);
  }

  /**
   * The import handler's `map(from_raw_tx).collect::<Result<Vec<_>, _>>()`:
   * all records converted in order, or the first error.
   */
  function ConvertAll(p: Parsers, raws: seq<RawTransaction>): (r: Result<seq<BaseTransactionInfo>, AppError>)
    ensures r.Ok? <==> forall i :: 0 <= i < |raws| ==> FromRawTx(p, raws[i]).Ok?
    ensures r.Ok? ==> |r.value| == |raws| && forall i :: 0 <= i < |raws| ==> r.value[i] == FromRawTx(p, raws[i]).value
    ensures r.Err? ==> exists k :: 0 <= k < |raws| && FromRawTx(p, raws[k]) == Err(r.error)
                                   && forall i :: 0 <= i < k ==> FromRawTx(p, raws[i]).Ok?
  {
    if raws == [] then Ok([])
    else
      match FromRawTx(p, raws[0])
      case Err(e) => Err(e)
      case Ok(info) =>
        match ConvertAll(p, raws[1..])
        case Err(e) => Err(e)
        case Ok(rest) => Ok([info] + rest)
  }
}
