/**
 * Stored transactions: the transaction-type codec and the conversion of a
 * database row into a `Transaction`. The domain layer and the entity layer
 * of the source declare the same `TxType` enum and the same `from_row`; they
 * are modelled once here.
 */
module Transactions {
  import opened Wrappers
  import opened Currencies

  /** An exact decimal value (`rust_decimal::Decimal`). */
  type Decimal = real

  /** An instant (`time::OffsetDateTime`), kept opaque as a number. */
  type Instant = int

  datatype TxType = Buy | Sell | TransferIn | TransferOut

  /** The strum `Display` of `TxType`: the variant name in lower case. */
  function TxTypeName(t: TxType): (s: string)
    ensures |s| >= 3 && s[0] in "bst"
    ensures forall i :: 0 <= i < |s| ==> 'a' <= s[i] <= 'z'
  {
    match t
    case Buy => "buy"
    case Sell => "sell"
    case TransferIn => "transferin"
    case TransferOut => "transferout"
  }

  /** The strum `FromStr` of `TxType`: an exact, case-sensitive match on the displayed names. */
  function ParseTxType(s: string): (r: Option<TxType>)
    ensures r.Some? <==> s in {"buy", "sell", "transferin", "transferout"}
  {
    if s == "buy" then Some(Buy)
    else if s == "sell" then Some(Sell)
    else if s == "transferin" then Some(TransferIn)
    else if s == "transferout" then Some(TransferOut)
    else None
  }

  /** Parsing a displayed type gives it back. */
  lemma ParseTxTypeName(t: TxType)
    ensures ParseTxType(TxTypeName(t)) == Some(t)
  {
  }

  /** A string that parses is the display of what it parses to; so display is injective. */
  lemma TxTypeNameParse(s: string, t: TxType)
    requires ParseTxType(s) == Some(t)
    ensures TxTypeName(t) == s
  {
  }

  datatype Transaction = Transaction(
    id: int,
    portfolioId: int,
    assetId: string,
    txType: TxType,
    quantity: Decimal,
    price: Decimal,
    fees: Decimal,
    currency: Currency,
    executedAt: Instant,
    notes: Option<string>,
    createdAt: Instant,
    updatedAt: Instant)

  /** A row of the `transactions` table: type and currency are stored as text. */
  datatype TransactionRow = TransactionRow(
    id: int,
    externalId: Option<string>,
    portfolioId: int,
    assetId: string,
    txType: string,
    quantity: Decimal,
    price: Decimal,
    fees: Decimal,
    currency: string,
    executedAt: Instant,
    notes: Option<string>,
    createdAt: Instant,
    updatedAt: Instant)

  /**
   * `Transaction::from_row`. The two text columns are parsed with `unwrap`, so
   * the source panics unless both parse. The external id is not carried over.
   */
  function FromRow(row: TransactionRow): (t: Transaction)
    requires ParseTxType(row.txType).Some? && FromStr(row.currency).Some?
    ensures TxTypeName(t.txType) == row.txType && AsStr(t.currency) == row.currency
    ensures t.id == row.id && t.portfolioId == row.portfolioId && t.assetId == row.assetId
    ensures t.quantity == row.quantity && t.price == row.price && t.fees == row.fees
    ensures t.executedAt == row.executedAt && t.notes == row.notes
    ensures t.createdAt == row.createdAt && t.updatedAt == row.updatedAt
  {
    TxTypeNameParse(row.txType, ParseTxType(row.txType).value);
    AsStrFromStr(row.currency);
    Transaction(
      row.id, row.portfolioId, row.assetId, ParseTxType(row.txType).value,
      row.quantity, row.price, row.fees, FromStr(row.currency).value,
      row.executedAt, row.notes, row.createdAt, row.updatedAt)
  }

  /**
   * The row a transaction is stored as: type by its display, currency by
   * `as_str`, and no external id (the insert does not write that column).
   * Both text columns parse back, so reading the row with `from_row` never
   * panics and gives the transaction back.
   */
  function ToRow(t: Transaction): (r: TransactionRow)
    ensures r.externalId == None
    ensures ParseTxType(r.txType) == Some(t.txType) && FromStr(r.currency) == Some(t.currency)
    ensures FromRow(r) == t
  {
    ParseTxTypeName(t.txType);
    FromStrAsStr(t.currency);
    TransactionRow(
      t.id, None, t.portfolioId, t.assetId, TxTypeName(t.txType),
      t.quantity, t.price, t.fees, AsStr(t.currency),
      t.executedAt, t.notes, t.createdAt, t.updatedAt)
  }
}
