/**
 * Valuation of one asset position from its transactions: the buy and sell
 * totals and the average buy price, as filter/map/sum folds over exact
 * decimals. Transfers carry no value.
 */
module Positions {
  import opened Transactions

  /** The asset a position is held in; only its identifier matters here. */
  datatype PortfolioAsset = Crypto(assetId: string) | Stock(assetId: string)

  datatype AssetPosition = AssetPosition(asset: PortfolioAsset, transactions: seq<Transaction>)

  /** `Iterator::sum` of `f` over `s`. */
  function Sum<T>(s: seq<T>, f: T -> Decimal): Decimal {
    if s == [] then 0.0 else f(s[0]) + Sum(s[1..], f)
  }

  /** The sum over a concatenation is the sum of the sums. */
  lemma {:induction false} SumConcat<T>(a: seq<T>, b: seq<T>, f: T -> Decimal)
    ensures Sum(a + b, f) == Sum(a, f) + Sum(b, f)
  {
    if a == [] {
      assert a + b == b;
    } else {
      assert (a + b)[0] == a[0] && (a + b)[1..] == a[1..] + b;
      SumConcat(a[1..], b, f);
    }
  }

  /** Taking one term out of a sum. */
  lemma SumRemove<T>(b: seq<T>, i: nat, f: T -> Decimal)
    requires i < |b|
    ensures Sum(b, f) == f(b[i]) + Sum(b[..i] + b[i + 1..], f)
  {
    assert b == b[..i] + ([b[i]] + b[i + 1..]);
    SumConcat(b[..i], [b[i]] + b[i + 1..], f);
    assert ([b[i]] + b[i + 1..])[1..] == b[i + 1..];
    SumConcat(b[..i], b[i + 1..], f);
  }

  /** Taking one element out of a sequence takes it out of its multiset. */
  lemma MultisetRemove<T>(b: seq<T>, i: nat)
    requires i < |b|
    ensures multiset(b[..i] + b[i + 1..]) == multiset(b) - multiset{b[i]}
  {
    assert b == b[..i] + [b[i]] + b[i + 1..];
  }

  /** A sum does not depend on the order of its terms. */
  lemma {:induction false} SumPermutation<T>(a: seq<T>, b: seq<T>, f: T -> Decimal)
    requires multiset(a) == multiset(b)
    ensures Sum(a, f) == Sum(b, f)
  {
    if a == [] {
      assert |b| == |multiset(b)| == 0;
    } else {
      var x := a[0];
      assert x in multiset(b);
      var i :| 0 <= i < |b| && b[i] == x;
      MultisetRemove(a, 0);
      MultisetRemove(b, i);
      assert a[..0] + a[1..] == a[1..];
      SumPermutation(a[1..], b[..i] + b[i + 1..], f);
      SumRemove(b, i, f);
    }
  }

  /** `.filter(|t| t.tx_type == kind)`, keeping the order. */
  function OfType(txs: seq<Transaction>, kind: TxType): (r: seq<Transaction>)
    ensures forall t :: t in r ==> t in txs && t.txType == kind
  {
    if txs == [] then []
    else if txs[0].txType == kind then [txs[0]] + OfType(txs[1..], kind)
    else OfType(txs[1..], kind)
  }

  lemma {:induction false} OfTypeConcat(a: seq<Transaction>, b: seq<Transaction>, kind: TxType)
    ensures OfType(a + b, kind) == OfType(a, kind) + OfType(b, kind)
  {
    if a == [] {
      assert a + b == b;
    } else {
      assert (a + b)[0] == a[0] && (a + b)[1..] == a[1..] + b;
      OfTypeConcat(a[1..], b, kind);
    }
  }

  /** Filtering keeps exactly the transactions of the kind, with their multiplicities. */
  lemma {:induction false} OfTypeMultiset(txs: seq<Transaction>, kind: TxType)
    ensures forall t :: multiset(OfType(txs, kind))[t] == if t.txType == kind then multiset(txs)[t] else 0
  {
    if txs != [] {
      OfTypeMultiset(txs[1..], kind);
      assert txs == [txs[0]] + txs[1..];
    }
  }

  /** Filtering two orderings of the same transactions gives two orderings of the same selection. */
  lemma OfTypePermutation(a: seq<Transaction>, b: seq<Transaction>, kind: TxType)
    requires multiset(a) == multiset(b)
    ensures multiset(OfType(a, kind)) == multiset(OfType(b, kind))
  {
    OfTypeMultiset(a, kind);
    OfTypeMultiset(b, kind);
  }

  /** What one transaction is worth: `price * quantity`. */
  function Notional(t: Transaction): Decimal {
    t.price * t.quantity
  }

  function Quantity(t: Transaction): Decimal {
    t.quantity
  }

  /** The summed notional of the transactions of one kind. */
  function ValueOfType(txs: seq<Transaction>, kind: TxType): Decimal {
    Sum(OfType(txs, kind), Notional)
  }

  /** `AssetPosition::total_buy_value`. */
  function TotalBuyValue(p: AssetPosition): (r: Decimal)
    ensures r == ValueOfTypeFold(p.transactions, Buy)
  {
    ValueOfTypeIsFold(p.transactions, Buy);
    ValueOfType(p.transactions, Buy)
  }

  /** `AssetPosition::total_sell_value`. */
  function TotalSellValue(p: AssetPosition): (r: Decimal)
    ensures r == ValueOfTypeFold(p.transactions, Sell)
  {
    ValueOfTypeIsFold(p.transactions, Sell);
    ValueOfType(p.transactions, Sell)
  }

  /**
   * An independent single-pass definition: each transaction adds its notional
   * when it is of the kind, and nothing otherwise.
   */
  function ValueOfTypeFold(txs: seq<Transaction>, kind: TxType): Decimal {
    if txs == [] then 0.0
    else (if txs[0].txType == kind then Notional(txs[0]) else 0.0) + ValueOfTypeFold(txs[1..], kind)
  }

  /** The filter/map/sum chain agrees with the single pass: exactly the transactions of the kind count. */
  lemma {:induction false} ValueOfTypeIsFold(txs: seq<Transaction>, kind: TxType)
    ensures ValueOfType(txs, kind) == ValueOfTypeFold(txs, kind)
  {
    if txs != [] {
      ValueOfTypeIsFold(txs[1..], kind);
      if txs[0].txType == kind {
        assert OfType(txs, kind) == [txs[0]] + OfType(txs[1..], kind);
        assert ([txs[0]] + OfType(txs[1..], kind))[1..] == OfType(txs[1..], kind);
      }
    }
  }

  /** The totals do not depend on the order of the transactions. */
  lemma ValueOfTypePermutation(a: seq<Transaction>, b: seq<Transaction>, kind: TxType)
    requires multiset(a) == multiset(b)
    ensures ValueOfType(a, kind) == ValueOfType(b, kind)
  {
    OfTypePermutation(a, b, kind);
    SumPermutation(OfType(a, kind), OfType(b, kind), Notional);
  }

  /** Inserting a transaction of another kind anywhere leaves the total of a kind unchanged. */
  lemma ValueOfTypeIgnoresOtherKinds(txs: seq<Transaction>, i: nat, t: Transaction, kind: TxType)
    requires i <= |txs| && t.txType != kind
    ensures ValueOfType(txs[..i] + [t] + txs[i..], kind) == ValueOfType(txs, kind)
  {
    assert [t][1..] == [] && OfType([t], kind) == [];
    assert txs == txs[..i] + txs[i..];
    OfTypeConcat(txs[..i] + [t], txs[i..], kind);
    OfTypeConcat(txs[..i], [t], kind);
    OfTypeConcat(txs[..i], txs[i..], kind);
    assert OfType(txs[..i] + [t], kind) == OfType(txs[..i], kind) + [] == OfType(txs[..i], kind);
    assert OfType(txs[..i] + [t] + txs[i..], kind) == OfType(txs, kind);
  }

  /** A transfer in or out changes neither the buy total nor the sell total. */
  lemma TransferChangesNoTotal(p: AssetPosition, i: nat, t: Transaction)
    requires i <= |p.transactions| && (t.txType == TransferIn || t.txType == TransferOut)
    ensures var q := p.(transactions := p.transactions[..i] + [t] + p.transactions[i..]);
      TotalBuyValue(q) == TotalBuyValue(p) && TotalSellValue(q) == TotalSellValue(p)
  {
    ValueOfTypeIgnoresOtherKinds(p.transactions, i, t, Buy);
    ValueOfTypeIgnoresOtherKinds(p.transactions, i, t, Sell);
  }

  /** With no transaction of the kind, the total is zero. */
  lemma {:induction false} ValueOfTypeNone(txs: seq<Transaction>, kind: TxType)
    requires forall t :: t in txs ==> t.txType != kind
    ensures OfType(txs, kind) == [] && ValueOfType(txs, kind) == 0.0
  {
    if txs != [] {
      ValueOfTypeNone(txs[1..], kind);
    }
  }

  /**
   * `AssetPosition::average_buy_price`: zero without buys, otherwise the buy
   * value over the bought quantity. A zero bought quantity makes the decimal
   * division panic, so it is excluded.
   */
  function AverageBuyPrice(p: AssetPosition): (r: Decimal)
    requires OfType(p.transactions, Buy) == [] || Sum(OfType(p.transactions, Buy), Quantity) != 0.0
    ensures OfType(p.transactions, Buy) == [] ==> r == 0.0
    ensures OfType(p.transactions, Buy) != [] ==> r * Sum(OfType(p.transactions, Buy), Quantity) == TotalBuyValue(p)
  {
    var buys := OfType(p.transactions, Buy);
    if buys == [] then 0.0
    else
      var totalQuantity := Sum(buys, Quantity);
      var totalValue := Sum(buys, Notional);
      totalValue / totalQuantity
  }

  /** When every buy is at one price, the average buy price is that price. */
  lemma AverageOfUniformPrice(p: AssetPosition, price: Decimal)
    requires OfType(p.transactions, Buy) != [] && Sum(OfType(p.transactions, Buy), Quantity) != 0.0
    requires forall t :: t in OfType(p.transactions, Buy) ==> t.price == price
    ensures AverageBuyPrice(p) == price
  {
    UniformPriceSum(OfType(p.transactions, Buy), price);
  }

  lemma {:induction false} UniformPriceSum(s: seq<Transaction>, price: Decimal)
    requires forall t :: t in s ==> t.price == price
    ensures Sum(s, Notional) == price * Sum(s, Quantity)
  {
    if s != [] {
      UniformPriceSum(s[1..], price);
    }
  }

  /** The worked example: buy 10 at 100, sell 4 at 150. */
  lemma Example(buy: Transaction, sell: Transaction, asset: PortfolioAsset)
    requires buy.txType == Buy && buy.quantity == 10.0 && buy.price == 100.0
    requires sell.txType == Sell && sell.quantity == 4.0 && sell.price == 150.0
    ensures var p := AssetPosition(asset, [buy, sell]);
      TotalBuyValue(p) == 1000.0 && TotalSellValue(p) == 600.0 && AverageBuyPrice(p) == 100.0
  {
    var txs := [buy, sell];
    assert txs[1..] == [sell] && [sell][1..] == [] && [buy][1..] == [];
    assert OfType([sell], Buy) == [];
    assert OfType([sell], Sell) == [sell] + [] == [sell];
    assert OfType(txs, Buy) == [buy];
    assert OfType(txs, Sell) == [sell];
    assert Sum([buy], Notional) == 1000.0 && Sum([buy], Quantity) == 10.0;
    assert Sum([sell], Notional) == 600.0;
  }
}
