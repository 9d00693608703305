/**
 * A portfolio and its value: the net invested amount (bought minus sold) of
 * every position, summed in whatever order the position map yields them.
 */
module Portfolios {
  import opened Transactions
  import opened Positions

  datatype Portfolio = Portfolio(
    id: int,
    ownerId: int,
    name: string,
    createdAt: Instant,
    updatedAt: Instant,
    positions: map<string, AssetPosition>)  // keyed by asset id

  /** What one position adds to the portfolio value. */
  function NetValue(p: AssetPosition): Decimal {
    TotalBuyValue(p) - TotalSellValue(p)
  }

  /** `order` lists every key of the position map exactly once: one possible iteration order. */
  predicate IsIterationOrder(order: seq<string>, positions: map<string, AssetPosition>) {
    multiset(order) == multiset(positions.Keys)
  }

  /** The net value of the position under `key`. */
  function NetValueAt(positions: map<string, AssetPosition>): string -> Decimal {
    key => if key in positions then NetValue(positions[key]) else 0.0
  }

  /** `Portfolio::total_value`, summing the positions in the iteration order `order`. */
  function TotalValue(pf: Portfolio, order: seq<string>): (r: Decimal)
    requires IsIterationOrder(order, pf.positions)
    ensures forall other :: IsIterationOrder(other, pf.positions) ==> Sum(other, NetValueAt(pf.positions)) == r
  {
    var f := NetValueAt(pf.positions);
    assert forall other | IsIterationOrder(other, pf.positions) :: Sum(other, f) == Sum(order, f) by {
      forall other | IsIterationOrder(other, pf.positions)
        ensures Sum(other, f) == Sum(order, f)
      {
        SumPermutation(other, order, f);
      }
    }
    Sum(order, f)
  }

  /** The total value is the same whatever order the map is iterated in. */
  lemma TotalValueOrderIndependent(pf: Portfolio, order1: seq<string>, order2: seq<string>)
    requires IsIterationOrder(order1, pf.positions) && IsIterationOrder(order2, pf.positions)
    ensures TotalValue(pf, order1) == TotalValue(pf, order2)
  {
  }

  /** A portfolio without positions is worth zero. */
  lemma TotalValueEmpty(pf: Portfolio, order: seq<string>)
    requires pf.positions == map[] && IsIterationOrder(order, pf.positions)
    ensures TotalValue(pf, order) == 0.0
  {
    assert |order| == |multiset(order)| == 0;
  }

  /** A position that holds only transfers contributes nothing. */
  lemma TransfersOnlyContributeZero(p: AssetPosition)
    requires forall t :: t in p.transactions ==> t.txType == TransferIn || t.txType == TransferOut
    ensures NetValue(p) == 0.0
  {
    ValueOfTypeNone(p.transactions, Buy);
    ValueOfTypeNone(p.transactions, Sell);
  }

  /** Adding a position under a new key adds its net value to the total. */
  lemma TotalValueAddPosition(pf: Portfolio, order: seq<string>, key: string, p: AssetPosition)
    requires IsIterationOrder(order, pf.positions) && key !in pf.positions
    ensures IsIterationOrder(order + [key], pf.positions[key := p])
    ensures TotalValue(pf.(positions := pf.positions[key := p]), order + [key]) == TotalValue(pf, order) + NetValue(p)
  {
    var m := pf.positions[key := p];
    assert m.Keys == pf.positions.Keys + {key};
    assert multiset(m.Keys) == multiset(pf.positions.Keys) + multiset{key};
    forall k | k in order ensures k in pf.positions {
      assert k in multiset(order);
    }
    SameOnKeys(order, pf.positions, m);
    SumConcat(order, [key], NetValueAt(m));
    assert [key][1..] == [];
  }

  /** Summing over keys of the old map gives the same in the extended map. */
  lemma {:induction false} SameOnKeys(order: seq<string>, m1: map<string, AssetPosition>, m2: map<string, AssetPosition>)
    requires forall k :: k in order ==> k in m1 && k in m2 && m1[k] == m2[k]
    ensures Sum(order, NetValueAt(m1)) == Sum(order, NetValueAt(m2))
  {
    if order != [] {
      SameOnKeys(order[1..], m1, m2);
    }
  }
}
