/** Reduction of a CoinGecko market-data map to the currencies the system knows. */
module MarketData {
  import opened Text
  import opened Currencies

  /** A key names a currency when its lower-case form is the name of one. */
  predicate IsCurrencyKey(key: string) {
    FromStr(Lower(key)).Some?
  }

  /**
   * `filter_market_data_by_currency`: keeps the entries whose key, lower-cased,
   * is a currency name, with their original key and value.
   */
  function FilterByCurrency<V>(marketData: map<string, V>): (r: map<string, V>)
    ensures r.Keys <= marketData.Keys
    ensures forall k :: k in r ==> r[k] == marketData[k]
    ensures forall k :: k in marketData ==> (k in r <==> exists c :: AsStr(c) == Lower(k))
  {
    forall k | k in marketData ensures IsCurrencyKey(k) <==> exists c :: AsStr(c) == Lower(k) {
      AsStrFromStr(Lower(k));
      if IsCurrencyKey(k) { FromStrAsStr(FromStr(Lower(k)).value); }
    }
    map k | k in marketData && IsCurrencyKey(k) :: marketData[k]
  }

  /** Filtering twice is filtering once. */
  lemma FilterIdempotent<V>(marketData: map<string, V>)
    ensures FilterByCurrency(FilterByCurrency(marketData)) == FilterByCurrency(marketData)
  {
    var once := FilterByCurrency(marketData);
    var twice := FilterByCurrency(once);
    assert twice.Keys == once.Keys;
  }
}
