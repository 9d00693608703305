/** The currency tag carried by every transaction, and its lower-case string codec. */
module Currencies {
  import opened Wrappers

  datatype Currency = Usd | Vnd

  /** `Currency::as_str`. */
  function AsStr(c: Currency): (s: string)
    ensures |s| == 3 && s[0] in "uv"
    ensures forall i :: 0 <= i < |s| ==> 'a' <= s[i] <= 'z'
  {
    match c
    case Usd => "usd"
    case Vnd => "vnd"
  }

  /** `Currency::from_str`: an exact, case-sensitive match on the two names. */
  function FromStr(s: string): (r: Option<Currency>)
    ensures r.Some? <==> s == "usd" || s == "vnd"
  {
    if s == "usd" then Some(Usd)
    else if s == "vnd" then Some(Vnd)
    else None
  }

  /** Parsing the name of a currency gives it back. */
  lemma FromStrAsStr(c: Currency)
    ensures FromStr(AsStr(c)) == Some(c)
  {
  }

  /** A string that parses is exactly the name of what it parses to. */
  lemma AsStrFromStr(s: string)
    ensures FromStr(s).Some? ==> AsStr(FromStr(s).value) == s
    ensures FromStr(s).None? ==> forall c :: AsStr(c) != s
  {
  }

  /** Distinct currencies have distinct names. */
  lemma AsStrInjective(c: Currency, d: Currency)
    ensures AsStr(c) == AsStr(d) ==> c == d
  {
    FromStrAsStr(c);
    FromStrAsStr(d);
  }

  /** Matching is case-sensitive: the upper-case names are rejected. */
  lemma FromStrCaseSensitive()
    ensures FromStr("USD") == None && FromStr("Usd") == None && FromStr("VND") == None
  {
  }
}
