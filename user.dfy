/** The status of a user account and its string forms. */
module Users {
  import opened Text

  datatype UserStatus = Active | Inactive | Suspended | Pending

  /** `UserStatus::as_str`. */
  function AsStr(s: UserStatus): (r: string)
    ensures IsLower(r) && |r| >= 6
  {
    match s
    case Active => "active"
    case Inactive => "inactive"
    case Suspended => "suspended"
    case Pending => "pending"
  }

  /** `ToString for UserStatus`: the same text as `as_str`. */
  function ToString(s: UserStatus): (r: string)
    ensures r == AsStr(s)
  {
    AsStr(s)
  }

  /**
   * `From<String> for UserStatus`: the lower-cased text is matched against the
   * four names, and anything else becomes `Inactive`.
   */
  function FromString(text: string): (r: UserStatus)
    ensures r == Active <==> Lower(text) == "active"
    ensures r == Suspended <==> Lower(text) == "suspended"
    ensures r == Pending <==> Lower(text) == "pending"
    ensures r == Inactive <==> Lower(text) !in {"active", "suspended", "pending"}
  {
    match Lower(text)
    case "active" => Active
    case "inactive" => Inactive
    case "suspended" => Suspended
    case "pending" => Pending
    case _ => Inactive
  }

  /** Reading back the name of a status gives the status. */
  lemma FromStringAsStr(s: UserStatus)
    ensures FromString(AsStr(s)) == s
  {
    LowerIsLower(AsStr(s));
  }

  /** The conversion ignores ASCII case. */
  lemma FromStringCaseInsensitive(text: string)
    ensures FromString(text) == FromString(Lower(text))
  {
    LowerIdempotent(text);
  }

  /** The conversion is total and sends any text that is no status name to `Inactive`. */
  lemma FromStringDefault(text: string)
    requires forall s :: AsStr(s) != Lower(text)
    ensures FromString(text) == Inactive
  {
    assert AsStr(Active) != Lower(text) && AsStr(Suspended) != Lower(text) && AsStr(Pending) != Lower(text);
  }
}
