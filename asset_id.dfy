/**
 * Asset identifiers. Two helpers build them, with different prefixes: the
 * upper-case display name of the asset type with a lower-cased external id,
 * and a lower-case prefix with the external id as given.
 */
module AssetIds {
  import opened Wrappers
  import opened Text

  datatype AssetType = Crypto | Stock

  /** The strum `Display` of `AssetType` (`serialize_all = "UPPERCASE"`). */
  function DisplayName(t: AssetType): (s: string)
    ensures |s| >= 5 && forall i :: 0 <= i < |s| ==> 'A' <= s[i] <= 'Z'
  {
    match t
    case Crypto => "CRYPTO"
    case Stock => "STOCK"
  }

  /** The strum `FromStr` of `AssetType`: an exact match on the display names. */
  function ParseAssetType(s: string): (r: Option<AssetType>)
    ensures r.Some? <==> s == "CRYPTO" || s == "STOCK"
    ensures r.Some? ==> DisplayName(r.value) == s
  {
    if s == "CRYPTO" then Some(Crypto) else if s == "STOCK" then Some(Stock) else None
  }

  /** `biz::asset::generate_asset_id`: `"<TYPE>_<external id in lower case>"`. */
  function GenerateAssetId(t: AssetType, externalId: string): (id: string)
    ensures |id| == |DisplayName(t)| + 1 + |externalId|
    ensures id[..|DisplayName(t)|] == DisplayName(t) && id[|DisplayName(t)|] == '_'
    ensures IsLower(id[|DisplayName(t)| + 1..])
  {
    LowerIsLower(externalId);
    DisplayName(t) + "_" + Lower(externalId)
  }

  /** What follows the underscore is exactly the lower-cased external id. */
  lemma GenerateAssetIdShape(t: AssetType, externalId: string)
    ensures GenerateAssetId(t, externalId)[|DisplayName(t)| + 1..] == Lower(externalId)
  {
  }

  /** Lower-casing the external id beforehand changes nothing. */
  lemma GenerateAssetIdLowerFirst(t: AssetType, externalId: string)
    ensures GenerateAssetId(t, Lower(externalId)) == GenerateAssetId(t, externalId)
  {
    LowerIdempotent(externalId);
  }

  /** Identifiers of different asset types never coincide. */
  lemma GenerateAssetIdTypesDisjoint(a: string, b: string)
    ensures GenerateAssetId(Crypto, a) != GenerateAssetId(Stock, b)
  {
    assert GenerateAssetId(Crypto, a)[1] == 'R';
    assert GenerateAssetId(Stock, b)[1] == 'T';
  }

  /** `utils::asset::get_asset_id`: a lower-case prefix and the external id unchanged. */
  function GetAssetId(t: AssetType, externalId: string): (id: string)
    ensures |id| > |externalId| && id[|id| - |externalId|..] == externalId
    ensures id[..|id| - |externalId|] == (if t == Crypto then "crypto_" else "stock_")
  {
    match t
    case Crypto => "crypto_" + externalId
    case Stock => "stock_" + externalId
  }

  /** The inverse of `GetAssetId`: recognise the prefix and strip it. */
  function SplitAssetId(id: string): (r: Option<(AssetType, string)>)
    ensures r.Some? ==> GetAssetId(r.value.0, r.value.1) == id
  {
    if |id| >= 7 && id[..7] == "crypto_" then Some((Crypto, id[7..]))
    else if |id| >= 6 && id[..6] == "stock_" then Some((Stock, id[6..]))
    else None
  }

  /** Stripping the prefix gives back the type and the external id, case and all. */
  lemma SplitGetAssetId(t: AssetType, externalId: string)
    ensures SplitAssetId(GetAssetId(t, externalId)) == Some((t, externalId))
  {
    var id := GetAssetId(t, externalId);
    if t == Stock {
      assert id[..6] == "stock_";
      assert !(|id| >= 7 && id[..7] == "crypto_") by { assert id[0] == 's'; }
    } else {
      assert id[..7] == "crypto_";
    }
  }

  /** `GetAssetId` is injective: different inputs never share an identifier. */
  lemma GetAssetIdInjective(t: AssetType, a: string, u: AssetType, b: string)
    requires GetAssetId(t, a) == GetAssetId(u, b)
    ensures t == u && a == b
  {
    SplitGetAssetId(t, a);
    SplitGetAssetId(u, b);
  }

  /** The two helpers never agree: one prefix is upper case, the other lower case. */
  lemma GenerateAndGetDiffer(t: AssetType, a: string, u: AssetType, b: string)
    ensures GenerateAssetId(t, a) != GetAssetId(u, b)
  {
    assert 'A' <= GenerateAssetId(t, a)[0] <= 'Z';
    assert GetAssetId(u, b)[0] in "cs";
  }
}
