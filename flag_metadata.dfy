/** Flag metadata: the campaign, variation group and variation a flag value
    comes from. A value object: set once at construction, read through its
    getters (the datatype's fields) and serialised to JSON. */
module Flag {
  import opened Common
  import opened OrderedMap

  datatype FlagMetadata = FlagMetadata(
    campaignId: string,
    variationGroupId: string,
    variationId: string,
    isReference: bool,
    campaignType: string,
    slug: Option<string>)

  /** The JSON field names, in serialisation order. */
  const FIELDS: seq<string> :=
    ["campaignId", "variationGroupId", "variationId", "isReference", "campaignType", "slug"]

  /** `jsonSerialize`: the six fields, in declaration order, each with the
      getter's value. */
  function JsonSerialize(m: FlagMetadata): (r: OMap<string, Value>)
    ensures Keys(r) == FIELDS && Unique(r)
    ensures Get(r, "campaignId") == Some(VStr(m.campaignId))
    ensures Get(r, "variationGroupId") == Some(VStr(m.variationGroupId))
    ensures Get(r, "variationId") == Some(VStr(m.variationId))
    ensures Get(r, "isReference") == Some(VBool(m.isReference))
    ensures Get(r, "campaignType") == Some(VStr(m.campaignType))
    ensures Get(r, "slug") == Some(NullableStr(m.slug))
  {
    var r := [("campaignId", VStr(m.campaignId)), ("variationGroupId", VStr(m.variationGroupId)),
              ("variationId", VStr(m.variationId)), ("isReference", VBool(m.isReference)),
              ("campaignType", VStr(m.campaignType)), ("slug", NullableStr(m.slug))];
    assert Keys(r) == FIELDS;
    GetAt(r, "campaignId", 0);
    GetAt(r, "variationGroupId", 1);
    GetAt(r, "variationId", 2);
    GetAt(r, "isReference", 3);
    GetAt(r, "campaignType", 4);
    GetAt(r, "slug", 5);
    r
  }

  /** Reads metadata back from its JSON form: every field present with the
      type the constructor takes (slug a string or null), else nothing. */
  function FromJson(j: OMap<string, Value>): (r: Option<FlagMetadata>)
    ensures r.Some? ==> forall k :: k in FIELDS ==> Get(j, k) == Get(JsonSerialize(r.value), k)
  {
    var c := Get(j, "campaignId");
    var g := Get(j, "variationGroupId");
    var v := Get(j, "variationId");
    var ref := Get(j, "isReference");
    var t := Get(j, "campaignType");
    var slug := Get(j, "slug");
    if c.Some? && c.value.VStr? && g.Some? && g.value.VStr? && v.Some? && v.value.VStr?
       && ref.Some? && ref.value.VBool? && t.Some? && t.value.VStr?
       && slug.Some? && (slug.value.VNull? || slug.value.VStr?)
    then
      Some(FlagMetadata(c.value.s, g.value.s, v.value.s, ref.value.b, t.value.s,
                        if slug.value.VStr? then Some(slug.value.s) else None))
    else None
  }

  /** Serialising loses nothing: the metadata is read back unchanged. */
  lemma JsonRoundTrip(m: FlagMetadata)
    ensures FromJson(JsonSerialize(m)) == Some(m)
  {
    var j := JsonSerialize(m);
    assert Get(j, "slug") == Some(NullableStr(m.slug));
  }

  /** Two metadata values with the same JSON are the same value. */
  lemma JsonSerializeInjective(a: FlagMetadata, b: FlagMetadata)
    requires JsonSerialize(a) == JsonSerialize(b)
    ensures a == b
  {
    JsonRoundTrip(a);
    JsonRoundTrip(b);
  }

  /** `getEmpty`: empty ids and campaign type, not a reference, no slug. */
  function GetEmpty(): (r: FlagMetadata)
    ensures JsonSerialize(r) ==
      [("campaignId", VStr("")), ("variationGroupId", VStr("")), ("variationId", VStr("")),
       ("isReference", VBool(false)), ("campaignType", VStr("")), ("slug", VNull)]
  {
    FlagMetadata("", "", "", false, "", None)
  }
}
