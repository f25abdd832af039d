/** Tiers and policies (lib/policy.go): their keys and the decoding of their records. */
module Policies {
  import opened Wrappers
  import opened Json
  import Keys
  import Patterns

  /** `TierMetadata`: the embedded tier ID is not part of the JSON; the order is a number, carried as its text. */
  datatype TierMetadata = TierMetadata(tierID: string, order: string)

  /**
   * `Policy`: the embedded `PolicyKey` has no JSON tag, so its fields
   * `TierID` and `PolicyID` are JSON fields too.  The rule lists are carried
   * as undecoded values.
   */
  datatype Policy = Policy(
    tierID: string, policyID: string, selector: string, order: string,
    inboundRules: Value, outboundRules: Value)

  /** The zero value of a Go `float64`. */
  const ZeroOrder := "0"

  /** The value of a field, `null` when it is absent. */
  function FieldOrNull(doc: Document, field: string): Value {
    if field in doc then doc[field] else Null
  }

  // ---------------------------------------------------------------------------
  // Tier metadata

  /** `TierMetadataKey` round-trips through `ParseKey`. */
  lemma TierMetadataKeyRoundTrip(tierID: string)
    requires tierID != [] && Patterns.SlashFree(tierID)
    ensures Keys.ParseKey(Keys.TierMetadataKey(tierID).AsEtcdKey()) == Some(Keys.TierMetadataKey(tierID))
  {
    Keys.RoundTrip(Keys.TierMetadataKey(tierID));
  }

  /**
   * `ParseTierMetadata`: nil exactly when the text does not decode into the
   * record; otherwise the record keeps the key it was given.
   */
  function ParseTierMetadata(c: Codec, tierID: string, raw: string): (r: Option<TierMetadata>)
    ensures r.None? <==> c.decodeObject(raw).None? || DecodeNumber(c.decodeObject(raw).value, "order", ZeroOrder).None?
    ensures r.Some? ==> r.value.tierID == tierID
    ensures r.Some? ==> DecodeNumber(c.decodeObject(raw).value, "order", ZeroOrder) == Some(r.value.order)
  {
    match c.decodeObject(raw)
    case None => None
    case Some(doc) =>
      match DecodeNumber(doc, "order", ZeroOrder)
      case None => None
      case Some(order) => Some(TierMetadata(tierID, order))
  }

  // ---------------------------------------------------------------------------
  // Policies

  /** The typed fields of a policy document all decode. */
  predicate PolicyFieldsDecode(doc: Document, tierID: string, policyID: string) {
    && DecodeString(doc, "TierID", tierID).Some?
    && DecodeString(doc, "PolicyID", policyID).Some?
    && DecodeString(doc, "selector", "").Some?
    && DecodeNumber(doc, "order", ZeroOrder).Some?
  }

  /**
   * `ParsePolicy` as written: nil exactly when the text does not decode into
   * the record.  Decoding starts from the given key, and `TierID` and
   * `PolicyID` fields in the JSON overwrite it.
   */
  function ParsePolicy(c: Codec, tierID: string, policyID: string, raw: string): (r: Option<Policy>)
    ensures r.None? <==> c.decodeObject(raw).None? || !PolicyFieldsDecode(c.decodeObject(raw).value, tierID, policyID)
    ensures r.Some? ==>
      && (r.value.tierID != tierID ==> FieldOrNull(c.decodeObject(raw).value, "TierID") == Str(r.value.tierID))
      && (r.value.policyID != policyID ==> FieldOrNull(c.decodeObject(raw).value, "PolicyID") == Str(r.value.policyID))
    ensures r.Some? ==>
      && DecodeString(c.decodeObject(raw).value, "TierID", tierID) == Some(r.value.tierID)
      && DecodeString(c.decodeObject(raw).value, "PolicyID", policyID) == Some(r.value.policyID)
      && DecodeString(c.decodeObject(raw).value, "selector", "") == Some(r.value.selector)
      && DecodeNumber(c.decodeObject(raw).value, "order", ZeroOrder) == Some(r.value.order)
  {
    match c.decodeObject(raw)
    case None => None
    case Some(doc) =>
      if !PolicyFieldsDecode(doc, tierID, policyID) then None
      else Some(Policy(
        DecodeString(doc, "TierID", tierID).value,
        DecodeString(doc, "PolicyID", policyID).value,
        DecodeString(doc, "selector", "").value,
        DecodeNumber(doc, "order", ZeroOrder).value,
        FieldOrNull(doc, "inbound_rules"),
        FieldOrNull(doc, "outbound_rules")))
  }

  /**
   * As written, the `PolicyID` of a policy document replaces the one in the
   * key it was read under.
   */
  lemma ParsePolicyKeyOverwritten(c: Codec, raw: string, tierID: string, policyID: string, other: string)
    requires c.decodeObject(raw) == Some(map["PolicyID" := Str(other)])
    ensures ParsePolicy(c, tierID, policyID, raw) == Some(Policy(tierID, other, "", ZeroOrder, Null, Null))
  {
    var doc := map["PolicyID" := Str(other)];
    assert "TierID" !in doc && "selector" !in doc && "order" !in doc;
  }

  /** The typed fields of a policy body all decode. */
  predicate PolicyBodyDecodes(doc: Document) {
    DecodeString(doc, "selector", "").Some? && DecodeNumber(doc, "order", ZeroOrder).Some?
  }

  /**
   * `ParsePolicy` as evidently intended (the key fields not part of the
   * JSON, as in the other records): nil exactly when the body does not
   * decode; otherwise the policy keeps the key it was read under.
   */
  function ParsePolicyIntended(c: Codec, tierID: string, policyID: string, raw: string): (r: Option<Policy>)
    ensures r.None? <==> c.decodeObject(raw).None? || !PolicyBodyDecodes(c.decodeObject(raw).value)
    ensures r.Some? ==> r.value.tierID == tierID && r.value.policyID == policyID
  {
    match c.decodeObject(raw)
    case None => None
    case Some(doc) =>
      if !PolicyBodyDecodes(doc) then None
      else Some(Policy(
        tierID, policyID,
        DecodeString(doc, "selector", "").value,
        DecodeNumber(doc, "order", ZeroOrder).value,
        FieldOrNull(doc, "inbound_rules"),
        FieldOrNull(doc, "outbound_rules")))
  }

  /** The two readings agree on every document without `TierID` and `PolicyID` fields. */
  lemma ParsePolicyAgrees(c: Codec, tierID: string, policyID: string, raw: string)
    requires c.decodeObject(raw).Some? ==>
      "TierID" !in c.decodeObject(raw).value && "PolicyID" !in c.decodeObject(raw).value
    ensures ParsePolicy(c, tierID, policyID, raw) == ParsePolicyIntended(c, tierID, policyID, raw)
  {
  }
}
