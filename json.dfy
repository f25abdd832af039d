/**
 * The JSON documents the library stores, seen through an abstract codec.
 * A document is a JSON object: a map from field name to value.  Only the
 * value shapes the library inspects are told apart.
 */
module Json {
  import opened Wrappers

  datatype Value =
    | Null
    | Str(s: string)
    | Num(text: string)
    | StrList(items: seq<string>)
    | StringMap(entries: map<string, string>)
    | Other(text: string)

  type Document = map<string, Value>

  /**
   * An object codec: `decodeObject` fails on text that is not a JSON object,
   * `encodeObject` is total.
   */
  datatype Codec = Codec(decodeObject: string -> Option<Document>, encodeObject: Document -> string)

  /** Encoding loses nothing: every encoded document decodes back to itself. */
  ghost predicate Faithful(c: Codec) {
    forall d: Document :: c.decodeObject(c.encodeObject(d)) == Some(d)
  }

  /** The value a `map[string]string` encodes to; a nil map encodes as `null`. */
  function LabelsValue(labels: Option<map<string, string>>): (v: Value)
    ensures labels.None? <==> v.Null?
    ensures labels.Some? ==> v == StringMap(labels.value)
  {
    match labels
    case None => Null
    case Some(m) => StringMap(m)
  }

  /**
   * Decoding a field into a `map[string]string` that starts out nil: an
   * absent field or `null` leaves it nil, an object of strings fills it, any
   * other value is a decoding error (outer `None`).
   */
  function DecodeLabels(doc: Document, field: string): (r: Option<Option<map<string, string>>>)
    ensures r.Some? && r.value.Some? <==> field in doc && doc[field].StringMap?
    ensures r.None? <==> field in doc && !doc[field].Null? && !doc[field].StringMap?
    ensures r.Some? && r.value.Some? ==> doc[field] == StringMap(r.value.value)
  {
    if field !in doc then Some(None)
    else match doc[field]
      case Null => Some(None)
      case StringMap(m) => Some(Some(m))
      case _ => None
  }

  /** Labels written into a field with `LabelsValue` decode back to the same labels, nil included. */
  lemma LabelsRoundTrip(doc: Document, field: string, labels: Option<map<string, string>>)
    ensures DecodeLabels(doc[field := LabelsValue(labels)], field) == Some(labels)
  {
  }

  /**
   * Decoding a field into a `string` that already holds `current`: absent or
   * `null` keeps it, a JSON string replaces it, anything else is an error.
   */
  function DecodeString(doc: Document, field: string, current: string): (r: Option<string>)
    ensures r.None? <==> field in doc && !doc[field].Null? && !doc[field].Str?
    ensures r.Some? && r.value != current ==> field in doc && doc[field] == Str(r.value)
    ensures field in doc && doc[field].Str? ==> r == Some(doc[field].s)
  {
    if field !in doc then Some(current)
    else match doc[field]
      case Null => Some(current)
      case Str(s) => Some(s)
      case _ => None
  }

  /**
   * Decoding a field into a `float64` that already holds `current` (carried
   * as its text): absent or `null` keeps it, a number replaces it, anything
   * else is an error.
   */
  function DecodeNumber(doc: Document, field: string, current: string): (r: Option<string>)
    ensures r.None? <==> field in doc && !doc[field].Null? && !doc[field].Num?
    ensures r.Some? && r.value != current ==> field in doc && doc[field] == Num(r.value)
    ensures field in doc && doc[field].Num? ==> r == Some(doc[field].text)
  {
    if field !in doc then Some(current)
    else match doc[field]
      case Null => Some(current)
      case Num(t) => Some(t)
      case _ => None
  }
}
