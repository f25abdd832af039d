/**
 * The key schema: the typed keys of the datastore, the paths they are stored
 * under (`asEtcdKey`) and `ParseKey`, which recognises a path by trying seven
 * patterns in a fixed order.
 */
module Keys {
  import opened Wrappers
  import opened Patterns

  /** The key types that implement `storeKey`. */
  datatype StoreKey =
    | EndpointKey(hostname: string, orchestratorID: string, workloadID: string, endpointID: string)
    | HostEndpointKey(hostname: string, endpointID: string)
    | PolicyKey(tierID: string, policyID: string)
    | ProfileRulesKey(profileID: string)
    | ProfileTagsKey(profileID: string)
    | ProfileLabelsKey(profileID: string)
    | TierMetadataKey(tierID: string)
    | HostIPKey(hostname: string)
  {
    /** The store path of the key. */
    function AsEtcdKey(): (r: string)
      ensures "/calico/v1/" <= r
    {
      match this
      case EndpointKey(h, o, w, e) => "/calico/v1/host/" + h + "/workload/" + o + "/" + w + "/endpoint/" + e
      case HostEndpointKey(h, e) => "/calico/v1/host/" + h + "/endpoint/" + e
      case PolicyKey(t, p) => "/calico/v1/policy/tier/" + t + "/metadata/" + p
      case ProfileRulesKey(p) => "/calico/v1/policy/profile/" + p + "/rules"
      case ProfileTagsKey(p) => "/calico/v1/policy/profile/" + p + "/tags"
      case ProfileLabelsKey(p) => "/calico/v1/policy/profile/" + p + "/labels"
      case TierMetadataKey(t) => "/calico/v1/policy/tier/" + t + "/metadata"
      case HostIPKey(h) => "/calico/v1/host/" + h + "/bird_ip"
    }

    /** The identifier fields, in the order the path holds them. */
    function Fields(): seq<string> {
      match this
      case EndpointKey(h, o, w, e) => [h, o, w, e]
      case HostEndpointKey(h, e) => [h, e]
      case PolicyKey(t, p) => [t, p]
      case ProfileRulesKey(p) => [p]
      case ProfileTagsKey(p) => [p]
      case ProfileLabelsKey(p) => [p]
      case TierMetadataKey(t) => [t]
      case HostIPKey(h) => [h]
    }

    /** Every identifier field is a single, non-empty path segment. */
    predicate Valid() {
      forall i | 0 <= i < |Fields()| :: Fields()[i] != [] && SlashFree(Fields()[i])
    }
  }

  /** The seven patterns `ParseKey` knows, one per key type it can return. */
  datatype Kind =
    | EndpointKind | PolicyKind | ProfileRulesKind | ProfileTagsKind
    | ProfileLabelsKind | TierMetadataKind | HostIPKind

  // `^/?calico/v1/host/([^/]+)/workload/([^/]+)/([^/]+)/endpoint/([^/]+)`
  const EndpointPattern: Pattern :=
    OptSlash(Lit("calico/v1/host/", Seg(true, true, Lit("/workload/", Seg(true, true,
      Lit("/", Seg(true, true, Lit("/endpoint/", Seg(true, true, End)))))))))
  // `^/?calico/v1/policy/tier/([^/]+)/policy/([^/]+)`
  const PolicyPattern: Pattern :=
    OptSlash(Lit("calico/v1/policy/tier/", Seg(true, true, Lit("/policy/", Seg(true, true, End)))))
  // `^/?calico/v1/policy/profile/([^/]+)/rules`
  const ProfileRulesPattern: Pattern :=
    OptSlash(Lit("calico/v1/policy/profile/", Seg(true, true, Lit("/rules", End))))
  // `^/?calico/v1/policy/profile/([^/]+)/tags`
  const ProfileTagsPattern: Pattern :=
    OptSlash(Lit("calico/v1/policy/profile/", Seg(true, true, Lit("/tags", End))))
  // `^/?calico/v1/policy/profile/([^/]+)/labels`
  const ProfileLabelsPattern: Pattern :=
    OptSlash(Lit("calico/v1/policy/profile/", Seg(true, true, Lit("/labels", End))))
  // `^/?calico/v1/policy/tier/([^/]+)/metadata`
  const TierDataPattern: Pattern :=
    OptSlash(Lit("calico/v1/policy/tier/", Seg(true, true, Lit("/metadata", End))))
  // `^/?calico/v1/host/([^/]+)/bird_ip`
  const HostIPPattern: Pattern :=
    OptSlash(Lit("calico/v1/host/", Seg(true, true, Lit("/bird_ip", End))))

  function PatternOf(kind: Kind): Pattern {
    match kind
    case EndpointKind => EndpointPattern
    case PolicyKind => PolicyPattern
    case ProfileRulesKind => ProfileRulesPattern
    case ProfileTagsKind => ProfileTagsPattern
    case ProfileLabelsKind => ProfileLabelsPattern
    case TierMetadataKind => TierDataPattern
    case HostIPKind => HostIPPattern
  }

  /** The pattern behind the optional leading `/`. */
  function Inner(kind: Kind): Pattern {
    PatternOf(kind).next
  }

  /** The key `ParseKey` builds from the captures of a kind's pattern. */
  function Build(kind: Kind, caps: seq<string>): StoreKey
    requires |caps| == CaptureCount(PatternOf(kind))
  {
    match kind
    case EndpointKind => EndpointKey(caps[0], caps[1], caps[2], caps[3])
    case PolicyKind => PolicyKey(caps[0], caps[1])
    case ProfileRulesKind => ProfileRulesKey(caps[0])
    case ProfileTagsKind => ProfileTagsKey(caps[0])
    case ProfileLabelsKind => ProfileLabelsKey(caps[0])
    case TierMetadataKind => TierMetadataKey(caps[0])
    case HostIPKind => HostIPKey(caps[0])
  }

  /** The kind whose pattern builds keys of this type; host endpoint keys have none. */
  function KindOf(k: StoreKey): Option<Kind> {
    match k
    case EndpointKey(_, _, _, _) => Some(EndpointKind)
    case HostEndpointKey(_, _) => None
    case PolicyKey(_, _) => Some(PolicyKind)
    case ProfileRulesKey(_) => Some(ProfileRulesKind)
    case ProfileTagsKey(_) => Some(ProfileTagsKind)
    case ProfileLabelsKey(_) => Some(ProfileLabelsKind)
    case TierMetadataKey(_) => Some(TierMetadataKind)
    case HostIPKey(_) => Some(HostIPKind)
  }

  /**
   * Parses a store path into a key: the first of the seven patterns that
   * matches wins; a path that matches none gives `None` (not an error).
   */
  function ParseKey(key: string): (r: Option<StoreKey>)
    ensures r.Some? ==> KindOf(r.value).Some? && !r.value.HostEndpointKey?
  {
    var m := Match(EndpointPattern, key);
    if m.Some? then Some(EndpointKey(m.value[0], m.value[1], m.value[2], m.value[3]))
    else var m := Match(PolicyPattern, key);
    if m.Some? then Some(PolicyKey(m.value[0], m.value[1]))
    else var m := Match(ProfileRulesPattern, key);
    if m.Some? then Some(ProfileRulesKey(m.value[0]))
    else var m := Match(ProfileTagsPattern, key);
    if m.Some? then Some(ProfileTagsKey(m.value[0]))
    else var m := Match(ProfileLabelsPattern, key);
    if m.Some? then Some(ProfileLabelsKey(m.value[0]))
    else var m := Match(TierDataPattern, key);
    if m.Some? then Some(TierMetadataKey(m.value[0]))
    else var m := Match(HostIPPattern, key);
    if m.Some? then Some(HostIPKey(m.value[0]))
    else None
  }

  /** The order in which `ParseKey` tries the patterns. */
  const ParseOrder: seq<Kind> :=
    [EndpointKind, PolicyKind, ProfileRulesKind, ProfileTagsKind, ProfileLabelsKind, TierMetadataKind, HostIPKind]

  /** Reference reading of an ordered dispatch table: the first kind in `kinds` whose pattern matches. */
  function FirstMatch(kinds: seq<Kind>, key: string): Option<StoreKey> {
    if kinds == [] then None
    else
      match Match(PatternOf(kinds[0]), key)
      case Some(caps) => Some(Build(kinds[0], caps))
      case None => FirstMatch(kinds[1..], key)
  }

  // ---------------------------------------------------------------------------
  // Lemmas

  lemma FirstMatchStep(kind: Kind, rest: seq<Kind>, key: string)
    ensures FirstMatch([kind] + rest, key) ==
      if Match(PatternOf(kind), key).Some? then Some(Build(kind, Match(PatternOf(kind), key).value))
      else FirstMatch(rest, key)
  {
    assert ([kind] + rest)[0] == kind && ([kind] + rest)[1..] == rest;
  }

  /** The last three entries of the dispatch, written out. */
  lemma FirstMatchTail(key: string)
    ensures FirstMatch([ProfileLabelsKind, TierMetadataKind, HostIPKind], key) ==
      var m := Match(ProfileLabelsPattern, key);
      if m.Some? then Some(ProfileLabelsKey(m.value[0]))
      else var m := Match(TierDataPattern, key);
      if m.Some? then Some(TierMetadataKey(m.value[0]))
      else var m := Match(HostIPPattern, key);
      if m.Some? then Some(HostIPKey(m.value[0]))
      else None
  {
    var s6 := [HostIPKind];
    var s5 := [TierMetadataKind] + s6;
    assert [ProfileLabelsKind] + s5 == [ProfileLabelsKind, TierMetadataKind, HostIPKind];
    FirstMatchStep(HostIPKind, [], key);
    assert [HostIPKind] + [] == s6;
    FirstMatchStep(TierMetadataKind, s6, key);
    FirstMatchStep(ProfileLabelsKind, s5, key);
  }

  /** `ParseKey` is the ordered dispatch over `ParseOrder`: endpoint, policy, profile rules, tags, labels, tier metadata, host IP. */
  lemma ParseKeyIsFirstMatch(key: string)
    ensures ParseKey(key) == FirstMatch(ParseOrder, key)
  {
    var s4 := [ProfileLabelsKind, TierMetadataKind, HostIPKind];
    var s3 := [ProfileTagsKind] + s4;
    var s2 := [ProfileRulesKind] + s3;
    var s1 := [PolicyKind] + s2;
    assert [EndpointKind] + s1 == ParseOrder;
    FirstMatchTail(key);
    FirstMatchStep(ProfileTagsKind, s4, key);
    FirstMatchStep(ProfileRulesKind, s3, key);
    FirstMatchStep(PolicyKind, s2, key);
    FirstMatchStep(EndpointKind, s1, key);
  }

  /** Where the literals of the seven patterns part ways. */
  lemma LiteralsClash()
    ensures Clash("calico/v1/host/", "calico/v1/policy/tier/")
    ensures Clash("calico/v1/host/", "calico/v1/policy/profile/")
    ensures Clash("calico/v1/policy/tier/", "calico/v1/policy/profile/")
    ensures Clash("/rules", "/tags") && Clash("/rules", "/labels") && Clash("/tags", "/labels")
  {
    assert "calico/v1/host/"[10] != "calico/v1/policy/tier/"[10];
    assert "calico/v1/host/"[10] != "calico/v1/policy/profile/"[10];
    assert "calico/v1/policy/tier/"[17] != "calico/v1/policy/profile/"[17];
    assert "/rules"[1] != "/tags"[1] && "/rules"[1] != "/labels"[1] && "/tags"[1] != "/labels"[1];
  }

  /** The position of a kind in `ParseOrder`. */
  function Rank(kind: Kind): nat {
    match kind
    case EndpointKind => 0
    case PolicyKind => 1
    case ProfileRulesKind => 2
    case ProfileTagsKind => 3
    case ProfileLabelsKind => 4
    case TierMetadataKind => 5
    case HostIPKind => 6
  }

  lemma KindsDivergeOrdered(k1: Kind, k2: Kind)
    requires Rank(k1) < Rank(k2)
    ensures Diverge(Inner(k1), Inner(k2))
  {
    LiteralsClash();
    match k1
    case EndpointKind => SameHostDiverge();
    case PolicyKind => SameTierDiverge();
    case ProfileRulesKind =>
    case ProfileTagsKind =>
    case ProfileLabelsKind =>
    case TierMetadataKind =>
  }

  /** The two patterns under `calico/v1/host/` part at `/workload/` and `/bird_ip`. */
  lemma SameHostDiverge()
    ensures Diverge(Inner(EndpointKind), Inner(HostIPKind))
  {
    assert "/workload/"[1] != "/bird_ip"[1];
    assert Diverge(Lit("/workload/", Seg(true, true, Lit("/", Seg(true, true, Lit("/endpoint/", Seg(true, true, End)))))), Lit("/bird_ip", End));
  }

  /** The two patterns under `calico/v1/policy/tier/` part at `/policy/` and `/metadata`. */
  lemma SameTierDiverge()
    ensures Diverge(Inner(PolicyKind), Inner(TierMetadataKind))
  {
    assert "/policy/"[1] != "/metadata"[1];
    assert Diverge(Lit("/policy/", Seg(true, true, End)), Lit("/metadata", End));
  }

  /** The inner patterns of two different kinds always diverge. */
  lemma KindsDiverge(k1: Kind, k2: Kind)
    requires k1 != k2
    ensures Diverge(Inner(k1), Inner(k2))
  {
    if Rank(k1) < Rank(k2) {
      KindsDivergeOrdered(k1, k2);
    } else {
      KindsDivergeOrdered(k2, k1);
      DivergeSymmetric(Inner(k2), Inner(k1));
    }
  }

  /** Each inner pattern starts with a literal that is not `/`, and its runs are delimited and non-empty. */
  lemma InnerShape(kind: Kind)
    ensures PatternOf(kind) == OptSlash(Inner(kind))
    ensures Inner(kind).Lit? && |Inner(kind).text| > 0 && Inner(kind).text[0] != '/'
    ensures Plain(Inner(kind)) && Delimited(Inner(kind)) && CapturesNonEmpty(Inner(kind))
  {
    match kind
    case EndpointKind =>
    case PolicyKind =>
    case ProfileRulesKind =>
    case ProfileTagsKind =>
    case ProfileLabelsKind =>
    case TierMetadataKind =>
    case HostIPKind =>
  }

  /** The pattern of a kind matches the text with at most one leading `/` removed. */
  lemma KindMatch(kind: Kind, key: string)
    ensures Match(PatternOf(kind), key) == Match(Inner(kind), StripSlash(key))
    ensures Plain(Inner(kind)) && Delimited(Inner(kind)) && CapturesNonEmpty(Inner(kind))
  {
    InnerShape(kind);
    OptSlashStrips(Inner(kind), key);
  }

  /** No path matches the patterns of two different kinds: the seven patterns are pairwise disjoint. */
  lemma PatternsDisjoint(k1: Kind, k2: Kind, key: string)
    requires Match(PatternOf(k1), key).Some? && Match(PatternOf(k2), key).Some?
    ensures k1 == k2
  {
    if k1 != k2 {
      KindMatch(k1, key);
      KindMatch(k2, key);
      KindsDiverge(k1, k2);
      DivergeExclusive(Inner(k1), Inner(k2), StripSlash(key));
    }
  }

  lemma {:induction false} FirstMatchFinds(kinds: seq<Kind>, kind: Kind, key: string)
    requires kind in kinds
    requires Match(PatternOf(kind), key).Some?
    ensures FirstMatch(kinds, key) == Some(Build(kind, Match(PatternOf(kind), key).value))
  {
    if kinds[0] == kind {
    } else {
      if Match(PatternOf(kinds[0]), key).Some? {
        PatternsDisjoint(kinds[0], kind, key);
      }
      FirstMatchFinds(kinds[1..], kind, key);
    }
  }

  lemma {:induction false} FirstMatchNone(kinds: seq<Kind>, key: string)
    ensures FirstMatch(kinds, key).None? <==> forall k | k in kinds :: Match(PatternOf(k), key).None?
  {
    if kinds != [] {
      FirstMatchNone(kinds[1..], key);
      assert forall k | k in kinds :: k == kinds[0] || k in kinds[1..];
    }
  }

  lemma EveryKindIsTried(kind: Kind)
    ensures kind in ParseOrder
  {
    match kind
    case EndpointKind => assert ParseOrder[0] == kind;
    case PolicyKind => assert ParseOrder[1] == kind;
    case ProfileRulesKind => assert ParseOrder[2] == kind;
    case ProfileTagsKind => assert ParseOrder[3] == kind;
    case ProfileLabelsKind => assert ParseOrder[4] == kind;
    case TierMetadataKind => assert ParseOrder[5] == kind;
    case HostIPKind => assert ParseOrder[6] == kind;
  }

  /**
   * Whichever pattern matches decides the result: since the patterns are
   * disjoint, the order in which `ParseKey` tries them never changes its answer.
   */
  lemma ParseKeyByPattern(kind: Kind, key: string)
    requires Match(PatternOf(kind), key).Some?
    ensures ParseKey(key) == Some(Build(kind, Match(PatternOf(kind), key).value))
  {
    ParseKeyIsFirstMatch(key);
    EveryKindIsTried(kind);
    FirstMatchFinds(ParseOrder, kind, key);
  }

  /** A path outside the schema gives `None`, exactly when none of the seven patterns matches it. */
  lemma ParseKeyNone(key: string)
    ensures ParseKey(key).None? <==> forall kind: Kind :: Match(PatternOf(kind), key).None?
  {
    ParseKeyIsFirstMatch(key);
    FirstMatchNone(ParseOrder, key);
    forall kind: Kind ensures kind in ParseOrder {
      EveryKindIsTried(kind);
    }
  }

  lemma BuildInverse(kind: Kind, caps: seq<string>)
    requires |caps| == CaptureCount(PatternOf(kind))
    ensures KindOf(Build(kind, caps)) == Some(kind) && Build(kind, caps).Fields() == caps
  {
    KindArity(kind);
    if kind == EndpointKind {
      assert caps == [caps[0], caps[1], caps[2], caps[3]];
    } else if kind == PolicyKind {
      assert caps == [caps[0], caps[1]];
    } else {
      assert caps == [caps[0]];
    }
  }

  /**
   * `ParseKey` returns `k` exactly when the pattern of `k`'s type matches the
   * path and captures `k`'s fields; it never returns a host endpoint key.
   */
  lemma ParseKeyCharacterised(key: string, k: StoreKey)
    ensures ParseKey(key) == Some(k) <==>
      KindOf(k).Some? && Match(PatternOf(KindOf(k).value), key) == Some(k.Fields())
  {
    if ParseKey(key) == Some(k) {
      ParseKeyIsFirstMatch(key);
      var kind :| kind in ParseOrder && Match(PatternOf(kind), key).Some? && k == Build(kind, Match(PatternOf(kind), key).value) by {
        FirstMatchSource(ParseOrder, key);
      }
      BuildInverse(kind, Match(PatternOf(kind), key).value);
    }
    if KindOf(k).Some? && Match(PatternOf(KindOf(k).value), key) == Some(k.Fields()) {
      ParseKeyByPattern(KindOf(k).value, key);
    }
  }

  lemma {:induction false} FirstMatchSource(kinds: seq<Kind>, key: string)
    requires FirstMatch(kinds, key).Some?
    ensures exists kind | kind in kinds ::
      Match(PatternOf(kind), key).Some? && FirstMatch(kinds, key) == Some(Build(kind, Match(PatternOf(kind), key).value))
  {
    if Match(PatternOf(kinds[0]), key).None? {
      FirstMatchSource(kinds[1..], key);
      var kind :| kind in kinds[1..] && Match(PatternOf(kind), key).Some? &&
        FirstMatch(kinds[1..], key) == Some(Build(kind, Match(PatternOf(kind), key).value));
      assert kind in kinds;
    } else {
      assert kinds[0] in kinds;
    }
  }

  /** Every field of a parsed key is non-empty and holds no `/`. */
  lemma ParsedKeyValid(key: string)
    requires ParseKey(key).Some?
    ensures ParseKey(key).value.Valid()
  {
    var k := ParseKey(key).value;
    ParseKeyCharacterised(key, k);
    var kind := KindOf(k).value;
    KindMatch(kind, key);
    CapturesWellFormed(Inner(kind), k.Fields());
  }

  /** A dispatch only looks at which patterns match and what they capture. */
  lemma {:induction false} FirstMatchSameMatches(kinds: seq<Kind>, a: string, b: string)
    requires forall kind: Kind :: Match(PatternOf(kind), a) == Match(PatternOf(kind), b)
    ensures FirstMatch(kinds, a) == FirstMatch(kinds, b)
  {
    if kinds != [] {
      FirstMatchSameMatches(kinds[1..], a, b);
    }
  }

  /** The optional leading `/`: a path without one parses as the same path with one. */
  lemma ParseKeyLeadingSlash(key: string)
    requires key == [] || key[0] != '/'
    ensures ParseKey("/" + key) == ParseKey(key)
  {
    assert StripSlash("/" + key) == key == StripSlash(key);
    forall kind: Kind ensures Match(PatternOf(kind), "/" + key) == Match(PatternOf(kind), key) {
      KindMatch(kind, key);
      KindMatch(kind, "/" + key);
    }
    FirstMatchSameMatches(ParseOrder, "/" + key, key);
    ParseKeyIsFirstMatch(key);
    ParseKeyIsFirstMatch("/" + key);
  }

  lemma KindMatchExtend(kind: Kind, key: string, more: string)
    requires Match(PatternOf(kind), key).Some?
    ensures Match(PatternOf(kind), key + "/" + more) == Match(PatternOf(kind), key)
  {
    InnerShape(kind);
    OptSlashExtend(Inner(kind), key, more);
  }

  /** Patterns are open at the end: `/` and any text after a recognised path do not change its key. */
  lemma ParseKeyExtend(key: string, more: string)
    requires ParseKey(key).Some?
    ensures ParseKey(key + "/" + more) == ParseKey(key)
  {
    ParseKeyNone(key);
    var kind :| Match(PatternOf(kind), key).Some?;
    KindMatchExtend(kind, key, more);
    ParseKeyByPattern(kind, key);
    ParseKeyByPattern(kind, key + "/" + more);
  }

  /**
   * A path whose tail after any one leading `/` is rendered from a kind's
   * pattern, possibly followed by `/` and more, parses to that kind's key.
   */
  lemma ParseRendered(kind: Kind, fields: seq<string>, tail: string)
    requires FieldsFit(Inner(kind), fields)
    requires tail == [] || tail[0] == '/'
    ensures |fields| == CaptureCount(PatternOf(kind))
    ensures ParseKey("/" + Render(Inner(kind), fields) + tail) == Some(Build(kind, fields))
  {
    KindMatchRendered(kind, fields, tail);
    ParseKeyByPattern(kind, "/" + Render(Inner(kind), fields) + tail);
  }

  lemma KindMatchRendered(kind: Kind, fields: seq<string>, tail: string)
    requires FieldsFit(Inner(kind), fields)
    requires tail == [] || tail[0] == '/'
    ensures |fields| == CaptureCount(PatternOf(kind))
    ensures Match(PatternOf(kind), "/" + Render(Inner(kind), fields) + tail) == Some(fields)
  {
    InnerShape(kind);
    OptSlashRender(Inner(kind), fields, tail);
    AllRunsCapture(kind, fields);
  }

  lemma AllRunsCapture(kind: Kind, fields: seq<string>)
    requires FieldsFit(Inner(kind), fields)
    ensures Captured(Inner(kind), fields) == fields
    ensures |fields| == CaptureCount(PatternOf(kind))
  {
    InnerCaptures(kind);
    AllCaptureFields(Inner(kind), fields);
  }

  /** Every run of every inner pattern captures, and nothing is captured outside the inner pattern. */
  lemma InnerCaptures(kind: Kind)
    ensures AllCapture(Inner(kind)) && CapturesNonEmpty(Inner(kind))
    ensures CaptureCount(Inner(kind)) == CaptureCount(PatternOf(kind))
  {
    match kind
    case EndpointKind =>
    case PolicyKind =>
    case ProfileRulesKind =>
    case ProfileTagsKind =>
    case ProfileLabelsKind =>
    case TierMetadataKind =>
    case HostIPKind =>
  }

  /** A key has one field per capture of its kind's pattern. */
  lemma FieldCount(k: StoreKey)
    requires KindOf(k).Some?
    ensures |k.Fields()| == CaptureCount(PatternOf(KindOf(k).value))
  {
    KindArity(KindOf(k).value);
  }

  /** The number of groups in each kind's pattern. */
  lemma KindArity(kind: Kind)
    ensures CaptureCount(PatternOf(kind)) == if kind == EndpointKind then 4 else if kind == PolicyKind then 2 else 1
  {
    match kind
    case EndpointKind =>
    case PolicyKind =>
    case ProfileRulesKind =>
    case ProfileTagsKind =>
    case ProfileLabelsKind =>
    case TierMetadataKind =>
    case HostIPKind =>
  }

  /** Rendering of a pattern with one run between two literals, behind a `/`. */
  lemma RenderOneRun(prefix: string, x: string, suffix: string)
    ensures "/" + Render(Lit(prefix, Seg(true, true, Lit(suffix, End))), [x]) == ("/" + prefix) + x + suffix
  {
    assert [x][1..] == [];
    assert Render(Lit(suffix, End), []) == suffix + [];
  }

  lemma LeadingSlashes()
    ensures "/" + "calico/v1/host/" == "/calico/v1/host/"
    ensures "/" + "calico/v1/policy/tier/" == "/calico/v1/policy/tier/"
    ensures "/" + "calico/v1/policy/profile/" == "/calico/v1/policy/profile/"
  {
  }

  /** Rendering of the endpoint pattern. */
  lemma RenderEndpoint(h: string, o: string, w: string, e: string)
    ensures "/" + Render(Inner(EndpointKind), [h, o, w, e]) ==
      ("/" + "calico/v1/host/") + h + "/workload/" + o + "/" + w + "/endpoint/" + e
  {
    var p4 := Seg(true, true, End);
    var p3 := Lit("/endpoint/", p4);
    var p2 := Seg(true, true, p3);
    var p1 := Lit("/", p2);
    var p0 := Seg(true, true, p1);
    assert [e][1..] == [] && [w, e][1..] == [e] && [o, w, e][1..] == [w, e] && [h, o, w, e][1..] == [o, w, e];
    assert Render(p4, [e]) == e;
    var r3 := "/endpoint/" + e;
    assert Render(p3, [e]) == r3;
    var r2 := w + r3;
    assert Render(p2, [w, e]) == r2;
    var r1 := "/" + r2;
    assert Render(p1, [w, e]) == r1;
    var r0 := o + r1;
    assert Render(p0, [o, w, e]) == r0;
    assert Render(Lit("/workload/", p0), [o, w, e]) == "/workload/" + r0;
    assert Render(Seg(true, true, Lit("/workload/", p0)), [h, o, w, e]) == h + ("/workload/" + r0);
    assert Inner(EndpointKind) == Lit("calico/v1/host/", Seg(true, true, Lit("/workload/", p0)));
    assert Render(Inner(EndpointKind), [h, o, w, e]) == "calico/v1/host/" + (h + ("/workload/" + r0));
  }

  /** The path of a key whose type has a pattern is the rendering of that pattern with the key's fields. */
  lemma FormatIsRender(k: StoreKey)
    requires KindOf(k).Some? && !k.PolicyKey?
    ensures k.AsEtcdKey() == "/" + Render(Inner(KindOf(k).value), k.Fields())
  {
    LeadingSlashes();
    match k
    case EndpointKey(h, o, w, e) => RenderEndpoint(h, o, w, e);
    case ProfileRulesKey(p) => RenderOneRun("calico/v1/policy/profile/", p, "/rules");
    case ProfileTagsKey(p) => RenderOneRun("calico/v1/policy/profile/", p, "/tags");
    case ProfileLabelsKey(p) => RenderOneRun("calico/v1/policy/profile/", p, "/labels");
    case TierMetadataKey(t) => RenderOneRun("calico/v1/policy/tier/", t, "/metadata");
    case HostIPKey(h) => RenderOneRun("calico/v1/host/", h, "/bird_ip");
  }

  /** A valid key's fields fit the runs of its pattern. */
  lemma ValidFieldsFit(k: StoreKey)
    requires k.Valid() && KindOf(k).Some?
    ensures FieldsFit(Inner(KindOf(k).value), k.Fields())
  {
    InnerCaptures(KindOf(k).value);
    FieldCount(k);
    AllCaptureFields(Inner(KindOf(k).value), k.Fields());
  }

  lemma BuildFields(k: StoreKey)
    requires KindOf(k).Some? && |k.Fields()| == CaptureCount(PatternOf(KindOf(k).value))
    ensures Build(KindOf(k).value, k.Fields()) == k
  {
  }

  /**
   * Round trip: every key type that has a pattern, except the policy key,
   * parses back from its own path when its fields are single non-empty segments.
   */
  lemma RoundTrip(k: StoreKey)
    requires k.Valid() && KindOf(k).Some? && !k.PolicyKey?
    ensures ParseKey(k.AsEtcdKey()) == Some(k)
  {
    var kind := KindOf(k).value;
    var rendered := "/" + Render(Inner(kind), k.Fields());
    FormatIsRender(k);
    ValidFieldsFit(k);
    ParseRendered(kind, k.Fields(), []);
    assert rendered + [] == rendered;
    BuildFields(k);
  }

  /** A path that matches a shape diverging from every kind's pattern parses to `None`. */
  lemma ParseKeyNoneByShape(shape: Pattern, key: string)
    requires Match(shape, StripSlash(key)).Some?
    requires forall kind: Kind :: Diverge(shape, Inner(kind))
    ensures ParseKey(key) == None
  {
    forall kind: Kind ensures Match(PatternOf(kind), key).None? {
      KindMatch(kind, key);
      DivergeExclusive(shape, Inner(kind), StripSlash(key));
    }
    ParseKeyNone(key);
  }

  /** `/calico/v1/unknown/thing` is outside the schema: it gives `None`, not an error. */
  lemma UnknownKeyIsNone()
    ensures ParseKey("/calico/v1/unknown/thing") == None
  {
    var shape := Lit("calico/v1/unknown/thing", End);
    assert StripSlash("/calico/v1/unknown/thing") == "calico/v1/unknown/thing";
    assert "calico/v1/unknown/thing"[10] != "calico/v1/host/"[10];
    assert "calico/v1/unknown/thing"[10] != "calico/v1/policy/tier/"[10];
    assert "calico/v1/unknown/thing"[10] != "calico/v1/policy/profile/"[10];
    ParseKeyNoneByShape(shape, "/calico/v1/unknown/thing");
  }

  /** Host IP keys round-trip: `HostIPKey{H}` parses back from `/calico/v1/host/H/bird_ip`. */
  lemma HostIPKeyRoundTrip(hostname: string)
    requires hostname != [] && SlashFree(hostname)
    ensures ParseKey(HostIPKey(hostname).AsEtcdKey()) == Some(HostIPKey(hostname))
  {
    RoundTrip(HostIPKey(hostname));
  }

  /** The shape of a host endpoint path after the leading `/`. */
  const HostEndpointShape: Pattern := Lit("calico/v1/host/", Seg(false, false, Lit("/endpoint", End)))

  lemma HostEndpointShapeDiverges(kind: Kind)
    ensures Diverge(HostEndpointShape, Inner(kind))
  {
    match kind
    case EndpointKind => HostEndpointShapeHostKinds();
    case HostIPKind => HostEndpointShapeHostKinds();
    case _ => LiteralsClash();
  }

  /** Under `calico/v1/host/`, `/endpoint` parts from `/workload/` and from `/bird_ip`. */
  lemma HostEndpointShapeHostKinds()
    ensures Diverge(HostEndpointShape, Inner(EndpointKind)) && Diverge(HostEndpointShape, Inner(HostIPKind))
  {
    assert "/endpoint"[1] != "/workload/"[1];
    assert "/endpoint"[1] != "/bird_ip"[1];
    assert Diverge(Lit("/endpoint", End), Lit("/workload/", Seg(true, true, Lit("/", Seg(true, true, Lit("/endpoint/", Seg(true, true, End)))))));
    assert Diverge(Lit("/endpoint", End), Lit("/bird_ip", End));
  }

  lemma HostEndpointPath(hostname: string, endpointID: string)
    ensures HostEndpointKey(hostname, endpointID).AsEtcdKey() ==
      "/" + ("calico/v1/host/" + (hostname + "/endpoint") + ("/" + endpointID))
  {
    LeadingSlashes();
    EndpointSuffix();
    Regroup("/calico/v1/host/", hostname, "/endpoint/", endpointID, "calico/v1/host/", "/endpoint");
  }

  /** Regrouping a four-part path `a h b e` whose `a` starts and whose `b` ends with `/`. */
  lemma Regroup(a: string, h: string, b: string, e: string, c: string, d: string)
    requires a == "/" + c && b == d + "/"
    ensures a + h + b + e == "/" + (c + (h + d) + ("/" + e))
  {
    assert a + h + b + e == "/" + c + h + d + "/" + e;
  }

  lemma EndpointSuffix()
    ensures "/endpoint" + "/" == "/endpoint/"
  {
  }

  lemma HostEndpointShapeMatches(hostname: string, endpointID: string)
    requires SlashFree(hostname)
    ensures Render(HostEndpointShape, [hostname]) == "calico/v1/host/" + (hostname + "/endpoint")
    ensures Match(HostEndpointShape, Render(HostEndpointShape, [hostname]) + ("/" + endpointID)).Some?
  {
    var inner := Seg(false, false, Lit("/endpoint", End));
    assert [hostname][1..] == [];
    assert Render(Lit("/endpoint", End), []) == "/endpoint" + [];
    assert Render(inner, [hostname]) == hostname + "/endpoint";
    var r := Render(HostEndpointShape, [hostname]);
    assert r == "calico/v1/host/" + (hostname + "/endpoint");
    assert FieldsFit(Lit("/endpoint", End), []) && FieldsFit(inner, [hostname]);
    MatchRender(HostEndpointShape, [hostname], "/" + endpointID);
  }

  /**
   * Host endpoint keys have a formatter but no pattern: `ParseKey` gives
   * `None` for every host endpoint path whose hostname holds no `/`.
   */
  lemma HostEndpointKeyNotParsed(hostname: string, endpointID: string)
    requires SlashFree(hostname)
    ensures ParseKey(HostEndpointKey(hostname, endpointID).AsEtcdKey()) == None
  {
    HostEndpointShapeMatches(hostname, endpointID);
    HostEndpointPath(hostname, endpointID);
    forall kind: Kind ensures Diverge(HostEndpointShape, Inner(kind)) {
      HostEndpointShapeDiverges(kind);
    }
    ParseKeyNoneByShape(HostEndpointShape, HostEndpointKey(hostname, endpointID).AsEtcdKey());
  }

  /**
   * The policy key's path puts `metadata` where the policy pattern expects
   * `policy`: it parses as the tier's metadata key and the policy ID is lost.
   */
  lemma PolicyKeyParsesAsTierMetadata(tierID: string, policyID: string)
    requires tierID != [] && SlashFree(tierID)
    ensures ParseKey(PolicyKey(tierID, policyID).AsEtcdKey()) == Some(TierMetadataKey(tierID))
  {
    ValidFieldsFit(TierMetadataKey(tierID));
    ParseRendered(TierMetadataKind, [tierID], "/" + policyID);
    PolicyKeyPath(tierID, policyID);
  }

  /** The policy key's path is the tier metadata path followed by `/` and the policy ID. */
  lemma PolicyKeyPath(tierID: string, policyID: string)
    ensures PolicyKey(tierID, policyID).AsEtcdKey() ==
      "/" + Render(Inner(TierMetadataKind), [tierID]) + ("/" + policyID)
  {
    LeadingSlashes();
    MetadataSuffix();
    RenderOneRun("calico/v1/policy/tier/", tierID, "/metadata");
  }

  lemma MetadataSuffix()
    ensures "/metadata" + "/" == "/metadata/"
  {
  }

  /** The path the policy pattern recognises: `/calico/v1/policy/tier/T/policy/P`. */
  function PolicyPath(tierID: string, policyID: string): string {
    "/calico/v1/policy/tier/" + tierID + "/policy/" + policyID
  }

  /** With the path the pattern expects, policy keys round-trip like the others. */
  lemma PolicyPathRoundTrip(tierID: string, policyID: string)
    requires PolicyKey(tierID, policyID).Valid()
    ensures ParseKey(PolicyPath(tierID, policyID)) == Some(PolicyKey(tierID, policyID))
  {
    var k := PolicyKey(tierID, policyID);
    LeadingSlashes();
    var p2 := Seg(true, true, End);
    var p1 := Lit("/policy/", p2);
    assert [policyID][1..] == [] && [tierID, policyID][1..] == [policyID];
    assert Render(p2, [policyID]) == policyID + "";
    assert Render(p1, [policyID]) == "/policy/" + policyID;
    assert Render(Seg(true, true, p1), [tierID, policyID]) == tierID + ("/policy/" + policyID);
    assert PolicyPath(tierID, policyID) == "/" + Render(Inner(PolicyKind), [tierID, policyID]) + [];
    ValidFieldsFit(k);
    ParseRendered(PolicyKind, [tierID, policyID], []);
  }
}
