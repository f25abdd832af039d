/**
 * Workload endpoints (lib/endpoint.go): the label-only view of the endpoints
 * under `/calico/v1/host/`, built from a snapshot tree of store nodes or from
 * a stream of watch events, the label write-back, and the write of a full
 * endpoint record.
 */
module Endpoints {
  import opened Wrappers
  import opened Patterns
  import opened Json
  import opened Etcd
  import Keys

  // ---------------------------------------------------------------------------
  // The workload-ID pattern

  // `re`: /calico/v1/host/[^/]*?/workload/[^/]*/([^/]*)/endpoint/[^/]*
  // searched anywhere in the key.  Unlike the key-schema patterns its runs
  // may be empty and only the workload segment is captured.  The lazy host
  // run ends at the same `/` as a greedy one, since it cannot cross a `/`.
  const WorkloadPattern: Pattern :=
    Lit("/calico/v1/host/", Seg(false, false, Lit("/workload/", Seg(false, false,
      Lit("/", Seg(true, false, Lit("/endpoint/", Seg(false, false, End))))))))

  /** The workload ID `re` captures in a key, if it matches anywhere. */
  function WorkloadOf(key: string): (r: Option<string>)
    ensures r.Some? ==> SlashFree(r.value)
    ensures r.Some? <==> Find(WorkloadPattern, key).Some?
  {
    match Find(WorkloadPattern, key)
    case None => None
    case Some(caps) =>
      CapturesWellFormed(WorkloadPattern, caps);
      Some(caps[0])
  }

  /** The workload ID is the sole capture of `re` at the leftmost position where it matches. */
  lemma WorkloadOfLeftmost(key: string)
    requires WorkloadOf(key).Some?
    ensures exists i | 0 <= i <= |key| ::
      Match(WorkloadPattern, key[i..]) == Some([WorkloadOf(key).value]) &&
      forall j | 0 <= j < i :: Match(WorkloadPattern, key[j..]).None?
  {
    WorkloadArity();
    FindSole(WorkloadPattern, key, Find(WorkloadPattern, key).value);
  }

  /** `re` has one capturing group. */
  lemma WorkloadArity()
    ensures CaptureCount(WorkloadPattern) == 1
  {
    var p3 := Lit("/endpoint/", Seg(false, false, End));
    var p1 := Lit("/", Seg(true, false, p3));
    var p0 := Lit("/workload/", Seg(false, false, p1));
    assert CaptureCount(p3) == 0;
    assert CaptureCount(p1) == 1;
    assert CaptureCount(p0) == 1;
  }

  // ---------------------------------------------------------------------------
  // Records

  /** A node of a store read: a leaf holds a value, a directory holds nodes. */
  datatype Node = Node(key: string, value: string, dir: bool, nodes: seq<Node>)

  /** `LabelOnlyEndpoint`: the labels of a stored endpoint, its key and its raw JSON. `None` is a nil map. */
  datatype LabelOnlyEndpoint = LabelOnlyEndpoint(labels: Option<map<string, string>>, key: string, json: string)

  /** The zero value of `LabelOnlyEndpoint`. */
  const NoEndpoint := LabelOnlyEndpoint(None, "", "")

  /**
   * Decoding a stored endpoint into a `LabelOnlyEndpoint` that already holds
   * the key and the raw text: only the `labels` field is read.
   */
  function DecodeEndpoint(c: Codec, key: string, value: string): (r: Option<LabelOnlyEndpoint>)
    ensures r.Some? ==> r.value.key == key && r.value.json == value
    ensures r.Some? <==> c.decodeObject(value).Some? && DecodeLabels(c.decodeObject(value).value, "labels").Some?
    ensures r.Some? ==> Some(r.value.labels) == DecodeLabels(c.decodeObject(value).value, "labels")
  {
    match c.decodeObject(value)
    case None => None
    case Some(doc) =>
      match DecodeLabels(doc, "labels")
      case None => None
      case Some(labels) => Some(LabelOnlyEndpoint(labels, key, value))
  }

  // ---------------------------------------------------------------------------
  // Snapshot: processNode

  /** What `processNode` does with one node before it turns to the node's children. */
  datatype Visit = Skip | Insert(workload: string, entry: LabelOnlyEndpoint) | Undecodable

  function VisitNode(c: Codec, n: Node): (v: Visit)
    ensures v.Insert? <==> !n.dir && WorkloadOf(n.key).Some? && DecodeEndpoint(c, n.key, n.value).Some?
    ensures v.Undecodable? <==> !n.dir && WorkloadOf(n.key).Some? && DecodeEndpoint(c, n.key, n.value).None?
    ensures v.Insert? ==> Some(v.workload) == WorkloadOf(n.key) && Some(v.entry) == DecodeEndpoint(c, n.key, n.value)
  {
    if n.dir then Skip
    else
      match WorkloadOf(n.key)
      case None => Skip
      case Some(w) =>
        match DecodeEndpoint(c, n.key, n.value)
        case None => Undecodable
        case Some(e) => Insert(w, e)
  }

  /** The endpoints collected so far, or the abort (`log.Fatal`) on an undecodable endpoint. */
  datatype Outcome = Done(endpoints: map<string, LabelOnlyEndpoint>) | Fatal

  /** `processNode` as a function: the node itself, then each child subtree in order. */
  function Flatten(c: Codec, n: Node, m: map<string, LabelOnlyEndpoint>): (r: Outcome)
    ensures r.Done? ==> m.Keys <= r.endpoints.Keys
    decreases n, |n.nodes| + 1
  {
    match VisitNode(c, n)
    case Undecodable => Fatal
    case Skip => FlattenFrom(c, n, 0, m)
    case Insert(w, e) => FlattenFrom(c, n, 0, m[w := e])
  }

  /** The children of `parent` from index `i` on. */
  function FlattenFrom(c: Codec, parent: Node, i: nat, m: map<string, LabelOnlyEndpoint>): (r: Outcome)
    requires i <= |parent.nodes|
    ensures r.Done? ==> m.Keys <= r.endpoints.Keys
    decreases parent, |parent.nodes| - i
  {
    if i == |parent.nodes| then Done(m)
    else
      match Flatten(c, parent.nodes[i], m)
      case Fatal => Fatal
      case Done(m') => FlattenFrom(c, parent, i + 1, m')
  }

  /** The map that `processNode` fills in place. */
  class EndpointMap {
    var entries: map<string, LabelOnlyEndpoint>

    constructor ()
      ensures entries == map[]
    {
      entries := map[];
    }
  }

  /**
   * `processNode`: walks the tree rooted at `n` and records, under its
   * workload ID, every leaf whose key `re` matches.  Returns false where the
   * code aborts on an undecodable value.
   */
  method ProcessNode(c: Codec, n: Node, endpoints: EndpointMap) returns (ok: bool)
    modifies endpoints
    ensures ok <==> Flatten(c, n, old(endpoints.entries)).Done?
    ensures ok ==> endpoints.entries == Flatten(c, n, old(endpoints.entries)).endpoints
    decreases n
  {
    if !n.dir {
      var w := WorkloadOf(n.key);
      if w.Some? {
        var e := DecodeEndpoint(c, n.key, n.value);
        if e.None? {
          assert VisitNode(c, n) == Undecodable;
          return false;
        }
        endpoints.entries := endpoints.entries[w.value := e.value];
        assert VisitNode(c, n) == Insert(w.value, e.value);
      } else {
        assert VisitNode(c, n) == Skip;
      }
    } else {
      assert VisitNode(c, n) == Skip;
    }
    ghost var start := endpoints.entries;
    assert Flatten(c, n, old(endpoints.entries)) == FlattenFrom(c, n, 0, start);
    var i := 0;
    while i < |n.nodes|
      invariant 0 <= i <= |n.nodes|
      invariant FlattenFrom(c, n, i, endpoints.entries) == FlattenFrom(c, n, 0, start)
    {
      ok := ProcessNode(c, n.nodes[i], endpoints);
      if !ok {
        return false;
      }
      i := i + 1;
    }
    return true;
  }

  // ---------------------------------------------------------------------------
  // The reference reading: a fold over the nodes in pre-order

  /** All nodes of the tree, each before its children, children in order. */
  function Preorder(n: Node): (r: seq<Node>)
    ensures |r| > 0 && r[0] == n
    decreases n, |n.nodes| + 1
  {
    [n] + PreorderFrom(n, 0)
  }

  function PreorderFrom(parent: Node, i: nat): seq<Node>
    requires i <= |parent.nodes|
    decreases parent, |parent.nodes| - i
  {
    if i == |parent.nodes| then [] else Preorder(parent.nodes[i]) + PreorderFrom(parent, i + 1)
  }

  /** The map after visiting one node that does not abort. */
  function Advance(c: Codec, x: Node, m: map<string, LabelOnlyEndpoint>): map<string, LabelOnlyEndpoint> {
    match VisitNode(c, x)
    case Insert(v, e) => m[v := e]
    case _ => m
  }

  /** Visit the nodes one after the other; the first undecodable one aborts. */
  function Apply(c: Codec, nodes: seq<Node>, m: map<string, LabelOnlyEndpoint>): Outcome {
    if nodes == [] then Done(m)
    else if VisitNode(c, nodes[0]).Undecodable? then Fatal
    else Apply(c, nodes[1..], Advance(c, nodes[0], m))
  }

  /** Node `x` records an entry under workload `w`. */
  predicate Records(c: Codec, x: Node, w: string) {
    VisitNode(c, x).Insert? && VisitNode(c, x).workload == w
  }

  lemma {:induction false} ApplyAppend(c: Codec, a: seq<Node>, b: seq<Node>, m: map<string, LabelOnlyEndpoint>)
    ensures Apply(c, a + b, m) == match Apply(c, a, m) case Fatal => Fatal case Done(m') => Apply(c, b, m')
  {
    if a != [] {
      assert (a + b)[1..] == a[1..] + b;
      match VisitNode(c, a[0])
      case Undecodable =>
      case Skip => ApplyAppend(c, a[1..], b, m);
      case Insert(w, e) => ApplyAppend(c, a[1..], b, m[w := e]);
    } else {
      assert a + b == b;
    }
  }

  /** `processNode` visits the nodes of the tree in pre-order: it is the fold of `Apply` over `Preorder`. */
  lemma {:induction false} FlattenIsPreorderFold(c: Codec, n: Node, m: map<string, LabelOnlyEndpoint>)
    ensures Flatten(c, n, m) == Apply(c, Preorder(n), m)
    decreases n, |n.nodes| + 1
  {
    assert Preorder(n)[1..] == PreorderFrom(n, 0);
    match VisitNode(c, n)
    case Undecodable =>
    case Skip => FlattenFromIsPreorderFold(c, n, 0, m);
    case Insert(w, e) => FlattenFromIsPreorderFold(c, n, 0, m[w := e]);
  }

  lemma {:induction false} FlattenFromIsPreorderFold(c: Codec, parent: Node, i: nat, m: map<string, LabelOnlyEndpoint>)
    requires i <= |parent.nodes|
    ensures FlattenFrom(c, parent, i, m) == Apply(c, PreorderFrom(parent, i), m)
    decreases parent, |parent.nodes| - i
  {
    if i < |parent.nodes| {
      FlattenIsPreorderFold(c, parent.nodes[i], m);
      ApplyAppend(c, Preorder(parent.nodes[i]), PreorderFrom(parent, i + 1), m);
      match Flatten(c, parent.nodes[i], m)
      case Fatal =>
      case Done(m') => FlattenFromIsPreorderFold(c, parent, i + 1, m');
    }
  }

  /** The walk recurses into every child: each child's subtree is part of the pre-order of the parent. */
  lemma {:induction false} ChildrenVisited(n: Node, i: nat, x: Node)
    requires i < |n.nodes| && x in Preorder(n.nodes[i])
    ensures x in Preorder(n)
  {
    PreorderFromContains(n, 0, i, x);
  }

  lemma {:induction false} PreorderFromContains(parent: Node, j: nat, i: nat, x: Node)
    requires j <= i < |parent.nodes| && x in Preorder(parent.nodes[i])
    ensures x in PreorderFrom(parent, j)
    decreases i - j
  {
    if j < i {
      PreorderFromContains(parent, j + 1, i, x);
    }
  }

  /** The walk aborts exactly when some node it visits matches `re` but its value does not decode. */
  lemma {:induction false} ApplyFatalIff(c: Codec, nodes: seq<Node>, m: map<string, LabelOnlyEndpoint>)
    ensures Apply(c, nodes, m).Fatal? <==> exists i | 0 <= i < |nodes| :: VisitNode(c, nodes[i]).Undecodable?
  {
    if nodes != [] {
      match VisitNode(c, nodes[0])
      case Undecodable =>
      case Skip => ApplyFatalIff(c, nodes[1..], m); ShiftExists(c, nodes);
      case Insert(w, e) => ApplyFatalIff(c, nodes[1..], m[w := e]); ShiftExists(c, nodes);
    }
  }

  lemma ShiftExists(c: Codec, nodes: seq<Node>)
    requires nodes != [] && !VisitNode(c, nodes[0]).Undecodable?
    ensures (exists i | 0 <= i < |nodes| :: VisitNode(c, nodes[i]).Undecodable?) <==>
            (exists i | 0 <= i < |nodes[1..]| :: VisitNode(c, nodes[1..][i]).Undecodable?)
  {
    if exists i | 0 <= i < |nodes| :: VisitNode(c, nodes[i]).Undecodable? {
      var i :| 0 <= i < |nodes| && VisitNode(c, nodes[i]).Undecodable?;
      assert nodes[1..][i - 1] == nodes[i];
    }
  }

  lemma ApplyUnfold(c: Codec, nodes: seq<Node>, m: map<string, LabelOnlyEndpoint>)
    requires nodes != [] && Apply(c, nodes, m).Done?
    ensures Apply(c, nodes, m) == Apply(c, nodes[1..], Advance(c, nodes[0], m))
    ensures forall j | 1 <= j < |nodes| :: nodes[1..][j - 1] == nodes[j]
  {
  }

  /** A workload is in the finished map exactly when it was there before or some visited node records it. */
  lemma {:induction false} ApplyKeys(c: Codec, nodes: seq<Node>, m: map<string, LabelOnlyEndpoint>, w: string)
    requires Apply(c, nodes, m).Done?
    ensures w in Apply(c, nodes, m).endpoints <==> w in m || exists i | 0 <= i < |nodes| :: Records(c, nodes[i], w)
  {
    if nodes != [] {
      ApplyUnfold(c, nodes, m);
      ApplyKeys(c, nodes[1..], Advance(c, nodes[0], m), w);
      if exists i | 0 <= i < |nodes| :: Records(c, nodes[i], w) {
        var i :| 0 <= i < |nodes| && Records(c, nodes[i], w);
        if i > 0 {
          assert Records(c, nodes[1..][i - 1], w);
        }
      }
      if exists i | 0 <= i < |nodes[1..]| :: Records(c, nodes[1..][i], w) {
        var i :| 0 <= i < |nodes[1..]| && Records(c, nodes[1..][i], w);
        assert Records(c, nodes[i + 1], w);
      }
    }
  }

  /** An entry no visited node records keeps its value. */
  lemma {:induction false} ApplyUntouched(c: Codec, nodes: seq<Node>, m: map<string, LabelOnlyEndpoint>, w: string)
    requires Apply(c, nodes, m).Done? && w in m
    requires forall i | 0 <= i < |nodes| :: !Records(c, nodes[i], w)
    ensures w in Apply(c, nodes, m).endpoints && Apply(c, nodes, m).endpoints[w] == m[w]
  {
    if nodes != [] {
      ApplyUnfold(c, nodes, m);
      assert !Records(c, nodes[0], w);
      ApplyUntouched(c, nodes[1..], Advance(c, nodes[0], m), w);
    }
  }

  /** Later nodes overwrite earlier ones: the entry of a workload is that of the last node recording it. */
  lemma {:induction false} ApplyLastWins(c: Codec, nodes: seq<Node>, m: map<string, LabelOnlyEndpoint>, w: string, i: nat)
    requires Apply(c, nodes, m).Done?
    requires i < |nodes| && Records(c, nodes[i], w)
    requires forall j | i < j < |nodes| :: !Records(c, nodes[j], w)
    ensures w in Apply(c, nodes, m).endpoints && Apply(c, nodes, m).endpoints[w] == VisitNode(c, nodes[i]).entry
  {
    ApplyUnfold(c, nodes, m);
    if i == 0 {
      ApplyUntouched(c, nodes[1..], Advance(c, nodes[0], m), w);
    } else {
      ApplyLastWins(c, nodes[1..], Advance(c, nodes[0], m), w, i - 1);
    }
  }

  /**
   * A childless leaf adds at most one entry: under the workload `re` finds in
   * its key, holding the node's key and value verbatim.
   */
  lemma LeafAddsAtMostOne(c: Codec, n: Node)
    requires n.nodes == []
    ensures Flatten(c, n, map[]).Done? ==> |Flatten(c, n, map[]).endpoints| <= 1
    ensures Flatten(c, n, map[]).Done? ==>
      forall w | w in Flatten(c, n, map[]).endpoints ::
        && WorkloadOf(n.key) == Some(w)
        && Flatten(c, n, map[]).endpoints[w].key == n.key
        && Flatten(c, n, map[]).endpoints[w].json == n.value
  {
    match VisitNode(c, n)
    case Undecodable =>
    case Skip =>
    case Insert(w, e) =>
      assert Flatten(c, n, map[]) == Done(map[w := e]);
      assert map[w := e].Keys == {w};
  }

  // ---------------------------------------------------------------------------
  // Watch: WatchEndpoints

  /** A watch response: the action, the node before the change (nil when there was none), the node, and its index. */
  datatype Event = Event(action: string, prevNode: Option<Node>, node: Node, index: uint64)

  /** `EndpointUpdate`: the embedded endpoint, whether it was removed, its workload ID and the event's index. */
  datatype EndpointUpdate = EndpointUpdate(endpoint: LabelOnlyEndpoint, remove: bool, workloadID: string, index: uint64)

  /** The zero value each iteration of the loop starts its update from. */
  const NoUpdate := EndpointUpdate(NoEndpoint, false, "", 0)

  /** Why the loop ends: `log.Fatal` on an undecodable endpoint, `log.Panic` on more than one match. */
  datatype Abort = UndecodableEndpoint | ManyMatches

  /** What one event turns into. */
  datatype Action = Emit(update: EndpointUpdate) | Ignore | Stop(reason: Abort)

  /** A `set` with no previous node: a newly created key. */
  predicate IsCreate(ev: Event) {
    ev.action == "set" && ev.prevNode.None?
  }

  /** The events the loop sends an update for (when it does not abort). */
  predicate Accepted(ev: Event) {
    IsCreate(ev) || ev.action == "delete"
  }

  /** The one key of a map with one entry. */
  ghost function SoleKey(m: map<string, LabelOnlyEndpoint>): (w: string)
    requires |m| == 1
    ensures m.Keys == {w}
  {
    var w :| w in m;
    assert |m.Keys - {w}| == 0;
    w
  }

  /** The body of the watch loop for one event. */
  ghost function Classify(c: Codec, ev: Event): (a: Action)
    ensures a.Emit? ==> Accepted(ev) && (a.update.remove <==> !IsCreate(ev))
    ensures a.Emit? && IsCreate(ev) ==> a.update.index == ev.index
    ensures a.Stop? ==> IsCreate(ev)
    ensures a.Ignore? <==> !Accepted(ev)
    ensures IsCreate(ev) && Flatten(c, ev.node, map[]).Fatal? ==> a == Stop(UndecodableEndpoint)
    ensures IsCreate(ev) && Flatten(c, ev.node, map[]).Done? && |Flatten(c, ev.node, map[]).endpoints| > 1 ==>
      a == Stop(ManyMatches)
  {
    if IsCreate(ev) then
      match Flatten(c, ev.node, map[])
      case Fatal => Stop(UndecodableEndpoint)
      case Done(m) =>
        if |m| == 1 then
          var w := SoleKey(m);
          Emit(NoUpdate.(index := ev.index, endpoint := m[w], workloadID := w))
        else if |m| > 1 then Stop(ManyMatches)
        else Emit(NoUpdate.(index := ev.index))
    else if ev.action == "delete" then Emit(NoUpdate.(remove := true))
    else Ignore
  }

  /** The updates sent so far, and the abort that ended the loop, if any. */
  datatype Stream = Stream(sent: seq<EndpointUpdate>, stop: Option<Abort>)

  /** The loop over a finite prefix of the watch: events in order, nothing after an abort. */
  ghost function Watch(c: Codec, events: seq<Event>): (r: Stream)
    ensures |r.sent| <= |events|
  {
    if events == [] then Stream([], None)
    else
      var s := Watch(c, events[..|events| - 1]);
      if s.stop.Some? then s
      else
        match Classify(c, events[|events| - 1])
        case Emit(u) => Stream(s.sent + [u], None)
        case Ignore => s
        case Stop(r) => Stream(s.sent, Some(r))
  }

  lemma SingleKey(m: map<string, LabelOnlyEndpoint>, w: string)
    requires |m| == 1 && w in m
    ensures w == SoleKey(m)
  {
  }

  /**
   * `WatchEndpoints` over a finite list of watch responses: builds each
   * update field by field and sends it; ignores other actions; stops at the
   * first abort.
   */
  method WatchEndpoints(c: Codec, events: seq<Event>) returns (sent: seq<EndpointUpdate>, stop: Option<Abort>)
    ensures Stream(sent, stop) == Watch(c, events)
  {
    sent, stop := [], None;
    var i := 0;
    while i < |events|
      invariant 0 <= i <= |events|
      invariant stop.None? && Watch(c, events[..i]) == Stream(sent, None)
    {
      var ev := events[i];
      WatchStep(c, events, i);
      var update := NoUpdate;
      if ev.action == "set" && ev.prevNode.None? {
        update := update.(index := ev.index);
        var endpoints := new EndpointMap();
        var ok := ProcessNode(c, ev.node, endpoints);
        if !ok {
          stop := Some(UndecodableEndpoint);
          WatchStopped(c, events, i + 1);
          return;
        }
        if |endpoints.entries| == 1 {
          var w :| w in endpoints.entries;
          SingleKey(endpoints.entries, w);
          update := update.(endpoint := endpoints.entries[w], workloadID := w);
        } else if |endpoints.entries| > 1 {
          stop := Some(ManyMatches);
          WatchStopped(c, events, i + 1);
          return;
        }
      } else if ev.action == "delete" {
        update := update.(remove := true);
      } else {
        i := i + 1;
        continue;
      }
      sent := sent + [update];
      i := i + 1;
    }
    assert events[..i] == events;
  }

  /** One more event: the fold's step on the event at `i`. */
  lemma WatchStep(c: Codec, events: seq<Event>, i: nat)
    requires i < |events| && Watch(c, events[..i]).stop.None?
    ensures Watch(c, events[..i + 1]) ==
      match Classify(c, events[i])
      case Emit(u) => Stream(Watch(c, events[..i]).sent + [u], None)
      case Ignore => Watch(c, events[..i])
      case Stop(r) => Stream(Watch(c, events[..i]).sent, Some(r))
  {
    assert events[..i + 1][..i] == events[..i];
  }

  /** Once the loop has aborted, later events change nothing. */
  lemma {:induction false} WatchStopped(c: Codec, events: seq<Event>, i: nat)
    requires i <= |events| && Watch(c, events[..i]).stop.Some?
    ensures Watch(c, events) == Watch(c, events[..i])
    decreases |events| - i
  {
    if i < |events| {
      assert events[..i + 1][..i] == events[..i];
      WatchStopped(c, events, i + 1);
    } else {
      assert events[..i] == events;
    }
  }

  /** The accepted events, in order. */
  function AcceptedEvents(events: seq<Event>): (r: seq<Event>)
    ensures |r| <= |events|
    ensures forall e | e in r :: e in events && Accepted(e)
  {
    if events == [] then []
    else
      var rest := AcceptedEvents(events[..|events| - 1]);
      if Accepted(events[|events| - 1]) then rest + [events[|events| - 1]] else rest
  }

  /**
   * One update per accepted event, in event order: unless the loop aborts,
   * the j-th update sent is what the j-th accepted event classifies to.
   */
  lemma {:induction false} OneUpdatePerAcceptedEvent(c: Codec, events: seq<Event>)
    requires Watch(c, events).stop.None?
    ensures |Watch(c, events).sent| == |AcceptedEvents(events)|
    ensures forall j | 0 <= j < |AcceptedEvents(events)| ::
      Classify(c, AcceptedEvents(events)[j]) == Emit(Watch(c, events).sent[j])
  {
    if events != [] {
      var init := events[..|events| - 1];
      var last := events[|events| - 1];
      assert Watch(c, init).stop.None?;
      OneUpdatePerAcceptedEvent(c, init);
      if Accepted(last) {
        assert Classify(c, last).Emit?;
      } else {
        assert Classify(c, last) == Ignore;
      }
    }
  }

  /** Updates come out in event order: running the loop longer only appends updates. */
  lemma {:induction false} WatchPrefix(c: Codec, events: seq<Event>, i: nat)
    requires i <= |events|
    ensures Watch(c, events[..i]).sent <= Watch(c, events).sent
    decreases |events| - i
  {
    if i < |events| {
      assert events[..i + 1][..i] == events[..i];
      WatchPrefix(c, events, i + 1);
    } else {
      assert events[..i] == events;
    }
  }

  /**
   * A create event yields one update carrying the event's index and
   * `Remove=false`: with one match, that entry and its workload ID; with no
   * match, the zero endpoint and an empty workload ID.
   */
  lemma CreateEvent(c: Codec, ev: Event)
    requires IsCreate(ev) && Flatten(c, ev.node, map[]).Done? && |Flatten(c, ev.node, map[]).endpoints| <= 1
    ensures Classify(c, ev).Emit?
    ensures Classify(c, ev).update.index == ev.index && !Classify(c, ev).update.remove
    ensures var m := Flatten(c, ev.node, map[]).endpoints;
      if |m| == 1 then
        && Classify(c, ev).update.workloadID in m
        && Classify(c, ev).update.endpoint == m[Classify(c, ev).update.workloadID]
      else Classify(c, ev).update.workloadID == "" && Classify(c, ev).update.endpoint == NoEndpoint
  {
  }

  /** A delete yields `Remove=true` and every other field at its zero value; any other non-create event yields nothing. */
  lemma DeleteAndOtherEvents(c: Codec, ev: Event)
    requires !IsCreate(ev)
    ensures ev.action == "delete" <==> Classify(c, ev).Emit?
    ensures ev.action == "delete" ==> Classify(c, ev).update == EndpointUpdate(NoEndpoint, true, "", 0)
    ensures ev.action != "delete" ==> Classify(c, ev) == Ignore
  {
  }

  /** The "should never happen" panic is unreachable for a create event on a childless leaf. */
  lemma LeafCreateNeverPanics(c: Codec, ev: Event)
    requires IsCreate(ev) && ev.node.nodes == []
    ensures Classify(c, ev) != Stop(ManyMatches)
  {
    LeafAddsAtMostOne(c, ev.node);
  }

  /**
   * Creating a workload endpoint's key with a decodable value yields the
   * update for that workload, holding the node's key and value verbatim.
   */
  lemma CreateEndpointKey(c: Codec, ev: Event, h: string, o: string, w: string, e: string)
    requires IsCreate(ev) && ev.node.nodes == [] && !ev.node.dir
    requires SlashFree(h) && SlashFree(o) && SlashFree(w) && SlashFree(e)
    requires ev.node.key == Keys.EndpointKey(h, o, w, e).AsEtcdKey()
    requires DecodeEndpoint(c, ev.node.key, ev.node.value).Some?
    ensures Classify(c, ev).Emit?
    ensures Classify(c, ev).update ==
      EndpointUpdate(DecodeEndpoint(c, ev.node.key, ev.node.value).value, false, w, ev.index)
  {
    WorkloadOfEndpointKey(h, o, w, e, []);
    assert Keys.EndpointKey(h, o, w, e).AsEtcdKey() + [] == Keys.EndpointKey(h, o, w, e).AsEtcdKey();
    assert VisitNode(c, ev.node) == Insert(w, DecodeEndpoint(c, ev.node.key, ev.node.value).value);
    var entry := DecodeEndpoint(c, ev.node.key, ev.node.value).value;
    assert Flatten(c, ev.node, map[]) == FlattenFrom(c, ev.node, 0, map[][w := entry]);
    assert map[][w := entry] == map[w := entry];
    var m := Flatten(c, ev.node, map[]);
    assert m == Done(map[w := DecodeEndpoint(c, ev.node.key, ev.node.value).value]);
    assert m.endpoints.Keys == {w};
  }

  /** Workload endpoint keys round-trip through `ParseKey` when every field is a non-empty segment. */
  lemma EndpointKeyRoundTrip(h: string, o: string, w: string, e: string)
    requires Keys.EndpointKey(h, o, w, e).Valid()
    ensures Keys.ParseKey(Keys.EndpointKey(h, o, w, e).AsEtcdKey()) == Some(Keys.EndpointKey(h, o, w, e))
  {
    Keys.RoundTrip(Keys.EndpointKey(h, o, w, e));
  }

  /**
   * `re` finds the workload segment of every workload endpoint key, alone or
   * followed by `/` and more.
   */
  lemma WorkloadOfEndpointKey(h: string, o: string, w: string, e: string, tail: string)
    requires SlashFree(h) && SlashFree(o) && SlashFree(w) && SlashFree(e)
    requires tail == [] || tail[0] == '/'
    ensures WorkloadOf(Keys.EndpointKey(h, o, w, e).AsEtcdKey() + tail) == Some(w)
  {
    var fields := [h, o, w, e];
    WorkloadPathRendered(h, o, w, e);
    WorkloadFieldsCaptured(h, o, w, e);
    MatchRender(WorkloadPattern, fields, tail);
  }

  /** The workload endpoint path is `re` rendered from its four fields. */
  lemma WorkloadPathRendered(h: string, o: string, w: string, e: string)
    ensures Render(WorkloadPattern, [h, o, w, e]) == Keys.EndpointKey(h, o, w, e).AsEtcdKey()
  {
    var fields := [h, o, w, e];
    var inner := Keys.Inner(Keys.EndpointKind);
    Keys.FormatIsRender(Keys.EndpointKey(h, o, w, e));
    WorkloadShape();
    RenderShape(WorkloadPattern.next, inner.next, fields);
    var r := Render(inner.next, fields);
    assert Render(WorkloadPattern, fields) == ("/" + inner.text) + r;
    assert "/" + Render(inner, fields) == "/" + (inner.text + r);
  }

  /** `re` has the shape of the endpoint key pattern behind a leading `/`; only its groups differ. */
  lemma WorkloadShape()
    ensures WorkloadPattern.Lit? && Keys.Inner(Keys.EndpointKind).Lit?
    ensures WorkloadPattern.text == "/" + Keys.Inner(Keys.EndpointKind).text
    ensures SameShape(WorkloadPattern.next, Keys.Inner(Keys.EndpointKind).next)
  {
    Keys.LeadingSlashes();
  }

  /** Slash-free fields fit `re`, and its one group captures the workload ID. */
  lemma WorkloadFieldsCaptured(h: string, o: string, w: string, e: string)
    requires SlashFree(h) && SlashFree(o) && SlashFree(w) && SlashFree(e)
    ensures FieldsFit(WorkloadPattern, [h, o, w, e])
    ensures Captured(WorkloadPattern, [h, o, w, e]) == [w]
  {
    var fields := [h, o, w, e];
    var p4 := Seg(false, false, End);
    var p3 := Lit("/endpoint/", p4);
    var p2 := Seg(true, false, p3);
    var p1 := Lit("/", p2);
    var p0 := Seg(false, false, p1);
    assert [e][1..] == [] && [w, e][1..] == [e] && [o, w, e][1..] == [w, e] && fields[1..] == [o, w, e];
    assert FieldsFit(p4, [e]) && FieldsFit(p3, [e]);
    assert FieldsFit(p2, [w, e]) && FieldsFit(p1, [w, e]);
    assert FieldsFit(p0, [o, w, e]) && FieldsFit(Lit("/workload/", p0), [o, w, e]);
    assert Captured(p4, [e]) == [] + Captured(End, []) == [];
    assert Captured(p3, [e]) == [];
    assert Captured(p2, [w, e]) == [w] + [];
    assert Captured(p0, [o, w, e]) == [] + [w];
    assert Captured(Seg(false, false, Lit("/workload/", p0)), fields) == [] + [w];
  }

  // ---------------------------------------------------------------------------
  // Label write-back: SetLabelOnlyEndpoint

  /** The stored document with its `labels` field set to the endpoint's labels and nothing else changed. */
  function WithLabels(doc: Document, labels: Option<map<string, string>>): (r: Document)
    ensures r.Keys == doc.Keys + {"labels"}
    ensures r["labels"] == LabelsValue(labels)
    ensures forall f | f in doc && f != "labels" :: r[f] == doc[f]
  {
    doc["labels" := LabelsValue(labels)]
  }

  /** The text `SetLabelOnlyEndpoint` stores, or `None` when the endpoint's JSON does not decode. */
  function MergedJson(c: Codec, endpoint: LabelOnlyEndpoint): (r: Option<string>)
    ensures r.None? <==> c.decodeObject(endpoint.json).None?
  {
    match c.decodeObject(endpoint.json)
    case None => None
    case Some(doc) => Some(c.encodeObject(WithLabels(doc, endpoint.labels)))
  }

  /**
   * `SetLabelOnlyEndpoint`: decodes the endpoint's JSON, overwrites its
   * `labels` with the endpoint's labels, re-encodes it and stores it under the
   * endpoint's key.  Undecodable JSON is returned as an error before any
   * write.  `setResult` is the store's answer to the write.
   */
  method SetLabelOnlyEndpoint(c: Codec, endpoint: LabelOnlyEndpoint, setResult: Option<Error>)
    returns (request: Option<SetRequest>, err: Option<Error>)
    ensures c.decodeObject(endpoint.json).None? ==> request == None && err == Some(DecodeError)
    ensures c.decodeObject(endpoint.json).Some? ==>
      && request == Some(SetRequest(endpoint.key, MergedJson(c, endpoint).value))
      && err == setResult
  {
    var copy := endpoint;
    var dat := c.decodeObject(copy.json);
    if dat.None? {
      return None, Some(DecodeError);
    }
    var doc := dat.value;
    doc := doc["labels" := LabelsValue(copy.labels)];
    copy := copy.(json := c.encodeObject(doc));
    request := Some(SetRequest(copy.key, copy.json));
    err := setResult;
  }

  /**
   * With a faithful codec, the stored text decodes to the original document
   * with only `labels` replaced, and reading it back as a label-only endpoint
   * gives exactly the labels that were written.
   */
  lemma MergeReadsBack(c: Codec, endpoint: LabelOnlyEndpoint)
    requires Faithful(c) && MergedJson(c, endpoint).Some?
    ensures c.decodeObject(MergedJson(c, endpoint).value) ==
      Some(WithLabels(c.decodeObject(endpoint.json).value, endpoint.labels))
    ensures DecodeEndpoint(c, endpoint.key, MergedJson(c, endpoint).value) ==
      Some(endpoint.(json := MergedJson(c, endpoint).value))
  {
    var doc := WithLabels(c.decodeObject(endpoint.json).value, endpoint.labels);
    assert c.decodeObject(c.encodeObject(doc)) == Some(doc);
  }

  /** Merging the same labels twice stores the same text as merging once. */
  lemma MergeIdempotent(c: Codec, endpoint: LabelOnlyEndpoint)
    requires Faithful(c) && MergedJson(c, endpoint).Some?
    ensures MergedJson(c, endpoint.(json := MergedJson(c, endpoint).value)) == MergedJson(c, endpoint)
  {
    var doc := c.decodeObject(endpoint.json).value;
    MergeReadsBack(c, endpoint);
    assert WithLabels(WithLabels(doc, endpoint.labels), endpoint.labels) == WithLabels(doc, endpoint.labels);
  }

  // ---------------------------------------------------------------------------
  // Endpoint.Write

  /**
   * `%x` of a version-1 UUID.  The UUID type formats itself through its
   * `String` method, so `%x` hex-encodes the 36-character canonical text:
   * 72 lower-case hexadecimal digits.
   */
  predicate IsGeneratedID(s: string) {
    |s| == 72 && forall i | 0 <= i < |s| :: s[i] in "0123456789abcdef"
  }

  /** A generated ID is a single, non-empty path segment. */
  lemma GeneratedIDIsSegment(s: string)
    requires IsGeneratedID(s)
    ensures s != [] && SlashFree(s)
  {
  }

  /** `Endpoint`: a workload endpoint record; the key fields are not part of its JSON. */
  class Endpoint {
    var hostname: string
    var orchestratorID: string
    var workloadID: string
    var endpointID: string
    var state: string
    var name: string
    var mac: string
    var profileIDs: seq<string>
    var ipv4Nets: seq<string>
    var ipv6Nets: seq<string>
    var labels: map<string, string>

    /** The embedded `EndpointKey`. */
    function Key(): Keys.StoreKey
      reads this
    {
      Keys.EndpointKey(hostname, orchestratorID, workloadID, endpointID)
    }

    /** The JSON object the record marshals to; empty labels are omitted. */
    function Document(): (d: Document)
      reads this
      ensures "labels" in d <==> |labels| > 0
      ensures d.Keys - {"labels"} == {"state", "name", "mac", "profile_ids", "ipv4_nets", "ipv6_nets"}
      ensures "state" in d && d["state"] == Str(state)
      ensures "name" in d && d["name"] == Str(name)
      ensures "mac" in d && d["mac"] == Str(mac)
      ensures "profile_ids" in d && d["profile_ids"] == StrList(profileIDs)
      ensures "ipv4_nets" in d && d["ipv4_nets"] == StrList(ipv4Nets)
      ensures "ipv6_nets" in d && d["ipv6_nets"] == StrList(ipv6Nets)
      ensures "labels" in d ==> d["labels"] == StringMap(labels)
    {
      var body := map[
        "state" := Str(state), "name" := Str(name), "mac" := Str(mac),
        "profile_ids" := StrList(profileIDs), "ipv4_nets" := StrList(ipv4Nets), "ipv6_nets" := StrList(ipv6Nets)];
      if |labels| > 0 then body["labels" := StringMap(labels)] else body
    }

    /**
     * `Write`: fills in a generated ID when the endpoint ID is empty, then
     * stores the record's JSON under its endpoint key.  `generatedID` is the
     * formatted UUID and `setResult` the store's answer to the write.
     */
    method Write(c: Codec, generatedID: string, setResult: Option<Error>) returns (request: SetRequest, err: Option<Error>)
      requires IsGeneratedID(generatedID)
      modifies this`endpointID
      ensures endpointID == if old(endpointID) == "" then generatedID else old(endpointID)
      ensures endpointID != ""
      ensures old(endpointID) == "" ==> SlashFree(endpointID)
      ensures request == SetRequest(Key().AsEtcdKey(), c.encodeObject(Document()))
      ensures Key().Valid() ==> Keys.ParseKey(request.key) == Some(Key())
      ensures err == setResult
    {
      if endpointID == "" {
        endpointID := generatedID;
        GeneratedIDIsSegment(generatedID);
      }
      var key := "/calico/v1/host/" + hostname + "/workload/" + orchestratorID + "/" + workloadID + "/endpoint/" + endpointID;
      var json := c.encodeObject(Document());
      request := SetRequest(key, json);
      err := setResult;
      if Key().Valid() {
        Keys.RoundTrip(Key());
      }
    }
  }
}
