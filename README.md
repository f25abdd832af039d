# libcalico key schema and endpoint synchronisation, in Dafny

A model of the core of `libcalico`, the Go library that reads and writes
Calico's data in etcd. Two parts are modelled.

The first is the **key schema**. Every typed key (`EndpointKey`,
`HostEndpointKey`, `PolicyKey`, the three profile keys, `TierMetadataKey`,
`HostIPKey`) formats itself as an etcd path (`asEtcdKey`). `ParseKey` maps a
path back to a key. It tries seven regular expressions in a fixed order,
each anchored at the start behind an optional `/` and open at the end. The
first one that matches wins, and a path that matches none gives nil.

The second is the **endpoint synchronisation** in `lib/endpoint.go`:

- `processNode` walks a snapshot tree and collects the label-only view of
  every workload endpoint, keyed by workload ID.
- The body of `WatchEndpoints` turns each watch event into zero or one
  `EndpointUpdate`.
- `SetLabelOnlyEndpoint` writes new labels back into an endpoint's stored JSON.
- `Endpoint.Write` stores a full endpoint record.

The module also covers `Profile.Write` and `ProfileExists`, and the decoding
wrappers `ParseTierMetadata` and `ParsePolicy`.

Files:

- `patterns.dfy` (module `Patterns`) holds a small pattern language for the
  regular-expression fragment the schema uses. It has one matcher (`Match`,
  and the unanchored `Find`), a renderer (`Render`), and the general facts
  about them: the match/render round trip, the open end, and disjointness.
  Every run of non-`/` characters is followed by a literal starting with `/`
  or by the open end. A run followed by such a literal ends at the next `/`
  under any reading. Every run before the open end is greedy in the Go
  expressions (the one lazy run, the host run of the workload-ID expression,
  is followed by `/workload/`). So the matcher takes the maximal run. It does
  not model a lazy run before the open end, which no expression here has.
- `keys.dfy` (module `Keys`) holds the `StoreKey` datatype with
  `AsEtcdKey`, the seven pattern constants written as in `lib/store.go`,
  `ParseKey` as the same if/else chain, and the schema lemmas.
- `endpoints.dfy` (module `Endpoints`) holds `processNode` (a recursive
  method over an `EndpointMap` object with a loop over the children),
  `WatchEndpoints` (a loop over a finite list of events that builds each
  update field by field), the label merge, and the `Endpoint` class with
  `Write`.
- `profiles.dfy` (module `Profiles`) and `policies.dfy` (module `Policies`)
  hold the profile and policy parts.
- `json.dfy` (module `Json`), `etcd.dfy` (module `Etcd`) and `wrappers.dfy`
  (module `Wrappers`) hold the abstractions those parts share.

Three things are turned into parameters:

- The JSON codec is a `Codec` value: a partial decoder to documents (maps
  from field name to value) and a total encoder. `Faithful(c)` states that
  encoding then decoding gives the same document back.
- The answers of etcd calls are parameters: the result of a `Set`, or the
  outcome of a `Get` as a function of the key.
- The generated UUID is a parameter.

`log.Fatal` and `log.Panic` become explicit outcomes: `Fatal`, and
`Stop(UndecodableEndpoint)` / `Stop(ManyMatches)`.

The model keeps these behaviours of the code as written:

- A create event whose node matches no workload still sends an update. That
  update has an empty `WorkloadID` (lib/endpoint.go:141). It is not dropped.
- A delete event sends an update with `Remove` set and every other field at
  its zero value, including `WorkloadID` and `Index` (lib/endpoint.go:134-135).
  The workload is not reconstructed from the path, and the event's index is
  not carried.
- A matched leaf whose value does not decode aborts the walk and the watch
  (lib/endpoint.go:220-223). It is not skipped.

## Model

| member | source | states |
|---|---|---|
| Patterns.RunLength | lib/store.go:22-28 | a `[^/]` run ends at the first `/` or at the end of the text, and holds no `/` |
| Patterns.Match | lib/store.go:22-28 | every capture list a pattern yields has one slash-free entry per capturing group, non-empty where the group is `+` |
| Patterns.Find | lib/endpoint.go:217 | the unanchored search gives the anchored match whenever the pattern matches at the start, with the same capture shape |
| Patterns.FindLeftmost | lib/endpoint.go:217 | the unanchored search succeeds exactly when the pattern matches at some position of the text, and then gives the match at the leftmost such position |
| Patterns.CapturesWellFormed | lib/store.go:22-28 | captured texts never contain `/`, and are non-empty under `([^/]+)` |
| Patterns.MatchRender | lib/store.go:22-28 | a pattern matches its own rendering, optionally followed by `/` and more, and captures exactly the capturing fields |
| Patterns.MatchExtend | lib/store.go:22-28 | a match is unchanged by text appended after it when that text starts with `/` (the patterns are open at the end) |
| Patterns.DivergeExclusive | lib/store.go:22-28 | two patterns that require different literals at the same place never both match one text |
| Patterns.DivergeSymmetric | lib/store.go:22-28 | divergence does not depend on the order of the two patterns |
| Patterns.OptSlashStrips | lib/store.go:22-28 | `^/?` in front of a pattern starting with a non-`/` literal matches as that pattern on the text with one leading `/` removed |
| Patterns.AllCaptureFields | lib/store.go:22-28 | when every group captures, the fields a pattern accepts are one non-empty slash-free text per group, and they are what is captured |
| Keys.ParseKey | lib/store.go:47-73 | a recognised path gives one of the seven key types with a pattern, never a host endpoint key |
| Keys.StoreKey.AsEtcdKey | lib/store.go:36-39 | every key's path lies under `/calico/v1/`; this holds for all the formatters, here and at lib/endpoint.go:22-25 and 43-46, lib/profile.go:16-33 and lib/policy.go:25-28 and 40-43 |
| Keys.InnerShape | lib/store.go:22-28 | each of the seven patterns is `^/?` followed by a literal not starting with `/`, with no other `/?`, and every group is a non-empty `([^/]+)` followed by the open end or a literal starting with `/` |
| Keys.KindArity | lib/store.go:22-28 | the endpoint pattern has four groups, the policy pattern two, every other pattern one |
| Keys.ParseKeyIsFirstMatch | lib/store.go:47-73 | `ParseKey` is the ordered dispatch over endpoint, policy, profile rules, tags, labels, tier metadata, host IP, returning the first match |
| Keys.KindsDiverge | lib/store.go:22-28 | the seven patterns diverge pairwise on a literal |
| Keys.PatternsDisjoint | lib/store.go:22-28 | no path matches two of the seven patterns |
| Keys.ParseKeyByPattern | lib/store.go:47-70 | whichever pattern matches decides the result, so the order of the chain never changes the answer |
| Keys.ParseKeyNone | lib/store.go:71-72 | `ParseKey` gives nil exactly when none of the seven patterns matches |
| Keys.ParseKeyCharacterised | lib/store.go:47-73 | `ParseKey` returns `k` if and only if the pattern of `k`'s type matches and captures `k`'s fields; it never returns a host endpoint key |
| Keys.ParsedKeyValid | lib/store.go:22-28 | every field of a parsed key is non-empty and contains no `/` |
| Keys.ParseKeyLeadingSlash | lib/store.go:22-28 | for a path not starting with `/`, `ParseKey(s) == ParseKey("/" + s)` |
| Keys.KindMatchExtend | lib/store.go:22-28 | a match of any of the seven patterns is unchanged by appending `/` and any text |
| Keys.ParseKeyExtend | lib/store.go:22-28 | a recognised path followed by `/` and any text parses to the same key |
| Keys.ParseRendered | lib/store.go:47-70 | a path rendered from a kind's pattern, with or without a `/`-led tail, parses to that kind's key |
| Keys.FormatIsRender | lib/store.go:36-39 | each `asEtcdKey` formatter (except the policy key's) writes exactly the rendering of its type's pattern; the formatters are here and at lib/endpoint.go:22-25, lib/profile.go:16-33 and lib/policy.go:25-28 |
| Keys.ValidFieldsFit | lib/store.go:22-28 | the fields of a key whose fields are all non-empty single segments fit its pattern |
| Keys.RoundTrip | lib/store.go:47-70 | every key type with a pattern except the policy key parses back from its own path when its fields are non-empty and slash-free |
| Keys.UnknownKeyIsNone | lib/store.go:45-46 | `/calico/v1/unknown/thing` gives nil, not an error |
| Keys.ParseKeyNoneByShape | lib/store.go:71-72 | a path of a shape that diverges from all seven patterns gives nil |
| Keys.HostIPKeyRoundTrip | lib/store.go:36-39 | `ParseKey(HostIPKey{H}.asEtcdKey()) == HostIPKey{H}` for non-empty slash-free `H` |
| Keys.HostEndpointKeyNotParsed | lib/endpoint.go:43-46 | every host endpoint path with a slash-free hostname gives nil: host endpoint keys do not round-trip |
| Keys.PolicyKeyParsesAsTierMetadata | lib/policy.go:40-43 | the policy key's path parses as `TierMetadataKey{T}` and the policy ID is lost |
| Keys.PolicyPathRoundTrip | lib/policy.go:40-43 | with `/policy/` in place of `/metadata/`, valid policy keys round-trip |
| Json.DecodeLabels | lib/endpoint.go:58 | decoding `labels` into a nil map: absent or `null` leaves it nil, an object of strings fills the map with exactly that object's entries, anything else is an error |
| Json.LabelsRoundTrip | lib/endpoint.go:58-159 | labels stored into a field, a nil map as `null`, decode back to the same labels, nil included |
| Json.DecodeString | lib/policy.go:47 | decoding a string field: absent or `null` keeps the current value, a string replaces it, anything else is an error |
| Json.DecodeNumber | lib/policy.go:32 | decoding a number field: absent or `null` keeps the current value, a number replaces it, anything else is an error |
| Endpoints.WorkloadOf | lib/endpoint.go:13 | `re` yields a workload ID exactly when the search finds a match, and the ID is slash-free |
| Endpoints.WorkloadOfLeftmost | lib/endpoint.go:217 | the workload ID is the sole capture of `re` at the leftmost position of the key where it matches |
| Endpoints.WorkloadShape | lib/endpoint.go:13 | `re` is the endpoint pattern's text with a mandatory leading `/`, and its runs sit where the endpoint pattern's do |
| Endpoints.WorkloadFieldsCaptured | lib/endpoint.go:13 | `re` accepts any four slash-free fields, empty ones included, and captures only the third, the workload ID |
| Endpoints.WorkloadOfEndpointKey | lib/endpoint.go:13 | `re` finds `W` in every workload endpoint path `/calico/v1/host/H/workload/O/W/endpoint/E` with slash-free fields, empty ones included, alone or followed by `/` and more |
| Endpoints.EndpointKeyRoundTrip | lib/endpoint.go:22-25 | `ParseKey(k.asEtcdKey()) == k` for every `EndpointKey` with non-empty slash-free fields |
| Endpoints.DecodeEndpoint | lib/endpoint.go:219-220 | the decoded label-only endpoint keeps the node's key and raw value verbatim, takes its labels from the document's `labels` field, and exists exactly when the object and its labels decode |
| Endpoints.VisitNode | lib/endpoint.go:216-225 | a node is recorded exactly when it is not a directory, `re` matches its key and its value decodes; it aborts exactly when the value does not decode |
| Endpoints.ProcessNode | lib/endpoint.go:215-232 | the walk succeeds exactly when the functional walk does, and leaves the map that walk computes |
| Endpoints.Flatten | lib/endpoint.go:215-232 | a walk that completes keeps every workload already in the map |
| Endpoints.FlattenFrom | lib/endpoint.go:229-231 | a walk over the remaining children that completes keeps every workload already in the map |
| Endpoints.FlattenIsPreorderFold | lib/endpoint.go:215-232 | the recursive walk is the fold of the one-node step over the tree's nodes in pre-order |
| Endpoints.ApplyAppend | lib/endpoint.go:229-231 | folding over two node lists is folding over the first, then over the second from where it stopped |
| Endpoints.ChildrenVisited | lib/endpoint.go:229-231 | the walk recurses into every child: every node under a child is visited |
| Endpoints.ApplyFatalIff | lib/endpoint.go:220-223 | the walk aborts exactly when some visited matching leaf does not decode |
| Endpoints.ApplyKeys | lib/endpoint.go:217-225 | a workload is in the result exactly when it was there before or some visited leaf records it |
| Endpoints.ApplyUntouched | lib/endpoint.go:225 | an entry that no visited leaf records keeps its value |
| Endpoints.ApplyLastWins | lib/endpoint.go:225 | later leaves overwrite earlier ones: a workload's entry is that of the last leaf recording it |
| Endpoints.LeafAddsAtMostOne | lib/endpoint.go:216-225 | a childless leaf adds at most one entry, under the workload `re` finds in its key, with the node's key and value verbatim |
| Endpoints.Classify | lib/endpoint.go:119-139 | a create (a `set` with no previous node) or delete event emits an update, `Remove` set exactly for the delete and the event's index carried for the create; a create aborts when a matching leaf under it does not decode, and when it yields more than one entry; only a create can abort; any other action is ignored |
| Endpoints.Watch | lib/endpoint.go:114-144 | the watch sends at most one update per event |
| Endpoints.WatchEndpoints | lib/endpoint.go:110-147 | the loop sends exactly the updates of the event-by-event reading and stops at the first abort |
| Endpoints.WatchStopped | lib/endpoint.go:117-132 | after an abort, later events change nothing |
| Endpoints.OneUpdatePerAcceptedEvent | lib/endpoint.go:121-141 | unless the loop aborts, it sends one update per create or delete event, the j-th update coming from the j-th such event |
| Endpoints.WatchPrefix | lib/endpoint.go:141 | updates come out in event order: more events only append updates |
| Endpoints.CreateEvent | lib/endpoint.go:121-133 | a create event yields one update carrying the event's index and `Remove=false`: one match gives that entry and workload ID, no match an empty workload ID |
| Endpoints.DeleteAndOtherEvents | lib/endpoint.go:134-139 | a delete yields `Remove=true` with every other field at its zero value; any other non-create event yields nothing |
| Endpoints.LeafCreateNeverPanics | lib/endpoint.go:125-132 | the "should never happen" panic is unreachable for a create event on a childless leaf |
| Endpoints.CreateEndpointKey | lib/endpoint.go:121-129 | creating a workload endpoint's key with a decodable value yields the update for workload `W` with that endpoint |
| Endpoints.WithLabels | lib/endpoint.go:159 | the merged document replaces `labels` and keeps every other field |
| Endpoints.MergedJson | lib/endpoint.go:154-160 | the merged text exists exactly when the stored JSON decodes |
| Endpoints.SetLabelOnlyEndpoint | lib/endpoint.go:149-168 | undecodable JSON returns an error before any write; otherwise the merged text is stored under the endpoint's key and the store's answer returned |
| Endpoints.MergeReadsBack | lib/endpoint.go:154-161 | with a faithful codec the stored text decodes to the old document with only `labels` replaced, and reads back with exactly the labels written |
| Endpoints.MergeIdempotent | lib/endpoint.go:159-161 | merging the same labels twice stores the same text as merging once |
| Endpoints.Endpoint.Document | lib/endpoint.go:27-36 | the record's JSON holds `state`, `name`, `mac`, `profile_ids`, `ipv4_nets` and `ipv6_nets` with the record's values, plus `labels` holding the labels exactly when there are labels; the key fields are not part of it |
| Endpoints.Endpoint.Write | lib/endpoint.go:170-187 | an empty endpoint ID is replaced by the generated one (72 hex digits, so a single path segment) first; the key written is `EndpointKey.asEtcdKey()` of the updated fields and parses back to that key |
| Profiles.ProfileKeysRoundTrip | lib/profile.go:16-33 | the rules, tags and labels keys of a non-empty slash-free profile ID parse back to themselves |
| Profiles.Write | lib/profile.go:63-77 | the tags are written before the rules, to exactly the tags and rules keys; a failed tags write returns its error and the rules write is not attempted |
| Profiles.WriteKeysParse | lib/profile.go:64-65 | the keys written parse back to the profile's tags and rules keys |
| Profiles.ProfileExists | lib/profile.go:51-61 | never returns an error; answers true exactly when the read fails with an error other than not-found |
| Profiles.ProfileExistsCannotTell | lib/profile.go:51-61 | an existing profile and a missing one give the same answer |
| Profiles.ProfileExistsIntended | lib/profile.go:51-61 | corrected: true exactly when the read succeeds; errors other than not-found are returned |
| Policies.TierMetadataKeyRoundTrip | lib/policy.go:25-28 | `ParseKey(TierMetadataKey{T}.asEtcdKey()) == TierMetadataKey{T}` for non-empty slash-free `T` |
| Policies.ParseTierMetadata | lib/policy.go:53-60 | nil exactly when the text does not decode into the record; otherwise the record keeps the key it was given and its `order` is what decoding the `order` field gives |
| Policies.ParsePolicy | lib/policy.go:62-69 | nil exactly when the text does not decode; `TierID`, `PolicyID`, `selector` and `order` are what decoding those fields over the given key (and zero values) gives, so the key differs from the one given only where the JSON holds a `TierID`/`PolicyID` string |
| Policies.ParsePolicyKeyOverwritten | lib/policy.go:45-51 | a document holding only a `PolicyID` string yields a policy whose `PolicyID` is the document's, whatever key it was read under |
| Policies.ParsePolicyIntended | lib/policy.go:62-69 | corrected: nil exactly when the body does not decode; otherwise the policy keeps the key it was given |
| Policies.ParsePolicyAgrees | lib/policy.go:62-69 | the two readings agree on every document without `TierID` and `PolicyID` fields |

## Left out

- The etcd client calls (`Get`, `Set`, `Watcher.Next`), `context` and the channel sends are network I/O and a blocking handoff. Their answers are parameters, and the sent updates are the returned sequence.
- `GetEndpoints` and `GetEndpoint` are I/O wrappers around `processNode` and `ParseKey`. Their type assertion on the parsed key (lib/endpoint.go:202) and their use of `resp.Index` after a not-found error (lib/endpoint.go:88) are not modelled.
- `ParseEndpoint` and `ParseHostEndpoint` are decoding wrappers of the same shape as `ParseTierMetadata`. They are outside the modelled core.
- Endpoints.WatchEndpoints: the watch loop is infinite and the transport error of `Watcher.Next` ends the process (lib/endpoint.go:114-117). The model runs the loop over a finite list of events and leaves the transport error out.
- Logging (`log.Println`) is not modelled.
- The JSON encoding itself is left abstract. So are Go's case-insensitive matching of field names, a top-level `null` document, the nil/empty distinction for string lists, and the duplicate `expected_ipv4_addrs` tag of `HostEndpoint`.
- A top-level `null` document counts as undecodable everywhere in the model (`decodeObject` gives a document only for a JSON object). The code differs in three ways. `processNode` records an entry with nil labels. `SetLabelOnlyEndpoint` panics when it assigns into the nil map (lib/endpoint.go:159). `ParseTierMetadata` and `ParsePolicy` return the record built from the key they were given.
- Marshalling errors are not modelled. `Profile.Write` discards them, and `Endpoint.Write` cannot meet them for its field types.
- Policies.ParsePolicy: the rule lists are carried as undecoded values, so a type error inside `inbound_rules`/`outbound_rules` does not make the model return nil.
- Floating-point `Order` fields are carried as the text of the number.
- UUID generation is a parameter of `Endpoint.Write`, constrained to what `%x` produces for a UUID: the hex encoding of its 36-character text, 72 lower-case hex digits.
- lib/api/policy.go is not part of this model. It holds only API struct definitions.

## Findings

| source | as written | input that shows it | evidently intended | confidence | as-written member | corrected member |
|---|---|---|---|---|---|---|
| lib/policy.go:40-43 | `PolicyKey.asEtcdKey` formats `/calico/v1/policy/tier/T/metadata/P` | `PolicyKey{"t","p"}`: its path parses as `TierMetadataKey{"t"}` | `/calico/v1/policy/tier/T/policy/P`, the path `policyRegex` recognises | high, not executed | Keys.PolicyKeyParsesAsTierMetadata | Keys.PolicyPathRoundTrip |
| lib/profile.go:51-61 | a successful read returns false, any error other than not-found returns true, and the error is dropped | an existing profile directory gives `(false, nil)`, the same as a missing one | true when the read succeeds, false on not-found, other errors returned | high, not executed | Profiles.ProfileExistsCannotTell | Profiles.ProfileExistsIntended |
| lib/policy.go:45-51 | the embedded `PolicyKey` has no `json:"-"` tag, so `TierID`/`PolicyID` in the JSON overwrite the key `ParsePolicy` was given | key `{"t","p"}` with body `{"PolicyID":"q"}` gives a policy with `PolicyID` `"q"` | the key fields excluded from the JSON, as in every other record | medium, not executed | Policies.ParsePolicyKeyOverwritten | Policies.ParsePolicyIntended |
