/** Profiles (lib/profile.go): the profile keys, `Profile.Write` and `ProfileExists`. */
module Profiles {
  import opened Wrappers
  import opened Etcd
  import Keys
  import Patterns

  datatype Rule = Rule(action: string, srcTag: string)
  datatype Rules = Rules(inbound: seq<Rule>, outbound: seq<Rule>)

  /** `Profile`: the embedded profile ID is not part of the JSON. */
  datatype Profile = Profile(profileID: string, tags: seq<string>, rules: Rules)

  // ---------------------------------------------------------------------------
  // Keys

  /** `ProfileRulesKey`, `ProfileTagsKey` and `ProfileLabelsKey` round-trip through `ParseKey`. */
  lemma ProfileKeysRoundTrip(profileID: string)
    requires profileID != [] && Patterns.SlashFree(profileID)
    ensures Keys.ParseKey(Keys.ProfileRulesKey(profileID).AsEtcdKey()) == Some(Keys.ProfileRulesKey(profileID))
    ensures Keys.ParseKey(Keys.ProfileTagsKey(profileID).AsEtcdKey()) == Some(Keys.ProfileTagsKey(profileID))
    ensures Keys.ParseKey(Keys.ProfileLabelsKey(profileID).AsEtcdKey()) == Some(Keys.ProfileLabelsKey(profileID))
  {
    Keys.RoundTrip(Keys.ProfileRulesKey(profileID));
    Keys.RoundTrip(Keys.ProfileTagsKey(profileID));
    Keys.RoundTrip(Keys.ProfileLabelsKey(profileID));
  }

  // ---------------------------------------------------------------------------
  // Profile.Write

  /** How the tag list and the rules marshal; the code discards marshalling errors, so both are total. */
  datatype Marshal = Marshal(tags: seq<string> -> string, rules: Rules -> string)

  /** The writes attempted, in order, and the error returned. */
  datatype WriteResult = WriteResult(requests: seq<SetRequest>, err: Option<Error>)

  /**
   * `Profile.Write`: stores the tags, then the rules; a failed write returns
   * its error at once.  `tagsResult` and `rulesResult` are the store's
   * answers to the two writes.
   */
  function Write(p: Profile, marshal: Marshal, tagsResult: Option<Error>, rulesResult: Option<Error>): (r: WriteResult)
    ensures 1 <= |r.requests| <= 2
    ensures r.requests[0] == SetRequest(Keys.ProfileTagsKey(p.profileID).AsEtcdKey(), marshal.tags(p.tags))
    ensures |r.requests| == 2 <==> tagsResult.None?
    ensures |r.requests| == 2 ==>
      r.requests[1] == SetRequest(Keys.ProfileRulesKey(p.profileID).AsEtcdKey(), marshal.rules(p.rules))
    ensures r.err == if tagsResult.Some? then tagsResult else rulesResult
  {
    var tagsKey := "/calico/v1/policy/profile/" + p.profileID + "/tags";
    var rulesKey := "/calico/v1/policy/profile/" + p.profileID + "/rules";
    var tagBytes := marshal.tags(p.tags);
    var ruleBytes := marshal.rules(p.rules);
    if tagsResult.Some? then WriteResult([SetRequest(tagsKey, tagBytes)], tagsResult)
    else WriteResult([SetRequest(tagsKey, tagBytes), SetRequest(rulesKey, ruleBytes)], rulesResult)
  }

  /**
   * The keys `Write` stores under are exactly the profile's tags and rules
   * keys: for a valid profile ID they parse back to those keys.
   */
  lemma WriteKeysParse(p: Profile, marshal: Marshal, tagsResult: Option<Error>, rulesResult: Option<Error>)
    requires p.profileID != [] && Patterns.SlashFree(p.profileID)
    ensures var r := Write(p, marshal, tagsResult, rulesResult);
      && Keys.ParseKey(r.requests[0].key) == Some(Keys.ProfileTagsKey(p.profileID))
      && (|r.requests| == 2 ==> Keys.ParseKey(r.requests[1].key) == Some(Keys.ProfileRulesKey(p.profileID)))
  {
    ProfileKeysRoundTrip(p.profileID);
  }

  // ---------------------------------------------------------------------------
  // ProfileExists

  /** The key `ProfileExists` reads: the profile's directory. */
  function ProfileDir(id: string): string {
    "/calico/v1/policy/profile/" + id
  }

  datatype ExistsResult = ExistsResult(present: bool, err: Option<Error>)

  /**
   * `ProfileExists` as written: reads the profile's directory; not-found
   * gives false, any other error gives true, and a successful read gives
   * false with the (nil) error of the read.
   */
  function ProfileExists(id: string, get: string -> GetOutcome): (r: ExistsResult)
    ensures r.err == None
    ensures r.present <==> get(ProfileDir(id)).Failed? && get(ProfileDir(id)).error != KeyNotFound
  {
    match get(ProfileDir(id))
    case Failed(e) =>
      if e == KeyNotFound then ExistsResult(false, None) else ExistsResult(true, None)
    case Found(_) => ExistsResult(false, None)
  }

  /** As written, an existing profile and a missing one give the same answer. */
  lemma ProfileExistsCannotTell(id: string, get: string -> GetOutcome, value: string)
    requires get(ProfileDir(id)) == Found(value)
    ensures ProfileExists(id, get) == ExistsResult(false, None)
    ensures ProfileExists(id, get) == ProfileExists(id, _ => Failed(KeyNotFound))
  {
  }

  /**
   * `ProfileExists` as evidently intended: a successful read means the
   * profile exists, not-found means it does not, and any other error is
   * returned.
   */
  function ProfileExistsIntended(id: string, get: string -> GetOutcome): (r: ExistsResult)
    ensures r.present <==> get(ProfileDir(id)).Found?
    ensures r.err.Some? <==> get(ProfileDir(id)).Failed? && get(ProfileDir(id)).error != KeyNotFound
    ensures r.err.Some? ==> r.err == Some(get(ProfileDir(id)).error)
  {
    match get(ProfileDir(id))
    case Failed(e) =>
      if e == KeyNotFound then ExistsResult(false, None) else ExistsResult(false, Some(e))
    case Found(_) => ExistsResult(true, None)
  }
}
