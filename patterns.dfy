/**
 * The fragment of regular-expression syntax the key schema is written in:
 * literal text, an optional leading `/` (`^/?`), and runs of characters other
 * than `/` (`([^/]+)`, `([^/]*)`, `[^/]*` and the lazy `[^/]*?`).  Every pattern
 * is open at the end: text after a match is ignored.
 *
 * A run is always followed either by the open end or by a literal that starts
 * with `/` (the predicate `Delimited`).  A run followed by such a literal ends
 * at the next `/` under any reading, greedy, lazy or backtracking.  A run
 * before the open end is greedy in every expression modelled here (the one
 * lazy run, the host run of the workload-ID expression, is followed by
 * `/workload/`), so it too takes everything up to the next `/` or the end of
 * the text.  `Match` therefore takes the maximal run; it would not model a
 * lazy run before the open end, which stops after its minimum.
 */
module Patterns {
  import opened Wrappers

  datatype Pattern =
    | End                                                // open end
    | OptSlash(next: Pattern)                            // `/?`: greedy, with backtracking
    | Lit(text: string, next: Pattern)                   // literal text
    | Seg(capture: bool, nonEmpty: bool, next: Pattern)  // a run of non-`/` characters

  predicate SlashFree(s: string) {
    forall i | 0 <= i < |s| :: s[i] != '/'
  }

  /** No `/?` anywhere in the pattern. */
  predicate Plain(p: Pattern) {
    match p
    case End => true
    case OptSlash(_) => false
    case Lit(_, next) => Plain(next)
    case Seg(_, _, next) => Plain(next)
  }

  /** Every run is followed by the open end or by a literal starting with `/`. */
  predicate Delimited(p: Pattern) {
    match p
    case End => true
    case OptSlash(next) => Delimited(next)
    case Lit(_, next) => Delimited(next)
    case Seg(_, _, next) =>
      && Delimited(next)
      && (next.End? || (next.Lit? && |next.text| > 0 && next.text[0] == '/'))
  }

  /** Every capturing run requires at least one character (`([^/]+)`). */
  predicate CapturesNonEmpty(p: Pattern) {
    match p
    case End => true
    case OptSlash(next) => CapturesNonEmpty(next)
    case Lit(_, next) => CapturesNonEmpty(next)
    case Seg(capture, nonEmpty, next) => (capture ==> nonEmpty) && CapturesNonEmpty(next)
  }

  function CaptureCount(p: Pattern): nat {
    match p
    case End => 0
    case OptSlash(next) => CaptureCount(next)
    case Lit(_, next) => CaptureCount(next)
    case Seg(capture, _, next) => (if capture then 1 else 0) + CaptureCount(next)
  }

  /** Every run of the pattern captures. */
  predicate AllCapture(p: Pattern) {
    match p
    case End => true
    case OptSlash(next) => AllCapture(next)
    case Lit(_, next) => AllCapture(next)
    case Seg(capture, _, next) => capture && AllCapture(next)
  }

  /** `caps` could be the captures of `p`: one slash-free string per capturing run, non-empty where the run demands it. */
  predicate ValidCaptures(p: Pattern, caps: seq<string>) {
    match p
    case End => caps == []
    case OptSlash(next) => ValidCaptures(next, caps)
    case Lit(_, next) => ValidCaptures(next, caps)
    case Seg(capture, nonEmpty, next) =>
      if capture then
        && |caps| > 0
        && SlashFree(caps[0])
        && (nonEmpty ==> caps[0] != [])
        && ValidCaptures(next, caps[1..])
      else ValidCaptures(next, caps)
  }

  /** Length of the longest prefix of `s` that contains no `/`. */
  function RunLength(s: string): (n: nat)
    ensures n <= |s| && SlashFree(s[..n])
    ensures n == |s| || s[n] == '/'
  {
    if s == [] || s[0] == '/' then 0
    else
      var m := RunLength(s[1..]);
      assert s[..1 + m] == [s[0]] + s[1..][..m];
      1 + m
  }

  /**
   * Anchored match of `p` at the start of `s`, open at the end; the result is
   * the list of captured texts, as `FindStringSubmatch` returns them after its
   * whole-match element.
   */
  function Match(p: Pattern, s: string): (r: Option<seq<string>>)
    ensures r.Some? ==> ValidCaptures(p, r.value) && |r.value| == CaptureCount(p)
  {
    match p
    case End => Some([])
    case OptSlash(next) =>
      if s != [] && s[0] == '/' && Match(next, s[1..]).Some? then Match(next, s[1..])
      else Match(next, s)
    case Lit(t, next) =>
      if t <= s then Match(next, s[|t|..]) else None
    case Seg(capture, nonEmpty, next) =>
      var n := RunLength(s);
      if nonEmpty && n == 0 then None
      else
        match Match(next, s[n..])
        case None => None
        case Some(caps) => Some(if capture then [s[..n]] + caps else caps)
  }

  /** Unanchored search: the match at the leftmost position of `s` where `p` matches. */
  function Find(p: Pattern, s: string): (r: Option<seq<string>>)
    ensures r.Some? ==> ValidCaptures(p, r.value) && |r.value| == CaptureCount(p)
    ensures Match(p, s).Some? ==> r == Match(p, s)
    decreases |s|
  {
    if Match(p, s).Some? then Match(p, s)
    else if s == [] then None
    else Find(p, s[1..])
  }

  /**
   * The search succeeds exactly when the pattern matches at some position of
   * the text, and then gives the match at the leftmost such position.
   */
  lemma {:induction false} FindLeftmost(p: Pattern, s: string)
    ensures Find(p, s).Some? <==> exists i | 0 <= i <= |s| :: Match(p, s[i..]).Some?
    ensures Find(p, s).Some? ==> exists i | 0 <= i <= |s| ::
      Find(p, s) == Match(p, s[i..]) && forall j | 0 <= j < i :: Match(p, s[j..]).None?
    decreases |s|
  {
    assert s[0..] == s;
    if Match(p, s).None? && s != [] {
      FindLeftmost(p, s[1..]);
      FindStep(p, s, Find(p, s[1..]));
    }
  }

  /** The single capture of a search comes from the leftmost position where the pattern matches. */
  lemma FindSole(p: Pattern, s: string, caps: seq<string>)
    requires Find(p, s) == Some(caps) && CaptureCount(p) == 1
    ensures |caps| == 1 && SlashFree(caps[0])
    ensures exists i | 0 <= i <= |s| ::
      Match(p, s[i..]) == Some([caps[0]]) && forall j | 0 <= j < i :: Match(p, s[j..]).None?
  {
    FindLeftmost(p, s);
    CapturesWellFormed(p, caps);
    assert caps == [caps[0]];
  }

  /** A search that fails at the first position finds what the search from the second finds. */
  lemma FindStep(p: Pattern, s: string, r: Option<seq<string>>)
    requires s != [] && Match(p, s).None?
    requires r.Some? <==> exists i | 0 <= i <= |s[1..]| :: Match(p, s[1..][i..]).Some?
    requires r.Some? ==> exists i | 0 <= i <= |s[1..]| ::
      r == Match(p, s[1..][i..]) && forall j | 0 <= j < i :: Match(p, s[1..][j..]).None?
    ensures r.Some? <==> exists i | 0 <= i <= |s| :: Match(p, s[i..]).Some?
    ensures r.Some? ==> exists i | 0 <= i <= |s| ::
      r == Match(p, s[i..]) && forall j | 0 <= j < i :: Match(p, s[j..]).None?
  {
    assert s[0..] == s;
    if r.Some? {
      var i :| 0 <= i <= |s[1..]| && r == Match(p, s[1..][i..]) &&
        forall j | 0 <= j < i :: Match(p, s[1..][j..]).None?;
      assert s[1..][i..] == s[i + 1..];
      forall j | 0 <= j < i + 1
        ensures Match(p, s[j..]).None?
      {
        if j > 0 {
          assert s[j..] == s[1..][j - 1..];
        }
      }
    }
    if exists i | 0 <= i <= |s| :: Match(p, s[i..]).Some? {
      var i :| 0 <= i <= |s| && Match(p, s[i..]).Some?;
      assert s[i..] == s[1..][i - 1..];
    }
  }

  /** The text `p` matches when its runs are filled in by `fields`, one per run, in order. */
  function Render(p: Pattern, fields: seq<string>): string {
    match p
    case End => ""
    case OptSlash(next) => "/" + Render(next, fields)
    case Lit(t, next) => t + Render(next, fields)
    case Seg(_, _, next) =>
      if fields == [] then Render(next, []) else fields[0] + Render(next, fields[1..])
  }

  /** `fields` fits the runs of `p`: one slash-free string per run, non-empty where the run demands it. */
  predicate FieldsFit(p: Pattern, fields: seq<string>) {
    match p
    case End => fields == []
    case OptSlash(next) => FieldsFit(next, fields)
    case Lit(_, next) => FieldsFit(next, fields)
    case Seg(_, nonEmpty, next) =>
      && |fields| > 0
      && SlashFree(fields[0])
      && (nonEmpty ==> fields[0] != [])
      && FieldsFit(next, fields[1..])
  }

  /** The fields of the capturing runs. */
  function Captured(p: Pattern, fields: seq<string>): seq<string> {
    match p
    case End => []
    case OptSlash(next) => Captured(next, fields)
    case Lit(_, next) => Captured(next, fields)
    case Seg(capture, _, next) =>
      if fields == [] then Captured(next, [])
      else (if capture then [fields[0]] else []) + Captured(next, fields[1..])
  }

  /** Two literals that differ at some position both texts have. */
  predicate Clash(t1: string, t2: string) {
    exists i | 0 <= i < |t1| && i < |t2| :: t1[i] != t2[i]
  }

  /**
   * The two patterns share a prefix of identical literals and runs, and then
   * require two clashing literals at the same place.
   */
  predicate Diverge(p1: Pattern, p2: Pattern) {
    match (p1, p2)
    case (Lit(t1, n1), Lit(t2, n2)) => Clash(t1, t2) || (t1 == t2 && Diverge(n1, n2))
    case (Seg(c1, e1, n1), Seg(c2, e2, n2)) => Diverge(n1, n2)
    case _ => false
  }

  /** Two patterns that differ at most in which runs capture and which runs must be non-empty. */
  predicate SameShape(p: Pattern, q: Pattern) {
    match (p, q)
    case (End, End) => true
    case (OptSlash(n1), OptSlash(n2)) => SameShape(n1, n2)
    case (Lit(t1, n1), Lit(t2, n2)) => t1 == t2 && SameShape(n1, n2)
    case (Seg(_, _, n1), Seg(_, _, n2)) => SameShape(n1, n2)
    case _ => false
  }

  // ---------------------------------------------------------------------------
  // Lemmas

  /** A run stops exactly at the end of a slash-free word followed by `/` or by nothing. */
  lemma {:induction false} RunLengthOf(w: string, rest: string)
    requires SlashFree(w)
    requires rest == [] || rest[0] == '/'
    ensures RunLength(w + rest) == |w|
  {
    if w != [] {
      assert (w + rest)[1..] == w[1..] + rest;
      RunLengthOf(w[1..], rest);
    }
  }

  /** Every capture `Match` returns is slash-free, and non-empty when the pattern says so. */
  lemma {:induction false} CapturesWellFormed(p: Pattern, caps: seq<string>)
    requires ValidCaptures(p, caps)
    ensures forall i | 0 <= i < |caps| :: SlashFree(caps[i])
    ensures CapturesNonEmpty(p) ==> forall i | 0 <= i < |caps| :: caps[i] != []
  {
    match p
    case End =>
    case OptSlash(next) => CapturesWellFormed(next, caps);
    case Lit(_, next) => CapturesWellFormed(next, caps);
    case Seg(capture, _, next) =>
      if capture {
        CapturesWellFormed(next, caps[1..]);
        assert forall i | 1 <= i < |caps| :: caps[i] == caps[1..][i - 1];
      } else {
        CapturesWellFormed(next, caps);
      }
  }

  /**
   * Round trip: a delimited pattern matches its own rendering, followed by
   * nothing or by `/` and anything, and captures exactly the capturing fields.
   */
  lemma {:induction false} MatchRender(p: Pattern, fields: seq<string>, tail: string)
    requires Plain(p) && Delimited(p) && FieldsFit(p, fields)
    requires tail == [] || tail[0] == '/'
    ensures Match(p, Render(p, fields) + tail) == Some(Captured(p, fields))
  {
    match p
    case End =>
    case Lit(t, next) =>
      var s := Render(p, fields) + tail;
      assert s == t + (Render(next, fields) + tail);
      assert s[|t|..] == Render(next, fields) + tail;
      MatchRender(next, fields, tail);
    case Seg(capture, nonEmpty, next) =>
      var w, more := fields[0], fields[1..];
      var rest := Render(next, more) + tail;
      assert Render(p, fields) + tail == w + rest;
      assert rest == [] || rest[0] == '/' by {
        if !next.End? {
          assert rest == next.text + (Render(next.next, more) + tail);
        }
      }
      MatchRender(next, more, tail);
      MatchRun(p, w, rest);
  }

  /** A run followed by text that starts with `/` (or by nothing) takes exactly the slash-free word before it. */
  lemma MatchRun(p: Pattern, w: string, rest: string)
    requires p.Seg? && SlashFree(w) && !(p.nonEmpty && w == [])
    requires rest == [] || rest[0] == '/'
    requires Match(p.next, rest).Some?
    ensures Match(p, w + rest) == Some((if p.capture then [w] else []) + Match(p.next, rest).value)
  {
    RunLengthOf(w, rest);
    assert (w + rest)[..|w|] == w && (w + rest)[|w|..] == rest;
    if !p.capture {
      assert [] + Match(p.next, rest).value == Match(p.next, rest).value;
    }
  }

  /**
   * When every run captures, the fields that fit the pattern are exactly one
   * non-empty slash-free string per capture, and they are what is captured.
   */
  lemma {:induction false} AllCaptureFields(p: Pattern, fields: seq<string>)
    requires AllCapture(p) && CapturesNonEmpty(p)
    ensures FieldsFit(p, fields) <==>
      |fields| == CaptureCount(p) && forall i | 0 <= i < |fields| :: fields[i] != [] && SlashFree(fields[i])
    ensures FieldsFit(p, fields) ==> Captured(p, fields) == fields
  {
    match p
    case End =>
    case OptSlash(next) => AllCaptureFields(next, fields);
    case Lit(_, next) => AllCaptureFields(next, fields);
    case Seg(_, _, next) =>
      if fields != [] {
        AllCaptureFields(next, fields[1..]);
        assert forall i | 1 <= i < |fields| :: fields[1..][i - 1] == fields[i];
        assert [fields[0]] + fields[1..] == fields;
      }
  }

  /** Text after a match that starts with `/` changes nothing: the patterns are open at the end. */
  lemma {:induction false} MatchExtend(p: Pattern, s: string, tail: string)
    requires Plain(p)
    requires Match(p, s).Some?
    requires tail == [] || tail[0] == '/'
    ensures Match(p, s + tail) == Match(p, s)
  {
    match p
    case End =>
    case Lit(t, next) =>
      assert (s + tail)[|t|..] == s[|t|..] + tail;
      MatchExtend(next, s[|t|..], tail);
    case Seg(capture, nonEmpty, next) =>
      var n := RunLength(s);
      RunExtend(s, tail);
      assert Match(next, s[n..]).Some?;
      MatchExtend(next, s[n..], tail);
      assert Match(next, (s + tail)[n..]) == Match(next, s[n..]);
  }

  /** A run stops at the same place when text starting with `/` is appended. */
  lemma {:induction false} RunExtend(s: string, tail: string)
    requires tail == [] || tail[0] == '/'
    ensures RunLength(s + tail) == RunLength(s)
    ensures (s + tail)[..RunLength(s)] == s[..RunLength(s)]
    ensures (s + tail)[RunLength(s)..] == s[RunLength(s)..] + tail
  {
    if s != [] && s[0] != '/' {
      assert (s + tail)[1..] == s[1..] + tail;
      RunExtend(s[1..], tail);
    }
  }

  /** Rendering ignores which runs capture: patterns of the same shape render the same text. */
  lemma {:induction false} RenderShape(p: Pattern, q: Pattern, fields: seq<string>)
    requires SameShape(p, q)
    ensures Render(p, fields) == Render(q, fields)
  {
    match (p, q)
    case (End, End) =>
    case (OptSlash(n1), OptSlash(n2)) => RenderShape(n1, n2, fields);
    case (Lit(_, n1), Lit(_, n2)) => RenderShape(n1, n2, fields);
    case (Seg(_, _, n1), Seg(_, _, n2)) =>
      if fields == [] {
        RenderShape(n1, n2, []);
      } else {
        RenderShape(n1, n2, fields[1..]);
      }
  }

  /** Diverging patterns never both match the same text. */
  lemma {:induction false} DivergeExclusive(p1: Pattern, p2: Pattern, s: string)
    requires Diverge(p1, p2)
    ensures Match(p1, s).None? || Match(p2, s).None?
  {
    match (p1, p2)
    case (Lit(t1, n1), Lit(t2, n2)) =>
      if Clash(t1, t2) {
        var i :| 0 <= i < |t1| && i < |t2| && t1[i] != t2[i];
        if t1 <= s {
          assert s[i] != t2[i];
        }
      } else if t1 <= s {
        DivergeExclusive(n1, n2, s[|t1|..]);
      }
    case (Seg(c1, e1, n1), Seg(c2, e2, n2)) =>
      DivergeExclusive(n1, n2, s[RunLength(s)..]);
  }

  /** Divergence does not depend on the order of the two patterns. */
  lemma {:induction false} DivergeSymmetric(p1: Pattern, p2: Pattern)
    requires Diverge(p1, p2)
    ensures Diverge(p2, p1)
  {
    match (p1, p2)
    case (Lit(t1, n1), Lit(t2, n2)) =>
      if Clash(t1, t2) {
        var i :| 0 <= i < |t1| && i < |t2| && t1[i] != t2[i];
        assert t2[i] != t1[i];
      } else {
        DivergeSymmetric(n1, n2);
      }
    case (Seg(_, _, n1), Seg(_, _, n2)) =>
      DivergeSymmetric(n1, n2);
  }

  /**
   * `/?` in front of a pattern that starts with a literal other than `/`:
   * the match is that of the pattern on the text with at most one leading
   * `/` removed.
   */
  lemma OptSlashStrips(q: Pattern, s: string)
    requires q.Lit? && |q.text| > 0 && q.text[0] != '/'
    ensures Match(OptSlash(q), s) == Match(q, StripSlash(s))
  {
    if s != [] && s[0] == '/' && Match(q, s[1..]).None? {
      assert !(q.text <= s) by { assert q.text[0] != s[0]; }
    }
  }

  /** `/?` in front keeps the pattern open at the end: `/` and any text after a match change nothing. */
  lemma OptSlashExtend(q: Pattern, s: string, more: string)
    requires q.Lit? && |q.text| > 0 && q.text[0] != '/' && Plain(q)
    requires Match(OptSlash(q), s).Some?
    ensures Match(OptSlash(q), s + "/" + more) == Match(OptSlash(q), s)
  {
    var t := "/" + more;
    assert s + "/" + more == s + t;
    OptSlashStrips(q, s);
    var r := StripSlash(s);
    assert q.text <= r;
    StripSlashAppend(s, t);
    MatchExtend(q, r, t);
    OptSlashStrips(q, s + t);
  }

  lemma StripSlashAppend(s: string, t: string)
    requires s != []
    ensures StripSlash(s + t) == StripSlash(s) + t
  {
    if s[0] == '/' {
      assert (s + t)[1..] == s[1..] + t;
    }
  }

  /** `/?` in front of a delimited pattern matches the `/`-led rendering of that pattern, with or without a `/`-led tail. */
  lemma OptSlashRender(q: Pattern, fields: seq<string>, tail: string)
    requires q.Lit? && |q.text| > 0 && q.text[0] != '/'
    requires Plain(q) && Delimited(q) && FieldsFit(q, fields)
    requires tail == [] || tail[0] == '/'
    ensures Match(OptSlash(q), "/" + Render(q, fields) + tail) == Some(Captured(q, fields))
  {
    var r := Render(q, fields) + tail;
    OptSlashStrips(q, "/" + r);
    assert ("/" + r)[1..] == r;
    MatchRender(q, fields, tail);
    assert "/" + Render(q, fields) + tail == "/" + r;
  }

  function StripSlash(s: string): (r: string)
    ensures s == r || s == "/" + r
  {
    if s != [] && s[0] == '/' then s[1..] else s
  }
}
