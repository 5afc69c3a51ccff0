/**
 * The attribute regexes of lib/m3u8-parser.ts as hand-written scans.
 * Every pattern there is a fixed anchor (`key=`, or `,` for the title)
 * followed by one capture group; `line.match(re)?.[1]` is the capture of
 * the leftmost position where the anchor occurs AND the rest matches.
 */
module Scan {
  import opened Wrappers
  import opened Text

  /** The capturing part of a pattern, after its anchor. */
  datatype Capture =
    | Quoted    // `"([^"]+)"`
    | Digits    // `(\d+)`
    | NonSpace  // `([^\s]+)`
    | Rest      // `(.+)$`

  /** Length of the longest prefix of `s` made of decimal digits. */
  function DigitRun(s: string): (n: nat)
    ensures n <= |s|
    decreases |s|
  {
    if s != [] && IsDigit(s[0]) then
      var m := DigitRun(s[1..]);
      m + 1
    else 0
  }

  /** Length of the longest prefix of `s` without whitespace. */
  function NonSpaceRun(s: string): (n: nat)
    ensures n <= |s|
    decreases |s|
  {
    if s != [] && !IsWhitespace(s[0]) then
      var m := NonSpaceRun(s[1..]);
      m + 1
    else 0
  }

  lemma {:induction false} DigitRunSound(s: string)
    ensures var n := DigitRun(s); AllDigits(s[..n]) && (n == |s| || !IsDigit(s[n]))
    decreases |s|
  {
    if s != [] && IsDigit(s[0]) {
      DigitRunSound(s[1..]);
      var m := DigitRun(s[1..]);
      assert s[..m + 1] == [s[0]] + s[1..][..m];
    }
  }

  lemma {:induction false} NonSpaceRunSound(s: string)
    ensures var n := NonSpaceRun(s); (forall i | 0 <= i < n :: !IsWhitespace(s[i])) && (n == |s| || IsWhitespace(s[n]))
    decreases |s|
  {
    if s != [] && !IsWhitespace(s[0]) {
      NonSpaceRunSound(s[1..]);
      var m := NonSpaceRun(s[1..]);
      assert forall i | 1 <= i < m + 1 :: s[i] == s[1..][i - 1];
    }
  }

  predicate NoLineTerminator(s: string) {
    forall i | 0 <= i < |s| :: !IsLineTerminator(s[i])
  }

  /** What the capturing part matches at the start of `s`, if it matches. */
  function Tail(kind: Capture, s: string): Option<string>
  {
    match kind
    case Quoted =>
      if |s| >= 2 && s[0] == '"' then
        match IndexOf(s[1..], '"')
        case Some(q) => if q > 0 then Some(s[1..q + 1]) else None
        case None => None
      else None
    case Digits =>
      var n := DigitRun(s);
      if n > 0 then Some(s[..n]) else None
    case NonSpace =>
      var n := NonSpaceRun(s);
      if n > 0 then Some(s[..n]) else None
    case Rest =>
      if s != [] && NoLineTerminator(s) then Some(s) else None
  }

  /** `"([^"]+)"`: an opening quote, at least one other character, and the capture ends at the next quote. */
  lemma QuotedMeaning(s: string)
    ensures Tail(Quoted, s).Some? <==> (|s| >= 2 && s[0] == '"' && s[1] != '"' && '"' in s[2..])
    ensures Tail(Quoted, s).Some? ==>
      var v := Tail(Quoted, s).value;
      |v| + 2 <= |s| && s[1..|v| + 1] == v && s[|v| + 1] == '"' && '"' !in v
  {
    if |s| >= 2 && s[0] == '"' {
      assert s[2..] == s[1..][1..];
      IndexOfSound(s[1..], '"');
      match IndexOf(s[1..], '"')
      case Some(q) =>
        if q > 0 { assert s[2..][q - 1] == '"'; }
      case None =>
    }
  }

  /** `(\d+)`: the longest run of digits, at least one. */
  lemma DigitsMeaning(s: string)
    ensures Tail(Digits, s).Some? <==> (|s| > 0 && IsDigit(s[0]))
    ensures Tail(Digits, s).Some? ==>
      var v := Tail(Digits, s).value;
      |v| <= |s| && v == s[..|v|] && AllDigits(v) && (|v| == |s| || !IsDigit(s[|v|]))
  {
    DigitRunSound(s);
  }

  /** `([^\s]+)`: the longest run without whitespace, at least one character. */
  lemma NonSpaceMeaning(s: string)
    ensures Tail(NonSpace, s).Some? <==> (|s| > 0 && !IsWhitespace(s[0]))
    ensures Tail(NonSpace, s).Some? ==>
      var v := Tail(NonSpace, s).value;
      |v| <= |s| && v == s[..|v|] && (|v| == |s| || IsWhitespace(s[|v|]))
  {
    NonSpaceRunSound(s);
  }

  /** `w` occurs in `s` at index `i`. */
  predicate OccursAt(s: string, i: nat, w: string) {
    i + |w| <= |s| && s[i..i + |w|] == w
  }

  /** The capturing part as a test on what follows the anchor. */
  function Accepts(kind: Capture): string -> bool {
    t => Tail(kind, t).Some?
  }

  /**
   * The search is stated for any test `ok` on what follows the anchor, so
   * that reasoning about where a match lies never looks inside a capture.
   */
  predicate MatchAt(s: string, i: nat, w: string, ok: string -> bool) {
    OccursAt(s, i, w) && ok(s[i + |w|..])
  }

  /** The leftmost index at or after `from` where the pattern matches (`FirstMatchSound` states it). */
  function FirstMatch(s: string, w: string, ok: string -> bool, from: nat): (r: Option<nat>)
    requires from <= |s|
    ensures r.Some? ==> from <= r.value && r.value + |w| <= |s|
    decreases |s| - from
  {
    if from + |w| > |s| then None
    else if MatchAt(s, from, w, ok) then Some(from)
    else if from == |s| then None
    else FirstMatch(s, w, ok, from + 1)
  }

  /** `s.match(pattern)?.[1]` for the pattern made of anchor `w` and capture `kind`. */
  function Find(s: string, w: string, kind: Capture): Option<string> {
    var first := FirstMatch(s, w, Accepts(kind), 0);
    if first.Some? then Tail(kind, s[first.value + |w|..]) else None
  }

  /** `FirstMatch` finds a match, and none lies between `from` and it; without a result there is no match at all. */
  lemma {:induction false} FirstMatchSound(s: string, w: string, ok: string -> bool, from: nat)
    requires from <= |s|
    ensures var r := FirstMatch(s, w, ok, from);
      r.Some? ==> (MatchAt(s, r.value, w, ok) && forall j: nat | from <= j < r.value :: !MatchAt(s, j, w, ok))
    ensures FirstMatch(s, w, ok, from).None? ==> forall j: nat | from <= j :: !MatchAt(s, j, w, ok)
    decreases |s| - from
  {
    if from + |w| > |s| {
    } else if MatchAt(s, from, w, ok) {
    } else if from == |s| {
      forall j: nat | from <= j ensures !MatchAt(s, j, w, ok) {
        if j > from { assert j + |w| > |s|; }
      }
    } else {
      FirstMatchSound(s, w, ok, from + 1);
    }
  }

  lemma {:induction false} FirstMatchFrom(s: string, w: string, ok: string -> bool, from: nat, i: nat)
    requires from <= i && MatchAt(s, i, w, ok)
    requires forall j: nat | from <= j < i :: !MatchAt(s, j, w, ok)
    ensures from <= |s| && FirstMatch(s, w, ok, from) == Some(i)
    decreases i - from
  {
    if from < i {
      assert !MatchAt(s, from, w, ok);
      FirstMatchFrom(s, w, ok, from + 1, i);
    }
  }

  lemma {:induction false} FirstMatchNone(s: string, w: string, ok: string -> bool, from: nat)
    requires from <= |s|
    requires forall j: nat | from <= j :: !MatchAt(s, j, w, ok)
    ensures FirstMatch(s, w, ok, from) == None
    decreases |s| - from
  {
    if from + |w| <= |s| {
      assert !MatchAt(s, from, w, ok);
      if from < |s| {
        FirstMatchNone(s, w, ok, from + 1);
      }
    }
  }

  /** Where the pattern matches nowhere, nothing is found. */
  lemma FindNone(s: string, w: string, kind: Capture)
    requires forall j: nat :: !MatchAt(s, j, w, Accepts(kind))
    ensures Find(s, w, kind) == None
  {
    FirstMatchNone(s, w, Accepts(kind), 0);
  }

  /** A match with nothing matching before it is what `Find` returns. */
  lemma FindAt(s: string, w: string, kind: Capture, i: nat)
    requires MatchAt(s, i, w, Accepts(kind))
    requires forall j: nat | j < i :: !MatchAt(s, j, w, Accepts(kind))
    ensures Find(s, w, kind) == Tail(kind, s[i + |w|..])
  {
    FirstMatchFrom(s, w, Accepts(kind), 0, i);
  }

  /** `w` occurs nowhere in `s`. */
  predicate NoOcc(s: string, w: string) {
    forall i: nat | i <= |s| :: !OccursAt(s, i, w)
  }

  /**
   * No occurrence of `w` can straddle the end of `a` and the start of `b`:
   * the last character of `a` appears in `w` only as its last character, or
   * the first character of `b` appears in `w` only as its first.
   */
  predicate Sep(a: string, b: string, w: string) {
    a == [] || b == [] || w == [] || a[|a| - 1] !in w[..|w| - 1] || b[0] !in w[1..]
  }

  lemma NoStraddle(a: string, b: string, w: string, i: nat)
    requires Sep(a, b, w)
    requires i < |a| < i + |w|
    ensures !OccursAt(a + b, i, w)
  {
    var s := a + b;
    if i + |w| <= |s| {
      var k := |a| - 1 - i;
      var piece := s[i..i + |w|];
      assert piece[k] == a[|a| - 1] && piece[k + 1] == b[0];
      if a[|a| - 1] !in w[..|w| - 1] {
        assert w[..|w| - 1][k] == w[k];
      } else {
        assert w[1..][k] == w[k + 1];
      }
    }
  }

  lemma NoOccJoin(a: string, b: string, w: string)
    requires NoOcc(a, w) && NoOcc(b, w) && Sep(a, b, w)
    ensures NoOcc(a + b, w)
  {
    var s := a + b;
    forall i: nat ensures !OccursAt(s, i, w) {
      if i + |w| > |s| {
      } else if i + |w| <= |a| {
        assert s[i..i + |w|] == a[i..i + |w|];
        assert !OccursAt(a, i, w);
      } else if i >= |a| {
        assert s[i..i + |w|] == b[i - |a|..i - |a| + |w|];
        assert !OccursAt(b, i - |a|, w);
      } else {
        NoStraddle(a, b, w, i);
      }
    }
  }

  lemma NoOccOfMissingChar(s: string, w: string, c: char)
    requires c in w && c !in s
    ensures NoOcc(s, w)
  {
    var k :| 0 <= k < |w| && w[k] == c;
    forall i: nat ensures !OccursAt(s, i, w) {
      if i + |w| <= |s| {
        assert s[i..i + |w|][k] == s[i + k];
      }
    }
  }

  predicate EndsWith(s: string, suffix: string) {
    |suffix| <= |s| && s[|s| - |suffix|..] == suffix
  }

  /** In `x=` the only `=` is the last character, so `k=` can only occur there, as a suffix. */
  lemma NoOccKeyToken(x: string, k: string)
    requires '=' !in x && '=' !in k && !EndsWith(x, k)
    ensures NoOcc(x + "=", k + "=")
  {
    var s := x + "=";
    var w := k + "=";
    forall i: nat ensures !OccursAt(s, i, w) {
      if i + |w| <= |s| {
        var piece := s[i..i + |w|];
        if i + |k| < |x| {
          assert piece[|k|] == x[i + |k|] != '=';
          assert w[|k|] == '=';
        } else {
          assert i == |x| - |k|;
          assert s[..|x|] == x;
          assert piece[..|k|] == x[|x| - |k|..];
          assert w[..|k|] == k;
        }
      }
    }
  }

  lemma MatchShift(a: string, b: string, j: nat, w: string, ok: string -> bool)
    ensures MatchAt(a + b, |a| + j, w, ok) <==> MatchAt(b, j, w, ok)
  {
    if j + |w| <= |b| {
      assert (a + b)[|a| + j..|a| + j + |w|] == b[j..j + |w|];
      assert (a + b)[|a| + j + |w|..] == b[j + |w|..];
    }
  }

  /** No match starts inside `a`, and a match in `b` up to `j` would be one in `a + b`. */
  lemma NoMatchUpTo(a: string, b: string, w: string, ok: string -> bool, j: nat)
    requires NoOcc(a, w) && Sep(a, b, w)
    requires forall i: nat | i < j :: !MatchAt(b, i, w, ok)
    ensures forall i: nat | i < |a| + j :: !MatchAt(a + b, i, w, ok)
  {
    forall i: nat | i < |a| + j ensures !MatchAt(a + b, i, w, ok) {
      if i >= |a| {
        MatchShift(a, b, i - |a|, w, ok);
      } else if i + |w| > |a + b| {
      } else if i + |w| <= |a| {
        assert (a + b)[i..i + |w|] == a[i..i + |w|];
        assert !OccursAt(a, i, w);
      } else {
        NoStraddle(a, b, w, i);
      }
    }
  }

  /** With no match inside `a` (nor straddling into `b`), the leftmost match in `a + b` is the one in `b`, shifted. */
  lemma FirstMatchSkip(a: string, b: string, w: string, ok: string -> bool, j: nat)
    requires NoOcc(a, w) && Sep(a, b, w)
    requires FirstMatch(b, w, ok, 0) == Some(j)
    ensures FirstMatch(a + b, w, ok, 0) == Some(|a| + j)
  {
    FirstMatchSound(b, w, ok, 0);
    NoMatchUpTo(a, b, w, ok, j);
    MatchShift(a, b, j, w, ok);
    FirstMatchFrom(a + b, w, ok, 0, |a| + j);
  }

  /** ... and without a match in `b` there is none in `a + b`. */
  lemma FirstMatchSkipNone(a: string, b: string, w: string, ok: string -> bool)
    requires NoOcc(a, w) && Sep(a, b, w)
    requires FirstMatch(b, w, ok, 0).None?
    ensures FirstMatch(a + b, w, ok, 0).None?
  {
    FirstMatchSound(b, w, ok, 0);
    NoMatchUpTo(a, b, w, ok, |b| + 1);
    forall i: nat ensures !MatchAt(a + b, i, w, ok) {
      if i >= |a| + |b| + 1 { assert !OccursAt(a + b, i, w); }
    }
    FirstMatchNone(a + b, w, ok, 0);
  }

  /** `Find` in terms of the leftmost match (`-1` for none, like `indexOf`). */
  lemma FindFrom(s: string, w: string, kind: Capture, i: int)
    requires var first := FirstMatch(s, w, Accepts(kind), 0); if i < 0 then first.None? else first == Some(i as nat)
    ensures i >= 0 ==> i + |w| <= |s| && Find(s, w, kind) == Tail(kind, s[i + |w|..])
    ensures i < 0 ==> Find(s, w, kind) == None
  {
  }

  lemma FindShifted(a: string, b: string, w: string, kind: Capture, j: nat)
    requires FirstMatch(b, w, Accepts(kind), 0) == Some(j)
    requires FirstMatch(a + b, w, Accepts(kind), 0) == Some(|a| + j)
    ensures Find(a + b, w, kind) == Find(b, w, kind)
  {
    FindFrom(b, w, kind, j);
    FindFrom(a + b, w, kind, |a| + j);
    assert (a + b)[|a| + j + |w|..] == b[j + |w|..];
  }

  /** A prefix in which the anchor does not occur (and cannot straddle into `b`) does not change the result. */
  lemma FindSkip(a: string, b: string, w: string, kind: Capture)
    requires NoOcc(a, w) && Sep(a, b, w)
    ensures Find(a + b, w, kind) == Find(b, w, kind)
  {
    var first := FirstMatch(b, w, Accepts(kind), 0);
    if first.Some? {
      FirstMatchSkip(a, b, w, Accepts(kind), first.value);
      FindShifted(a, b, w, kind, first.value);
    } else {
      FirstMatchSkipNone(a, b, w, Accepts(kind));
      FindFrom(b, w, kind, -1);
      FindFrom(a + b, w, kind, -1);
    }
  }

  /** A line that starts with the anchor and a matching capture yields that capture. */
  lemma FindHere(w: string, t: string, kind: Capture)
    requires Tail(kind, t).Some?
    ensures Find(w + t, w, kind) == Tail(kind, t)
  {
    assert (w + t)[0..|w|] == w;
    assert (w + t)[|w|..] == t;
    FindAt(w + t, w, kind, 0);
  }

  /** Without an occurrence of the anchor nothing is found. */
  lemma FindAbsent(s: string, w: string, kind: Capture)
    requires NoOcc(s, w)
    ensures Find(s, w, kind) == None
  {
    forall j: nat ensures !MatchAt(s, j, w, Accepts(kind)) {
      if j <= |s| { assert !OccursAt(s, j, w); }
    }
    FindNone(s, w, kind);
  }

  /** The attribute token ` w…` after a prefix without `w`: the capture after the token's anchor is what is found. */
  lemma FindToken(a: string, w: string, t: string, kind: Capture)
    requires w != [] && ' ' !in w && NoOcc(a, w)
    requires Tail(kind, t).Some?
    ensures Find(a + (" " + w + t), w, kind) == Tail(kind, t)
  {
    assert ' ' !in w[1..] && ' ' !in w[..|w| - 1] by {
      assert forall i | 0 <= i < |w| - 1 :: w[..|w| - 1][i] == w[i];
      assert forall i | 1 <= i < |w| :: w[i] == w[1..][i - 1];
    }
    NoOccOfMissingChar(" ", w, w[0]);
    var token := w + t;
    FindHere(w, t, kind);
    var spaced := " " + token;
    FindSkip(" ", token, w, kind);
    assert Find(spaced, w, kind) == Tail(kind, t);
    assert spaced[0] == ' ';
    FindSkip(a, spaced, w, kind);
    SpaceAssoc(w, t);
  }

  /** A digits capture is made of digits, so `Number.parseInt` reads all of it. */
  lemma FindDigitsSound(s: string, w: string)
    ensures Find(s, w, Digits).Some? ==> AllDigits(Find(s, w, Digits).value)
  {
    var first := FirstMatch(s, w, Accepts(Digits), 0);
    if first.Some? {
      DigitRunSound(s[first.value + |w|..]);
    }
  }

  /** The anchor `[c]` right after a prefix without `c`: what follows it is captured. */
  lemma FindAfterChar(a: string, c: char, t: string, kind: Capture)
    requires c !in a && Tail(kind, t).Some?
    ensures Find(a + [c] + t, [c], kind) == Tail(kind, t)
  {
    NoOccOfMissingChar(a, [c], c);
    FindHere([c], t, kind);
    FindSkip(a, [c] + t, [c], kind);
    assert a + [c] + t == a + ([c] + t);
  }

  /** Without any `c` in the line, the anchor `[c]` finds nothing. */
  lemma FindNoChar(s: string, c: char, kind: Capture)
    requires c !in s
    ensures Find(s, [c], kind) == None
  {
    NoOccOfMissingChar(s, [c], c);
    FindAbsent(s, [c], kind);
  }

  lemma SpaceAssoc(w: string, t: string)
    ensures " " + w + t == " " + (w + t)
  {
  }
}
