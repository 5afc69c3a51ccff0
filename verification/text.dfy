/**
 * The JavaScript string built-ins the playlist code relies on: `trim`,
 * `startsWith`, `split(/\r?\n/)`, `join("\n")`, decimal formatting of
 * integers and `Number.parseInt(digits, 10)`.
 */
module Text {
  import opened Wrappers

  /** ECMAScript WhiteSpace and LineTerminator code points: what `trim` removes and what the regex class `\s` matches. */
  predicate IsWhitespace(c: char) {
    c == '\t' || c == '\n' || c == '\U{000B}' || c == '\U{000C}' || c == '\r' || c == ' '
    || c == '\U{00A0}' || c == '\U{1680}' || ('\U{2000}' <= c <= '\U{200A}')
    || c == '\U{2028}' || c == '\U{2029}' || c == '\U{202F}' || c == '\U{205F}'
    || c == '\U{3000}' || c == '\U{FEFF}'
  }

  /** ECMAScript LineTerminator code points: the characters the regex `.` does not match. */
  predicate IsLineTerminator(c: char) {
    c == '\n' || c == '\r' || c == '\U{2028}' || c == '\U{2029}'
  }

  predicate IsBlank(s: string) {
    forall i | 0 <= i < |s| :: IsWhitespace(s[i])
  }

  /** Neither end of `s` is whitespace, so `trim` leaves it as it is. */
  predicate IsTrimmed(s: string) {
    s == [] || (!IsWhitespace(s[0]) && !IsWhitespace(s[|s| - 1]))
  }

  /** `String.prototype.trim`: `s` with its leading and trailing whitespace cut off. */
  function Trim(s: string): (r: string)
    ensures IsTrimmed(r)
    ensures r == [] <==> IsBlank(s)
    ensures |r| <= |s|
    decreases |s|
  {
    if |s| > 0 && IsWhitespace(s[0]) then
      BlankFront(s);
      Trim(s[1..])
    else if |s| > 0 && IsWhitespace(s[|s| - 1]) then
      BlankBack(s);
      Trim(s[..|s| - 1])
    else
      s
  }

  lemma BlankFront(s: string)
    requires |s| > 0 && IsWhitespace(s[0])
    ensures IsBlank(s) <==> IsBlank(s[1..])
  {
    assert forall i | 1 <= i < |s| :: s[i] == s[1..][i - 1];
  }

  lemma BlankBack(s: string)
    requires |s| > 0 && IsWhitespace(s[|s| - 1])
    ensures IsBlank(s) <==> IsBlank(s[..|s| - 1])
  {
    assert forall i | 0 <= i < |s| - 1 :: s[i] == s[..|s| - 1][i];
  }

  /**
   * What `trim` removes: the result is a piece of `s` with only whitespace
   * before it and after it.
   */
  lemma {:induction false} TrimInfix(s: string) returns (a: nat, b: nat)
    ensures a <= b <= |s| && Trim(s) == s[a..b] && IsBlank(s[..a]) && IsBlank(s[b..])
    decreases |s|
  {
    if |s| > 0 && IsWhitespace(s[0]) {
      var t := s[1..];
      var a', b' := TrimInfix(t);
      a, b := a' + 1, b' + 1;
      assert t[a'..b'] == s[a..b];
      forall i | 0 <= i < a ensures IsWhitespace(s[..a][i]) {
        if i > 0 {
          assert s[..a][i] == t[..a'][i - 1];
        }
      }
      assert s[b..] == t[b'..];
    } else if |s| > 0 && IsWhitespace(s[|s| - 1]) {
      var t := s[..|s| - 1];
      a, b := TrimInfix(t);
      assert t[a..b] == s[a..b];
      assert s[..a] == t[..a];
      forall i | 0 <= i < |s| - b ensures IsWhitespace(s[b..][i]) {
        if b + i < |s| - 1 {
          assert s[b..][i] == t[b..][i];
        }
      }
    } else {
      a, b := 0, |s|;
    }
  }

  lemma TrimOfTrimmed(s: string)
    requires IsTrimmed(s)
    ensures Trim(s) == s
  {
  }

  predicate StartsWith(s: string, prefix: string) {
    |prefix| <= |s| && s[..|prefix|] == prefix
  }

  /** `s.indexOf(c)`: the first index of `c` in `s`, if any (`IndexOfSound` states it). */
  function IndexOf(s: string, c: char): (r: Option<nat>)
    ensures r.Some? ==> r.value < |s|
    decreases |s|
  {
    if s == [] then None
    else if s[0] == c then Some(0)
    else match IndexOf(s[1..], c)
      case None => None
      case Some(i) => Some(i + 1)
  }

  lemma {:induction false} IndexOfSound(s: string, c: char)
    ensures IndexOf(s, c).None? ==> c !in s
    ensures IndexOf(s, c).Some? ==> s[IndexOf(s, c).value] == c && c !in s[..IndexOf(s, c).value]
    decreases |s|
  {
    if s != [] && s[0] != c {
      IndexOfSound(s[1..], c);
      assert s == [s[0]] + s[1..];
      match IndexOf(s[1..], c)
      case None =>
      case Some(i) =>
        assert s[..i + 1] == [s[0]] + s[1..][..i];
    }
  }

  lemma {:induction false} IndexOfAfter(a: string, c: char, b: string)
    requires c !in a
    ensures IndexOf(a + [c] + b, c) == Some(|a|)
    decreases |a|
  {
    var s := a + [c] + b;
    if a != [] {
      assert s[0] == a[0] != c;
      assert s[1..] == a[1..] + [c] + b;
      IndexOfAfter(a[1..], c, b);
    }
  }

  /** The piece before a `\n` loses one trailing `\r`: the `\r?` of `/\r?\n/`. */
  function DropCarriageReturn(p: string): string {
    if |p| > 0 && p[|p| - 1] == '\r' then p[..|p| - 1] else p
  }

  /** `s.split(/\r?\n/)`. */
  function SplitLines(s: string): (r: seq<string>)
    ensures |r| > 0
    ensures forall i | 0 <= i < |r| :: '\n' !in r[i]
    decreases |s|
  {
    IndexOfSound(s, '\n');
    match IndexOf(s, '\n')
    case None => [s]
    case Some(i) =>
      var head := DropCarriageReturn(s[..i]);
      assert '\n' !in head by {
        if |s[..i]| > 0 && s[..i][|s[..i]| - 1] == '\r' {
          assert forall k | 0 <= k < |head| :: head[k] == s[..i][k];
        }
      }
      [head] + SplitLines(s[i + 1..])
  }

  /** `lines.join("\n")`. */
  function Join(lines: seq<string>): string {
    if |lines| == 0 then ""
    else if |lines| == 1 then lines[0]
    else lines[0] + "\n" + Join(lines[1..])
  }

  /** A line that `split(/\r?\n/)` gives back unchanged once it is followed by `\n`. */
  predicate IsPlainLine(l: string) {
    '\n' !in l && (l == [] || l[|l| - 1] != '\r')
  }

  lemma SplitLinesAfter(a: string, b: string)
    requires IsPlainLine(a)
    ensures SplitLines(a + "\n" + b) == [a] + SplitLines(b)
  {
    var s := a + "\n" + b;
    IndexOfAfter(a, '\n', b);
    assert s[..|a|] == a;
    assert s[|a| + 1..] == b;
  }

  /** Joining plain lines with `\n` and appending one `\n` splits back into the lines and one empty piece. */
  lemma {:induction false} SplitJoin(lines: seq<string>)
    requires |lines| > 0
    requires forall i | 0 <= i < |lines| :: IsPlainLine(lines[i])
    ensures SplitLines(Join(lines) + "\n") == lines + [""]
  {
    if |lines| == 1 {
      SplitLinesAfter(lines[0], "");
      assert Join(lines) + "\n" == lines[0] + "\n" + "";
      assert SplitLines("") == [""];
    } else {
      var rest := Join(lines[1..]) + "\n";
      assert Join(lines) + "\n" == lines[0] + "\n" + rest;
      SplitLinesAfter(lines[0], rest);
      SplitJoin(lines[1..]);
      assert lines == [lines[0]] + lines[1..];
    }
  }

  predicate IsDigit(c: char) {
    '0' <= c <= '9'
  }

  predicate AllDigits(s: string) {
    forall i | 0 <= i < |s| :: IsDigit(s[i])
  }

  function DigitChar(d: nat): (c: char)
    requires d < 10
    ensures IsDigit(c) && (c as int) - ('0' as int) == d
  {
    (('0' as int) + d) as char
  }

  /** The decimal text of a natural number, as a template literal `${n}` writes it. */
  function DecimalString(n: nat): (r: string)
    ensures |r| > 0 && AllDigits(r)
    decreases n
  {
    if n < 10 then [DigitChar(n)] else DecimalString(n / 10) + [DigitChar(n % 10)]
  }

  /** `Number.parseInt(s, 10)` on a string of decimal digits. */
  function DecimalValue(s: string): nat
    requires AllDigits(s)
    decreases |s|
  {
    if s == [] then 0
    else DecimalValue(s[..|s| - 1]) * 10 + ((s[|s| - 1] as int) - ('0' as int))
  }

  /** Parsing what `DecimalString` writes gives the number back. */
  lemma {:induction false} DecimalRoundTrip(n: nat)
    ensures DecimalValue(DecimalString(n)) == n
    decreases n
  {
    if n >= 10 {
      var s := DecimalString(n);
      assert s[..|s| - 1] == DecimalString(n / 10);
      DecimalRoundTrip(n / 10);
    }
  }
}
