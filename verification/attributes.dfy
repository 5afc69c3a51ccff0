/**
 * The three extractor tables of lib/m3u8-parser.ts and the attribute
 * tokens the generator writes from the same keys. A line made of a head,
 * a run of tokens and a tail gives back, for every key, the value of the
 * token written for it (`FindInTokens`): this is what makes the generator
 * and the parser inverse to each other.
 */
module Attributes {
  import opened Wrappers
  import opened Text
  import opened Scan
  import opened Tables

  /** How the generator writes a value: in quotes for quoted fields, bare otherwise. */
  function Payload(kind: Capture, v: string): string {
    if kind == Quoted then "\"" + v + "\"" else v
  }

  /** The attribute token ` key="value"` or ` key=value`. */
  function Token(f: Field, v: string): string {
    " " + Anchor(f) + Payload(f.kind, v)
  }

  /** A value the field's capture reads back unchanged. */
  predicate Fits(kind: Capture, v: string) {
    v != [] &&
    match kind
    case Quoted => '"' !in v
    case Digits => AllDigits(v)
    case NonSpace => forall i | 0 <= i < |v| :: !IsWhitespace(v[i])
    case Rest => NoLineTerminator(v)
  }

  /** What may follow a value for its capture to stop at the value's end. */
  predicate Stops(kind: Capture, more: string) {
    more == [] || kind == Quoted || (kind != Rest && more[0] == ' ')
  }

  lemma CaptureOfPayload(kind: Capture, v: string, more: string)
    requires Fits(kind, v) && Stops(kind, more)
    ensures Tail(kind, Payload(kind, v) + more) == Some(v)
  {
    match kind
    case Quoted => CaptureQuoted(v, more);
    case Digits => CaptureDigits(v, more);
    case NonSpace => CaptureNonSpace(v, more);
    case Rest => assert Payload(kind, v) + more == v;
  }

  lemma CaptureQuoted(v: string, more: string)
    requires Fits(Quoted, v)
    ensures Tail(Quoted, "\"" + v + "\"" + more) == Some(v)
  {
    var s := "\"" + v + "\"" + more;
    assert s == "\"" + (v + "\"" + more);
    assert s[1..] == v + ("\"" + more);
    IndexOfAfter(v, '"', more);
    assert IndexOf(s[1..], '"') == Some(|v|);
    assert s[1..|v| + 1] == v;
  }

  lemma CaptureDigits(v: string, more: string)
    requires Fits(Digits, v) && Stops(Digits, more)
    ensures Tail(Digits, v + more) == Some(v)
  {
    DigitRunOf(v, more);
    assert (v + more)[..|v|] == v;
  }

  lemma CaptureNonSpace(v: string, more: string)
    requires Fits(NonSpace, v) && Stops(NonSpace, more)
    ensures Tail(NonSpace, v + more) == Some(v)
  {
    NonSpaceRunOf(v, more);
    assert (v + more)[..|v|] == v;
  }

  lemma {:induction false} DigitRunOf(v: string, more: string)
    requires AllDigits(v) && (more == [] || !IsDigit(more[0]))
    ensures DigitRun(v + more) == |v|
    decreases |v|
  {
    if v != [] {
      assert (v + more)[1..] == v[1..] + more;
      DigitRunOf(v[1..], more);
    } else {
      assert v + more == more;
    }
  }

  lemma {:induction false} NonSpaceRunOf(v: string, more: string)
    requires (forall i | 0 <= i < |v| :: !IsWhitespace(v[i])) && (more == [] || IsWhitespace(more[0]))
    ensures NonSpaceRun(v + more) == |v|
    decreases |v|
  {
    if v != [] {
      assert (v + more)[1..] == v[1..] + more;
      NonSpaceRunOf(v[1..], more);
    } else {
      assert v + more == more;
    }
  }

  /** A table row with the value the generator writes for it, `None` when it leaves the attribute out. */
  datatype Slot = Slot(field: Field, value: Option<string>)

  /** What the generator appends for a slot. */
  function Entry(s: Slot): string {
    if s.value.Some? then Token(s.field, s.value.value) else ""
  }

  /** The tokens of the present slots, in order. */
  function Tokens(slots: seq<Slot>): string {
    if slots == [] then "" else Entry(slots[0]) + Tokens(slots[1..])
  }

  lemma TokensSnoc(slots: seq<Slot>, s: Slot)
    ensures Tokens(slots + [s]) == Tokens(slots) + Entry(s)
  {
    if slots != [] {
      assert (slots + [s])[1..] == slots[1..] + [s];
      TokensSnoc(slots[1..], s);
    } else {
      assert Tokens([s]) == Entry(s) + Tokens([]);
    }
  }

  lemma TokensStart(slots: seq<Slot>)
    ensures Tokens(slots) == [] || Tokens(slots)[0] == ' '
  {
    if slots != [] {
      TokensStart(slots[1..]);
    }
  }

  /** The first value written under `key`: what `line.match` finds, as `FindInTokens` proves. */
  function Lookup(slots: seq<Slot>, key: string): (r: Option<string>)
    ensures r.Some? <==> exists i | 0 <= i < |slots| :: slots[i].field.key == key && slots[i].value.Some?
    ensures r.Some? ==> exists i | 0 <= i < |slots| :: slots[i].field.key == key && slots[i].value == r
  {
    if slots == [] then None
    else if slots[0].field.key == key && slots[0].value.Some? then slots[0].value
    else
      var r := Lookup(slots[1..], key);
      assert forall i | 1 <= i < |slots| :: slots[i] == slots[1..][i - 1];
      assert r.Some? ==> (exists i | 0 <= i < |slots| - 1 :: slots[1..][i].field.key == key && slots[1..][i].value == r);
      r
  }

  /** The slot may stand beside the token searched for with `f`. */
  predicate Compatible(s: Slot, f: Field) {
    GoodKey(s.field.key) && s.field.kind != Rest &&
    (s.value.Some? ==> Fits(s.field.kind, s.value.value)) &&
    if s.field.key == f.key then s.field == f
    else !EndsWith(s.field.key, f.key) && (s.value.Some? ==> NoOcc(s.value.value, Anchor(f)))
  }

  lemma AnchorParts(f: Field)
    requires GoodKey(f.key)
    ensures var w := Anchor(f); w[..|w| - 1] == f.key && ' ' !in w && '"' !in w && ',' !in w && '=' in w
    ensures var w := Anchor(f); '"' !in w[1..] && ' ' !in w[1..] && ',' !in w[1..]
  {
    var w := Anchor(f);
    assert forall c :: c in w[1..] ==> c in w;
  }

  /** A token for another key holds no anchor of `f`. */
  lemma NoOccToken(g: Field, v: string, f: Field)
    requires GoodKey(g.key) && GoodKey(f.key) && !EndsWith(g.key, f.key)
    requires NoOcc(v, Anchor(f))
    ensures NoOcc(Token(g, v), Anchor(f))
  {
    var w := Anchor(f);
    AnchorParts(f);
    NoOccOfMissingChar(" ", w, '=');
    NoOccKeyToken(g.key, f.key);
    NoOccJoin(" ", Anchor(g), w);
    var front := " " + Anchor(g);
    assert front[|front| - 1] == '=';
    if g.kind == Quoted {
      NoOccOfMissingChar("\"", w, '=');
      NoOccJoin(front, "\"", w);
      NoOccJoin(front + "\"", v, w);
      NoOccJoin(front + "\"" + v, "\"", w);
      QuoteAssoc(front, v);
    } else {
      NoOccJoin(front, v, w);
    }
  }

  lemma QuoteAssoc(front: string, v: string)
    ensures front + "\"" + v + "\"" == front + ("\"" + v + "\"")
  {
  }

  lemma TokenAssoc(head: string, e: string, rest: string, tail: string)
    ensures head + (e + rest) + tail == (head + e) + rest + tail
  {
  }

  lemma HereAssoc(head: string, f: Field, p: string, rest: string, tail: string)
    ensures head + (" " + Anchor(f) + p + rest) + tail == head + (" " + Anchor(f) + (p + (rest + tail)))
  {
  }

  /**
   * In a line made of `head`, the tokens of `slots` and `tail`, the pattern
   * of `f` captures the first value written under `f`'s key, and nothing
   * when no value is written under it.
   */
  lemma {:induction false} FindInTokens(head: string, slots: seq<Slot>, tail: string, f: Field)
    requires GoodKey(f.key) && f.kind != Rest
    requires NoOcc(head, Anchor(f)) && NoOcc(tail, Anchor(f))
    requires tail == [] || (tail[0] == ',' && f.kind == Quoted)
    requires forall i | 0 <= i < |slots| :: Compatible(slots[i], f)
    ensures Find(head + Tokens(slots) + tail, Anchor(f), f.kind) == Lookup(slots, f.key)
    decreases |slots|
  {
    var w := Anchor(f);
    AnchorParts(f);
    if slots == [] {
      assert head + Tokens(slots) + tail == head + tail;
      NoOccJoin(head, tail, w);
      FindAbsent(head + tail, w, f.kind);
    } else {
      var s, rest := slots[0], slots[1..];
      assert Compatible(s, f);
      assert forall i | 0 <= i < |rest| :: rest[i] == slots[i + 1];
      TokenAssoc(head, Entry(s), Tokens(rest), tail);
      if s.value.None? {
        assert head + Entry(s) == head;
        FindInTokens(head, rest, tail, f);
      } else if s.field.key == f.key {
        var v := s.value.value;
        var more := Tokens(rest) + tail;
        TokensStart(rest);
        assert Stops(f.kind, more) by {
          if Tokens(rest) != [] { assert more[0] == Tokens(rest)[0]; }
        }
        CaptureOfPayload(f.kind, v, more);
        HereAssoc(head, f, Payload(f.kind, v), Tokens(rest), tail);
        FindToken(head, w, Payload(f.kind, v) + more, f.kind);
      } else {
        var v := s.value.value;
        NoOccToken(s.field, v, f);
        assert Entry(s)[0] == ' ';
        NoOccJoin(head, Entry(s), w);
        FindInTokens(head + Entry(s), rest, tail, f);
      }
    }
  }
}
