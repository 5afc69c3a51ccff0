/**
 * Every line the generator writes is read back by the extractor of its
 * kind: the config of a `buildConfigLine` line, the attributes and title
 * of a `buildExtinfLine` line and the option of a `buildVlcOptionLines`
 * line, under conditions on the values that keep the patterns from
 * matching inside them.
 */
module LineRoundTrip {
  import opened Wrappers
  import opened Text
  import opened Scan
  import opened Tables
  import opened Attributes
  import opened Types
  import opened Extract
  import opened Parser
  import opened Generator

  // ----- Tokens -----

  /** `v` holds no anchor of the table. */
  predicate NoAnchors(v: string, t: seq<Field>) {
    forall j | 0 <= j < |t| :: NoOcc(v, Anchor(t[j]))
  }

  /** Slot `i` is written for row `i` of `t`, with a value its own pattern reads back and that holds no anchor of `t`. */
  predicate Readable(slots: seq<Slot>, t: seq<Field>) {
    |slots| == |t| &&
    forall i | 0 <= i < |t| ::
      slots[i].field == t[i] &&
      (slots[i].value.Some? ==> Fits(t[i].kind, slots[i].value.value) && NoAnchors(slots[i].value.value, t))
  }

  /** A table none of whose rows captures the rest of the line. */
  predicate Bounded(t: seq<Field>) {
    forall i | 0 <= i < |t| :: t[i].kind != Rest
  }

  lemma ReadableCompatible(slots: seq<Slot>, t: seq<Field>, j: nat)
    requires GoodTable(t) && Bounded(t) && Readable(slots, t) && j < |t|
    ensures forall i | 0 <= i < |slots| :: Compatible(slots[i], t[j])
  {
    forall i | 0 <= i < |slots| ensures Compatible(slots[i], t[j]) {
      KeyCharsGood(t[i].key);
      if i != j {
        EndsDifferNotEndsWith(t[i].key, t[j].key);
      }
    }
  }

  /** With distinct keys, the first value under row `j`'s key is row `j`'s own. */
  lemma LookupRow(slots: seq<Slot>, t: seq<Field>, j: nat)
    requires GoodTable(t) && Readable(slots, t) && j < |t|
    ensures Lookup(slots, t[j].key) == slots[j].value
  {
    assert slots[j].field.key == t[j].key;
  }

  /** In a line made of a head without `=` and the tokens of readable slots, row `j`'s pattern finds row `j`'s value. */
  lemma ReadRow(head: string, slots: seq<Slot>, t: seq<Field>, j: nat, tail: string)
    requires GoodTable(t) && Bounded(t) && Readable(slots, t) && j < |t|
    requires '=' !in head
    requires tail == [] || (tail[0] == ',' && t[j].kind == Quoted && NoAnchors(tail, t))
    ensures Find(head + Tokens(slots) + tail, Anchor(t[j]), t[j].kind) == slots[j].value
  {
    var w := Anchor(t[j]);
    KeyCharsGood(t[j].key);
    AnchorParts(t[j]);
    NoOccOfMissingChar(head, w, '=');
    assert NoOcc(tail, w);
    ReadableCompatible(slots, t, j);
    FindInTokens(head, slots, tail, t[j]);
    LookupRow(slots, t, j);
  }

  /** A character that is not in the syntax of a token nor in its key or value is not in the tokens. */
  lemma {:induction false} TokensAvoid(slots: seq<Slot>, c: char)
    requires c != ' ' && c != '=' && c != '"'
    requires forall i | 0 <= i < |slots| :: c !in slots[i].field.key && (slots[i].value.Some? ==> c !in slots[i].value.value)
    ensures c !in Tokens(slots)
    decreases |slots|
  {
    if slots != [] {
      assert forall i | 0 <= i < |slots| - 1 :: slots[1..][i] == slots[i + 1];
      TokensAvoid(slots[1..], c);
      var s := slots[0];
      if s.value.Some? {
        var v := s.value.value;
        assert Token(s.field, v) == " " + s.field.key + "=" + Payload(s.field.kind, v);
      }
    }
  }

  /** The tokens of values that their captures read back end with a character that is not whitespace. */
  lemma {:induction false} TokensEnd(slots: seq<Slot>)
    requires forall i | 0 <= i < |slots| :: slots[i].field.kind != Rest && (slots[i].value.Some? ==> Fits(slots[i].field.kind, slots[i].value.value))
    ensures Tokens(slots) == [] || !IsWhitespace(Tokens(slots)[|Tokens(slots)| - 1])
    decreases |slots|
  {
    if slots != [] {
      assert forall i | 0 <= i < |slots| - 1 :: slots[1..][i] == slots[i + 1];
      TokensEnd(slots[1..]);
      EntryEnd(slots[0]);
      EndOfConcat(Entry(slots[0]), Tokens(slots[1..]));
    }
  }

  /** A token whose value its capture reads back ends with a character that is not whitespace. */
  lemma EntryEnd(s: Slot)
    requires s.field.kind != Rest && (s.value.Some? ==> Fits(s.field.kind, s.value.value))
    ensures Entry(s) == [] || !IsWhitespace(Entry(s)[|Entry(s)| - 1])
  {
    if s.value.Some? {
      var v := s.value.value;
      var p := Payload(s.field.kind, v);
      var e := " " + Anchor(s.field) + p;
      assert e[|e| - 1] == p[|p| - 1];
    }
  }

  /** The end of a concatenation is the end of its second part, or of its first when the second is empty. */
  lemma EndOfConcat(e: string, rest: string)
    requires e == [] || !IsWhitespace(e[|e| - 1])
    requires rest == [] || !IsWhitespace(rest[|rest| - 1])
    ensures e + rest == [] || !IsWhitespace((e + rest)[|e + rest| - 1])
  {
    if rest != [] {
      assert (e + rest)[|e + rest| - 1] == rest[|rest| - 1];
    }
  }

  // ----- Config lines -----

  /** A quoted header value: no quote, no line break and no anchor of the config table. */
  predicate QuotedConfigValue(o: Option<string>) {
    o.Some? ==> '"' !in o.value && NoLineTerminator(o.value) && NoAnchors(o.value, ConfigTable)
  }

  /** The bare `aspect-ratio` value: no whitespace and no anchor of the config table. */
  predicate BareConfigValue(o: Option<string>) {
    o.Some? ==> (forall k | 0 <= k < |o.value| :: !IsWhitespace(o.value[k])) && NoAnchors(o.value, ConfigTable)
  }

  /** A config whose line `extractConfigFromExtM3U` reads back. */
  predicate WritableConfig(c: PlaylistConfig) {
    QuotedConfigValue(c.urlTvg) && QuotedConfigValue(c.refresh) && BareConfigValue(c.aspectRatio)
  }

  /** The config as it comes back: an empty string is not written, so it is read as missing. */
  function NormalConfig(c: PlaylistConfig): PlaylistConfig {
    c.(urlTvg := NonEmpty(c.urlTvg), refresh := NonEmpty(c.refresh), aspectRatio := NonEmpty(c.aspectRatio))
  }

  lemma DigitsHaveNoAnchor(n: nat, t: seq<Field>)
    requires KeysOf(t)
    ensures NoAnchors(DecimalString(n), t)
  {
    var d := DecimalString(n);
    forall k | 0 <= k < |d| ensures d[k] != '=' {
      assert IsDigit(d[k]);
    }
    forall j | 0 <= j < |t| ensures NoOcc(d, Anchor(t[j])) {
      NoOccOfMissingChar(d, Anchor(t[j]), '=');
    }
  }

  /** Slot `i` of `buildConfigLine` writes row `i` of the table. */
  lemma ConfigSlotFields(c: PlaylistConfig)
    ensures |ConfigSlots(c)| == |ConfigTable|
    ensures forall i | 0 <= i < |ConfigTable| :: ConfigSlots(c)[i].field == ConfigTable[i]
  {
  }

  lemma ConfigReadable(c: PlaylistConfig)
    requires WritableConfig(c)
    ensures Readable(ConfigSlots(c), ConfigTable)
  {
    ConfigSlotFields(c);
    ConfigKeys();
    var s := ConfigSlots(c);
    forall i | 0 <= i < |ConfigTable| && s[i].value.Some?
      ensures Fits(ConfigTable[i].kind, s[i].value.value) && NoAnchors(s[i].value.value, ConfigTable)
    {
      if ConfigTable[i].kind == Digits {
        ConfigNumberSlot(c, i);
        DigitsHaveNoAnchor(ConfigProperty(c, i).value.number, ConfigTable);
      } else {
        ConfigTextSlot(c, i);
      }
    }
  }

  lemma ConfigNumberSlot(c: PlaylistConfig, i: nat)
    requires i < |ConfigTable| && ConfigTable[i].kind == Digits && ConfigSlots(c)[i].value.Some?
    ensures ConfigProperty(c, i).Some? && ConfigProperty(c, i).value.Number?
    ensures ConfigSlots(c)[i].value == Some(DecimalString(ConfigProperty(c, i).value.number))
  {
    match i
    case 1 =>
    case 3 =>
    case 4 =>
    case 6 =>
  }

  lemma ConfigTextSlot(c: PlaylistConfig, i: nat)
    requires i < |ConfigTable| && ConfigTable[i].kind != Digits && ConfigSlots(c)[i].value.Some?
    requires WritableConfig(c)
    ensures ConfigSlots(c)[i].value.value != []
    ensures Fits(ConfigTable[i].kind, ConfigSlots(c)[i].value.value) && NoAnchors(ConfigSlots(c)[i].value.value, ConfigTable)
  {
    match i
    case 0 =>
    case 2 =>
    case 5 =>
  }

  /** Row `i` of the config read back from the line. */
  lemma ConfigRowRoundTrip(c: PlaylistConfig, i: nat)
    requires WritableConfig(c) && i < |ConfigTable|
    ensures ConfigExtractor(ConfigLine(c), i) == ConfigProperty(NormalConfig(c), i)
  {
    var line := ConfigLine(c);
    ConfigTableGood();
    ConfigReadable(c);
    assert line + [] == line;
    ConfigRowsBounded();
    ReadRow("#EXTM3U", ConfigSlots(c), ConfigTable, i, []);
    assert FindField(line, ConfigTable[i]) == ConfigSlots(c)[i].value;
    ConfigRowValue(c, i);
  }

  /** No row of `CONFIG_EXTRACTORS` captures the rest of the line, and the header tag has no `=`. */
  lemma ConfigRowsBounded()
    ensures Bounded(ConfigTable) && '=' !in "#EXTM3U"
  {
  }

  lemma ConfigRowValue(c: PlaylistConfig, i: nat)
    requires i < |ConfigTable| && FindField(ConfigLine(c), ConfigTable[i]) == ConfigSlots(c)[i].value
    ensures ConfigExtractor(ConfigLine(c), i) == ConfigProperty(NormalConfig(c), i)
  {
    match i
    case 0 =>
    case 2 =>
    case 5 =>
    case 1 => DecimalNumber(c.tvgShift);
    case 3 => DecimalNumber(c.cache);
    case 4 => DecimalNumber(c.interlace);
    case 6 => DecimalNumber(c.m3uAutoload);
  }

  lemma DecimalNumber(o: Option<nat>)
    ensures o.Some? ==> DecimalValue(DecimalString(o.value)) == o.value
  {
    if o.Some? {
      DecimalRoundTrip(o.value);
    }
  }

  /** `extractConfigFromExtM3U` gives back the config `buildConfigLine` wrote, with empty strings dropped. */
  lemma ConfigLineRoundTrip(c: PlaylistConfig)
    requires WritableConfig(c)
    ensures ConfigOf(ConfigLine(c)) == NormalConfig(c)
  {
    var line := ConfigLine(c);
    ConfigOfProperties(line);
    forall i | 0 <= i < |ConfigTable| ensures ConfigProperty(ConfigOf(line), i) == ConfigProperty(NormalConfig(c), i) {
      ConfigRowRoundTrip(c, i);
    }
    ConfigByProperties(ConfigOf(line), NormalConfig(c));
  }

  /** A config line is one line, trimmed, and kept by `preprocessLines`. */
  lemma ConfigSlotsOneLine(c: PlaylistConfig)
    requires WritableConfig(c)
    ensures var s := ConfigSlots(c);
      forall i | 0 <= i < |s| :: '\n' !in s[i].field.key && (s[i].value.Some? ==> '\n' !in s[i].value.value)
  {
    var s := ConfigSlots(c);
    ConfigReadable(c);
    ConfigKeys();
    forall i | 0 <= i < |s| ensures '\n' !in s[i].field.key && (s[i].value.Some? ==> '\n' !in s[i].value.value) {
      ConfigSlotOneLine(c, i);
    }
  }

  lemma ConfigSlotOneLine(c: PlaylistConfig, i: nat)
    requires WritableConfig(c) && i < |ConfigTable|
    requires Readable(ConfigSlots(c), ConfigTable) && KeyChars(ConfigTable[i].key)
    ensures var s := ConfigSlots(c); '\n' !in s[i].field.key && (s[i].value.Some? ==> '\n' !in s[i].value.value)
  {
    var s := ConfigSlots(c);
    if s[i].value.Some? && '\n' in s[i].value.value {
      var v := s[i].value.value;
      var k :| 0 <= k < |v| && v[k] == '\n';
      if ConfigTable[i].kind == Quoted {
        ConfigQuotedLine(c, i);
      } else {
        assert Fits(ConfigTable[i].kind, v);
        assert ConfigTable[i].kind == Digits || ConfigTable[i].kind == NonSpace by { ConfigKinds(i); }
      }
    }
  }

  lemma ConfigLineShape(c: PlaylistConfig)
    requires WritableConfig(c)
    ensures IsPlainLine(ConfigLine(c)) && IsTrimmed(ConfigLine(c)) && StartsWith(ConfigLine(c), "#EXTM3U")
  {
    ConfigTokensOneLine(c);
    ConfigTokensEnd(c);
    LineShape("#EXTM3U", Tokens(ConfigSlots(c)));
  }

  /** A head and a tail that each stay on one line, with no white space at either end, make a trimmed line. */
  lemma LineShape(head: string, t: string)
    requires head != [] && !IsWhitespace(head[0]) && '\n' !in head && '\n' !in t
    requires t == [] || !IsWhitespace(t[|t| - 1])
    requires t == [] ==> !IsWhitespace(head[|head| - 1])
    ensures IsPlainLine(head + t) && IsTrimmed(head + t) && StartsWith(head + t, head)
  {
    var line := head + t;
    assert line[..|head|] == head;
    assert line[0] == head[0];
    if t != [] {
      assert line[|line| - 1] == t[|t| - 1];
    }
  }

  lemma ConfigTokensOneLine(c: PlaylistConfig)
    requires WritableConfig(c)
    ensures '\n' !in Tokens(ConfigSlots(c))
  {
    ConfigSlotsOneLine(c);
    TokensAvoid(ConfigSlots(c), '\n');
  }

  lemma ConfigTokensEnd(c: PlaylistConfig)
    requires WritableConfig(c)
    ensures Tokens(ConfigSlots(c)) == [] || !IsWhitespace(Tokens(ConfigSlots(c))[|Tokens(ConfigSlots(c))| - 1])
  {
    var s := ConfigSlots(c);
    ConfigReadable(c);
    ConfigTableKinds();
    TokensEnd(s);
  }

  lemma ConfigKinds(i: nat)
    requires i < |ConfigTable|
    ensures ConfigTable[i].kind != Rest
  {
  }

  lemma ConfigTableKinds()
    ensures Bounded(ConfigTable)
  {
  }

  lemma ConfigQuotedLine(c: PlaylistConfig, i: nat)
    requires WritableConfig(c) && i < |ConfigTable| && ConfigTable[i].kind == Quoted && ConfigSlots(c)[i].value.Some?
    ensures NoLineTerminator(ConfigSlots(c)[i].value.value)
  {
    match i
    case 0 =>
    case 2 =>
  }

  // ----- #EXTINF lines -----

  /** A quoted attribute of an `#EXTINF` line: no quote, no comma, no line break and no anchor of the channel table. */
  predicate AttributeValue(o: Option<string>) {
    o.Some? ==> '"' !in o.value && ',' !in o.value && NoLineTerminator(o.value) && NoAnchors(o.value, ChannelTable)
  }

  /** A title that `,(.+)$` and `trim` give back: non-empty, trimmed, on one line, and without an anchor of the channel table. */
  predicate WritableTitle(title: string) {
    title != [] && IsTrimmed(title) && NoLineTerminator(title) && NoAnchors(title, ChannelTable)
  }

  /** A channel whose `#EXTINF` line `extractChannelFromExtInf` reads back. */
  predicate WritableAttributes(ch: ChannelInfo) {
    WritableTitle(ch.title)
    && AttributeValue(ch.tvgId) && AttributeValue(ch.groupTitle) && AttributeValue(ch.tvgLogo)
    && AttributeValue(ch.catchup) && AttributeValue(ch.catchupDays) && AttributeValue(ch.catchupSource)
  }

  /** What an `#EXTINF` line announces: the title and the six attributes, empty strings dropped. */
  function Announced(ch: ChannelInfo): Partial {
    Partial(
      title := Some(ch.title),
      url := None,
      tvgId := NonEmpty(ch.tvgId),
      tvgLogo := NonEmpty(ch.tvgLogo),
      groupTitle := NonEmpty(ch.groupTitle),
      catchup := NonEmpty(ch.catchup),
      catchupDays := NonEmpty(ch.catchupDays),
      catchupSource := NonEmpty(ch.catchupSource),
      userAgent := None,
      referrer := None)
  }

  lemma ChannelSlotFields(ch: ChannelInfo)
    ensures |ChannelSlots(ch)| == |ChannelTable|
    ensures forall i | 0 <= i < |ChannelTable| :: ChannelSlots(ch)[i].field == ChannelTable[i]
  {
  }

  /** Slot `i` of `buildExtinfLine` writes what row `i` of the table reads back into the announced channel. */
  lemma ChannelSlotValue(ch: ChannelInfo, i: nat)
    requires i < |ChannelTable|
    ensures ChannelSlots(ch)[i].value == ChannelProperty(Announced(ch), i)
    ensures WritableAttributes(ch) ==> AttributeValue(ChannelSlots(ch)[i].value)
  {
    match i
    case 0 =>
    case 1 =>
    case 2 =>
    case 3 =>
    case 4 =>
    case 5 =>
  }

  lemma ChannelReadable(ch: ChannelInfo)
    requires WritableAttributes(ch)
    ensures Readable(ChannelSlots(ch), ChannelTable)
    ensures forall i | 0 <= i < |ChannelTable| :: AttributeValue(ChannelSlots(ch)[i].value)
  {
    ChannelSlotFields(ch);
    forall i | 0 <= i < |ChannelTable| ensures AttributeValue(ChannelSlots(ch)[i].value) && ChannelSlots(ch)[i].value != Some([]) {
      ChannelSlotValue(ch, i);
    }
  }

  lemma CommaNoAnchors(title: string, t: seq<Field>)
    requires NoAnchors(title, t) && KeysOf(t)
    ensures NoAnchors("," + title, t)
  {
    forall j | 0 <= j < |t| ensures NoOcc("," + title, Anchor(t[j])) {
      var w := Anchor(t[j]);
      KeyCharsGood(t[j].key);
      AnchorParts(t[j]);
      NoOccOfMissingChar(",", w, '=');
      NoOccJoin(",", title, w);
    }
  }

  /** `extractChannelFromExtInf` gives back the title and attributes `buildExtinfLine` wrote. */
  lemma ExtinfLineRoundTrip(ch: ChannelInfo)
    requires WritableAttributes(ch)
    ensures ChannelOf(ExtinfLineOf(ch)) == Announced(ch)
  {
    forall i | 0 <= i < |ChannelTable|
      ensures ChannelProperty(ChannelOf(ExtinfLineOf(ch)), i) == ChannelProperty(Announced(ch), i)
    {
      ExtinfRowRoundTrip(ch, i);
    }
    ExtinfTitle(ch);
    ChannelByProperties(ChannelOf(ExtinfLineOf(ch)), Announced(ch));
  }

  /** Row `i` of `CHANNEL_EXTRACTORS` reads back the attribute `buildExtinfLine` wrote for it. */
  lemma ExtinfRowRoundTrip(ch: ChannelInfo, i: nat)
    requires WritableAttributes(ch) && i < |ChannelTable|
    ensures ChannelProperty(ChannelOf(ExtinfLineOf(ch)), i) == ChannelProperty(Announced(ch), i)
  {
    var slots := ChannelSlots(ch);
    var head := "#EXTINF:-1";
    var tail := "," + ch.title;
    var line := ExtinfLineOf(ch);
    assert line == head + Tokens(slots) + tail;
    ChannelTableGood();
    ChannelReadable(ch);
    CommaNoAnchors(ch.title, ChannelTable);
    ChannelRowsQuoted(i);
    ChannelRow(line, i);
    ReadRow(head, slots, ChannelTable, i, tail);
    ChannelSlotValue(ch, i);
  }

  /** Every row of `CHANNEL_EXTRACTORS` captures a quoted value, and the head of an `#EXTINF` line has no `=`. */
  lemma ChannelRowsQuoted(i: nat)
    requires i < |ChannelTable|
    ensures ChannelTable[i].kind == Quoted && Bounded(ChannelTable) && '=' !in "#EXTINF:-1"
  {
  }

  /** The title is what follows the first comma, which is the one `buildExtinfLine` writes before it. */
  lemma ExtinfTitle(ch: ChannelInfo)
    requires WritableAttributes(ch)
    ensures FindTitle(ExtinfLineOf(ch)) == Some(ch.title)
  {
    var slots := ChannelSlots(ch);
    var a := "#EXTINF:-1" + Tokens(slots);
    ChannelReadable(ch);
    ChannelKeys();
    forall i | 0 <= i < |slots| ensures ',' !in slots[i].field.key {
      KeyCharsGood(ChannelTable[i].key);
    }
    TokensAvoid(slots, ',');
    assert ExtinfLineOf(ch) == a + "," + ch.title;
    TitleAfterFirstComma(a, ch.title);
    TrimOfTrimmed(ch.title);
  }

  /** An `#EXTINF` line is one line, trimmed, and kept by `preprocessLines`. */
  lemma ExtinfLineShape(ch: ChannelInfo)
    requires WritableAttributes(ch)
    ensures IsPlainLine(ExtinfLineOf(ch)) && IsTrimmed(ExtinfLineOf(ch)) && StartsWith(ExtinfLineOf(ch), "#EXTINF:")
  {
    var slots := ChannelSlots(ch);
    var a := "#EXTINF:-1" + Tokens(slots);
    var line := ExtinfLineOf(ch);
    ChannelReadable(ch);
    ChannelKeys();
    forall i | 0 <= i < |slots| ensures '\n' !in slots[i].field.key && (slots[i].value.Some? ==> '\n' !in slots[i].value.value) {
      assert KeyChars(ChannelTable[i].key);
      assert AttributeValue(slots[i].value);
    }
    TokensAvoid(slots, '\n');
    assert line == a + ("," + ch.title);
    assert '\n' !in ch.title;
    assert line[..8] == "#EXTINF:";
    assert line[|line| - 1] == ch.title[|ch.title| - 1];
  }

  // ----- #EXTVLCOPT lines -----

  /** An option value that `(.+)$` gives back whole: non-empty, trimmed, on one line, and without the other option's anchor. */
  predicate WritableOption(v: string, other: Field) {
    v != [] && IsTrimmed(v) && NoLineTerminator(v) && NoOcc(v, Anchor(other))
  }

  /** A channel whose options `extractVlcOptions` reads back. */
  predicate WritableOptions(ch: ChannelInfo) {
    (NonEmpty(ch.userAgent).Some? ==> WritableOption(ch.userAgent.value, Referrer))
    && (NonEmpty(ch.referrer).Some? ==> WritableOption(ch.referrer.value, UserAgent))
  }

  /** `tag key=value` is read back by the row of `key`, and not at all by the row of `other`. */
  lemma OptionLine(a: string, f: Field, other: Field, v: string)
    requires a != [] && a[|a| - 1] == ':' && '=' !in a && '\n' !in a && !IsWhitespace(a[0])
    requires f.kind == Rest && other.kind == Rest
    requires KeyChars(f.key) && KeyChars(other.key) && EndsDiffer(f.key, other.key)
    requires WritableOption(v, other)
    ensures FindField(a + Anchor(f) + v, f) == Some(v)
    ensures FindField(a + Anchor(f) + v, other) == None
    ensures var line := a + Anchor(f) + v; IsPlainLine(line) && IsTrimmed(line) && StartsWith(line, a)
  {
    KeyCharsGood(f.key);
    KeyCharsGood(other.key);
    KeyCharsAvoid(f.key, ':');
    KeyCharsAvoid(f.key, '\n');
    EndsDifferPrefix(a, f.key, other.key);
    OptionFound(a, f.key, v);
    OptionAbsent(a + f.key, other.key, v);
    assert a + Anchor(f) + v == a + f.key + "=" + v;
    OptionShape(a, f.key, v);
  }

  lemma KeyCharsAvoid(k: string, c: char)
    requires KeyChars(k) && !IsKeyChar(c)
    ensures c !in k
  {
  }

  lemma EndsDifferPrefix(a: string, x: string, k: string)
    requires EndsDiffer(x, k)
    ensures EndsDiffer(a + x, k)
  {
    var y := a + x;
    assert y[|y| - 1] == x[|x| - 1] && y[|y| - 2] == x[|x| - 2];
  }

  lemma VlcTagChars()
    ensures VlcTag != [] && VlcTag[|VlcTag| - 1] == ':' && '=' !in VlcTag && '\n' !in VlcTag && !IsWhitespace(VlcTag[0])
  {
  }

  /** The user-agent line: its own row reads the value, the referrer row reads nothing. */
  lemma UserAgentLine(v: string)
    requires WritableOption(v, Referrer)
    ensures FindField(UserAgentPrefix + v, UserAgent) == Some(v) && FindField(UserAgentPrefix + v, Referrer) == None
    ensures IsPlainLine(UserAgentPrefix + v) && IsTrimmed(UserAgentPrefix + v) && StartsWith(UserAgentPrefix + v, VlcTag)
  {
    VlcTableGood();
    assert VlcTable[0] == UserAgent && VlcTable[1] == Referrer;
    VlcTagChars();
    OptionLine(VlcTag, UserAgent, Referrer, v);
  }

  /** The referrer line: its own row reads the value, the user-agent row reads nothing. */
  lemma ReferrerLine(v: string)
    requires WritableOption(v, UserAgent)
    ensures FindField(ReferrerPrefix + v, Referrer) == Some(v) && FindField(ReferrerPrefix + v, UserAgent) == None
    ensures IsPlainLine(ReferrerPrefix + v) && IsTrimmed(ReferrerPrefix + v) && StartsWith(ReferrerPrefix + v, VlcTag)
  {
    VlcTableGood();
    assert VlcTable[0] == UserAgent && VlcTable[1] == Referrer;
    VlcTagChars();
    OptionLine(VlcTag, Referrer, UserAgent, v);
  }

  lemma OptionFound(a: string, key: string, v: string)
    requires a != [] && a[|a| - 1] !in key && '=' !in a
    requires v != [] && NoLineTerminator(v)
    ensures Find(a + (key + "=") + v, key + "=", Rest) == Some(v)
  {
    var w := key + "=";
    assert w[..|w| - 1] == key;
    assert a + w + v == a + (w + v);
    NoOccOfMissingChar(a, w, '=');
    FindHere(w, v, Rest);
    FindSkip(a, w + v, w, Rest);
  }

  lemma OptionAbsent(x: string, k: string, v: string)
    requires '=' !in x && '=' !in k && EndsDiffer(x, k)
    requires NoOcc(v, k + "=")
    ensures Find(x + "=" + v, k + "=", Rest) == None
  {
    var w := k + "=";
    assert w[..|w| - 1] == k;
    EndsDifferNotEndsWith(x, k);
    NoOccKeyToken(x, k);
    NoOccJoin(x + "=", v, w);
    FindAbsent(x + "=" + v, w, Rest);
  }

  lemma OptionShape(a: string, key: string, v: string)
    requires a != [] && !IsWhitespace(a[0]) && '\n' !in a && '\n' !in key
    requires v != [] && IsTrimmed(v) && NoLineTerminator(v)
    ensures var line := a + key + "=" + v; IsPlainLine(line) && IsTrimmed(line) && StartsWith(line, a)
  {
    var line := a + key + "=" + v;
    var front := a + key + "=";
    assert line == front + v;
    assert line[..|a|] == a;
    assert line[|line| - 1] == v[|v| - 1];
    assert '\n' !in front;
    assert forall k | 0 <= k < |line| :: line[k] == if k < |front| then front[k] else v[k - |front|];
  }
}
