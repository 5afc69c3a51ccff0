/**
 * `preprocessLines` and `parseM3U8Content` of lib/m3u8-parser.ts. The
 * loop of the parser is a state machine over the preprocessed lines with
 * one accumulator, `currentChannel`; `Step` is one iteration of it, `Run`
 * the loop, and `ParseM3U8Content` the loop as the source writes it,
 * proved to compute `Parse`.
 */
module Parser {
  import opened Wrappers
  import opened Text
  import opened Scan
  import opened Tables
  import opened Types
  import opened Extract

  /** `isStreamUrl`: the line starts with one of the four stream schemes. */
  predicate IsStreamUrl(line: string) {
    StartsWith(line, "http://") || StartsWith(line, "https://") || StartsWith(line, "rtmp://") || StartsWith(line, "rtsp://")
  }

  /** The filter of `preprocessLines`: non-empty lines that are not comments, and the three recognised tags. */
  predicate Kept(line: string) {
    (|line| > 0 && !StartsWith(line, "#"))
    || StartsWith(line, "#EXTM3U") || StartsWith(line, "#EXTINF:") || StartsWith(line, "#EXTVLCOPT:")
  }

  /** `map((line) => line.trim())`: one trimmed line per line, empty exactly where the line was blank. */
  function TrimAll(lines: seq<string>): (r: seq<string>)
    ensures |r| == |lines|
    ensures forall i | 0 <= i < |r| :: r[i] == Trim(lines[i])
    ensures forall i | 0 <= i < |r| :: IsTrimmed(r[i]) && (r[i] == [] <==> IsBlank(lines[i]))
  {
    seq(|lines|, i requires 0 <= i < |lines| => Trim(lines[i]))
  }

  function KeepLines(lines: seq<string>): (r: seq<string>)
    ensures forall i | 0 <= i < |r| :: Kept(r[i])
    ensures (forall i | 0 <= i < |lines| :: IsTrimmed(lines[i])) ==> forall i | 0 <= i < |r| :: IsTrimmed(r[i])
  {
    if lines == [] then []
    else if Kept(lines[0]) then [lines[0]] + KeepLines(lines[1..])
    else KeepLines(lines[1..])
  }

  /** `preprocessLines`: split at line breaks, trim every line, keep what the filter accepts. */
  function PreprocessLines(content: string): seq<string> {
    KeepLines(TrimAll(SplitLines(content)))
  }

  /** Every line that comes out of `preprocessLines` is trimmed and passes the filter. */
  lemma PreprocessedLines(content: string)
    ensures forall i | 0 <= i < |PreprocessLines(content)| :: IsTrimmed(PreprocessLines(content)[i]) && Kept(PreprocessLines(content)[i])
  {
  }

  /** The filter keeps every line that passes it, as often as it occurs, and drops every other one. */
  lemma {:induction false} KeepCounts(lines: seq<string>, x: string)
    ensures multiset(KeepLines(lines))[x] == if Kept(x) then multiset(lines)[x] else 0
    decreases |lines|
  {
    if lines != [] {
      KeepCounts(lines[1..], x);
      assert lines == [lines[0]] + lines[1..];
    }
  }

  /** The filter works piece by piece, so the kept lines keep their order. */
  lemma {:induction false} KeepAppend(a: seq<string>, b: seq<string>)
    ensures KeepLines(a + b) == KeepLines(a) + KeepLines(b)
    decreases |a|
  {
    if a == [] {
      assert a + b == b;
    } else {
      KeepAppend(a[1..], b);
      assert (a + b)[1..] == a[1..] + b;
    }
  }

  /** `preprocessLines` keeps every trimmed line that passes the filter, as often as it occurs, and no other line. */
  lemma PreprocessCounts(content: string, x: string)
    ensures multiset(PreprocessLines(content))[x] == if Kept(x) then multiset(TrimAll(SplitLines(content)))[x] else 0
  {
    KeepCounts(TrimAll(SplitLines(content)), x);
  }

  lemma {:induction false} KeepAll(lines: seq<string>)
    requires forall i | 0 <= i < |lines| :: Kept(lines[i])
    ensures KeepLines(lines + [""]) == lines
    decreases |lines|
  {
    if lines == [] {
      assert [] + [""] == [""];
      assert !Kept("");
    } else {
      assert (lines + [""])[1..] == lines[1..] + [""];
      KeepAll(lines[1..]);
      assert lines == [lines[0]] + lines[1..];
    }
  }

  lemma {:induction false} TrimAllTrimmed(lines: seq<string>)
    requires forall i | 0 <= i < |lines| :: IsTrimmed(lines[i])
    ensures TrimAll(lines) == lines
  {
    forall i | 0 <= i < |lines| ensures TrimAll(lines)[i] == lines[i] {
      TrimOfTrimmed(lines[i]);
    }
  }

  /** Lines that are plain, trimmed and kept come out of `preprocessLines` unchanged when written one per line. */
  lemma PreprocessJoin(lines: seq<string>)
    requires |lines| > 0
    requires forall i | 0 <= i < |lines| :: IsPlainLine(lines[i]) && IsTrimmed(lines[i]) && Kept(lines[i])
    ensures PreprocessLines(Join(lines) + "\n") == lines
  {
    SplitJoin(lines);
    PaddedTrimmed(lines);
    TrimAllTrimmed(lines + [""]);
    KeepAll(lines);
  }

  lemma PaddedTrimmed(lines: seq<string>)
    requires forall i | 0 <= i < |lines| :: IsTrimmed(lines[i])
    ensures forall i | 0 <= i < |lines + [""]| :: IsTrimmed((lines + [""])[i])
  {
    var padded := lines + [""];
    forall i | 0 <= i < |padded| ensures IsTrimmed(padded[i]) {
      if i < |lines| { assert padded[i] == lines[i]; }
    }
  }

  /** The four kinds of line the loop recognises, with what it extracts from each. */
  datatype Line =
    | HeaderLine(config: PlaylistConfig)                            // `#EXTM3U`
    | ExtinfLine(attributes: Partial)                               // `#EXTINF:`
    | VlcLine(userAgent: Option<string>, referrer: Option<string>)  // `#EXTVLCOPT:`
    | UrlLine(url: string)                                          // a stream URL
    | OtherLine                                                     // anything else: skipped

  /** Which branch of the loop body a line takes: the tests in their order, the first that holds deciding. */
  datatype Tag = Header | Extinf | Vlc | Url | Other

  function TagOf(line: string): Tag {
    if StartsWith(line, "#EXTM3U") then Header
    else if StartsWith(line, "#EXTINF:") then Extinf
    else if StartsWith(line, "#EXTVLCOPT:") then Vlc
    else if IsStreamUrl(line) then Url
    else Other
  }

  /** The line with what its branch extracts from it. */
  function Classify(line: string): Line {
    match TagOf(line)
    case Header => HeaderLine(ConfigOf(line))
    case Extinf => ExtinfLine(ChannelOf(line))
    case Vlc => VlcLine(FindField(line, UserAgent), FindField(line, Referrer))
    case Url => UrlLine(line)
    case Other => OtherLine
  }

  /** The parser's variables between two lines: `result.configs`, `result.channels` and `currentChannel`. */
  datatype State = State(configs: seq<PlaylistConfig>, channels: seq<ChannelInfo>, current: Partial)

  const Start := State([], [], NoChannel)

  /** `isChannelComplete`: `!!(channel.title && channel.url)`, both present and non-empty. */
  predicate IsComplete(p: Partial) {
    p.title.Some? && p.title.value != [] && p.url.Some? && p.url.value != []
  }

  /** The channel that `result.channels.push(currentChannel)` adds. */
  function Commit(p: Partial): ChannelInfo
    requires IsComplete(p)
  {
    ChannelInfo(p.title.value, p.url.value, p.tvgId, p.tvgLogo, p.groupTitle,
                p.catchup, p.catchupDays, p.catchupSource, p.userAgent, p.referrer)
  }

  /** One iteration of the loop of `parseM3U8Content`. */
  function Step(st: State, line: Line): State {
    match line
    case HeaderLine(config) =>
      if config != EmptyConfig then st.(configs := st.configs + [config]) else st
    case ExtinfLine(attributes) =>
      var channels := if IsComplete(st.current) then st.channels + [Commit(st.current)] else st.channels;
      State(st.configs, channels, attributes)
    case VlcLine(userAgent, referrer) =>
      st.(current := MergeVlc(st.current, userAgent, referrer))
    case UrlLine(url) =>
      var current := st.current.(url := Some(url));
      if IsComplete(current) then State(st.configs, st.channels + [Commit(current)], NoChannel)
      else st.(current := current)
    case OtherLine => st
  }

  /** The lines with what their branches extract, one for one. */
  function ClassifyAll(lines: seq<string>): (r: seq<Line>)
    ensures |r| == |lines|
    decreases |lines|
  {
    if lines == [] then [] else ClassifyAll(lines[..|lines| - 1]) + [Classify(lines[|lines| - 1])]
  }

  lemma {:induction false} ClassifyAllAt(lines: seq<string>, i: nat)
    requires i < |lines|
    ensures ClassifyAll(lines)[i] == Classify(lines[i])
    decreases |lines|
  {
    if i < |lines| - 1 {
      ClassifyAllAt(lines[..|lines| - 1], i);
    }
  }

  /** The state after the loop has read the lines classified as `kinds`, starting from `st`. */
  function Run(st: State, kinds: seq<Line>): State
    decreases |kinds|
  {
    if kinds == [] then st else Step(Run(st, kinds[..|kinds| - 1]), kinds[|kinds| - 1])
  }

  lemma RunSnoc(st: State, kinds: seq<Line>, i: nat)
    requires i < |kinds|
    ensures Run(st, kinds[..i + 1]) == Step(Run(st, kinds[..i]), kinds[i])
  {
    assert kinds[..i + 1][..i] == kinds[..i];
  }

  /** One more line read: the state after it is the step from the state before it. */
  lemma RunAdvance(kinds: seq<Line>, i: nat, before: State, after: State)
    requires i < |kinds| && before == Run(Start, kinds[..i]) && after == Step(before, kinds[i])
    ensures after == Run(Start, kinds[..i + 1])
  {
    RunSnoc(Start, kinds, i);
  }

  /** The channels after the flush that follows the loop. */
  function Finish(st: State): seq<ChannelInfo> {
    if IsComplete(st.current) then st.channels + [Commit(st.current)] else st.channels
  }

  const EmptyContent := "M3U8 content cannot be empty"

  /** `parseM3U8Content`: content that is empty after trimming is refused before any line is read. */
  function Parse(content: string): (r: Result<Parsed, string>)
    ensures r.Err? <==> IsBlank(content)
    ensures r.Err? ==> r.error == EmptyContent
  {
    if Trim(content) == [] then Err(EmptyContent)
    else
      var st := Run(Start, ClassifyAll(PreprocessLines(content)));
      Ok(Parsed(st.configs, Finish(st)))
  }

  /** `parseM3U8Content` as the source writes it: one pass over the lines, pushing into the result. */
  method ParseM3U8Content(content: string) returns (r: Result<Parsed, string>)
    ensures r == Parse(content)
  {
    if Trim(content) == [] {
      return Err(EmptyContent);
    }
    var lines := PreprocessLines(content);
    var configs, channels, current := ReadLines(lines);
    if IsComplete(current) {
      channels := channels + [Commit(current)];
    }
    return Ok(Parsed(configs, channels));
  }

  /** The loop of `parseM3U8Content` over the preprocessed lines. */
  method ReadLines(lines: seq<string>) returns (configs: seq<PlaylistConfig>, channels: seq<ChannelInfo>, current: Partial)
    ensures State(configs, channels, current) == Run(Start, ClassifyAll(lines))
  {
    ghost var kinds := ClassifyAll(lines);
    configs, channels, current := [], [], NoChannel;
    var i := 0;
    while i < |lines|
      invariant 0 <= i <= |lines|
      invariant State(configs, channels, current) == Run(Start, kinds[..i])
    {
      ghost var before := State(configs, channels, current);
      configs, channels, current := ReadLine(lines[i], configs, channels, current);
      ClassifyAllAt(lines, i);
      RunAdvance(kinds, i, before, State(configs, channels, current));
      i := i + 1;
    }
    assert kinds[..i] == kinds;
  }

  /** One pass of the loop of `parseM3U8Content`: the branch the line's prefix selects. */
  method ReadLine(line: string, configs: seq<PlaylistConfig>, channels: seq<ChannelInfo>, current: Partial)
    returns (configs': seq<PlaylistConfig>, channels': seq<ChannelInfo>, current': Partial)
    ensures State(configs', channels', current') == Step(State(configs, channels, current), Classify(line))
  {
    configs', channels', current' := configs, channels, current;
    var tag := TagOf(line);
    if tag == Header {
      var config := ExtractConfigFromExtM3U(line);
      if config != EmptyConfig {
        configs' := configs + [config];
      }
    } else if tag == Extinf {
      if IsComplete(current) {
        channels' := channels + [Commit(current)];
      }
      current' := ExtractChannelFromExtInf(line);
    } else if tag == Vlc {
      current' := ExtractVlcOptions(line, current);
    } else if tag == Url {
      current' := current.(url := Some(line));
      if IsComplete(current') {
        channels' := channels + [Commit(current')];
        current' := NoChannel;
      }
    }
  }

  // ----- The accumulator is never complete between two lines -----

  /** What every classified line satisfies: `#EXTINF:` attributes carry no url and a trimmed title, URL lines have a scheme. */
  predicate Sound(line: Line) {
    (line.ExtinfLine? ==> line.attributes.url.None? && line.attributes.userAgent.None? && line.attributes.referrer.None?
                          && (line.attributes.title.Some? ==> IsTrimmed(line.attributes.title.value)))
    && (line.UrlLine? ==> IsStreamUrl(line.url))
  }

  predicate AllSound(kinds: seq<Line>) {
    forall i | 0 <= i < |kinds| :: Sound(kinds[i])
  }

  lemma ClassifySound(line: string)
    ensures Sound(Classify(line))
  {
    if TagOf(line) == Extinf {
      var t := Find(line, TitleAnchor, Rest);
      if t.Some? {
        assert IsTrimmed(Trim(t.value));
      }
    }
  }

  lemma ClassifyAllSound(lines: seq<string>)
    ensures AllSound(ClassifyAll(lines))
  {
    forall i | 0 <= i < |lines| ensures Sound(ClassifyAll(lines)[i]) {
      ClassifyAllAt(lines, i);
      ClassifySound(lines[i]);
    }
  }

  /** Starting from an incomplete accumulator, no line leaves a complete one behind. */
  lemma StepKeepsIncomplete(st: State, line: Line)
    requires Sound(line) && !IsComplete(st.current)
    ensures !IsComplete(Step(st, line).current)
  {
  }

  lemma {:induction false} RunIncomplete(kinds: seq<Line>)
    requires AllSound(kinds)
    ensures !IsComplete(Run(Start, kinds).current)
    decreases |kinds|
  {
    if kinds != [] {
      var init := kinds[..|kinds| - 1];
      RunIncomplete(init);
      StepKeepsIncomplete(Run(Start, init), kinds[|kinds| - 1]);
    }
  }

  /** The flush after the loop never adds a channel. */
  lemma FinalFlushIsEmpty(lines: seq<string>)
    ensures var st := Run(Start, ClassifyAll(lines)); Finish(st) == st.channels
  {
    ClassifyAllSound(lines);
    RunIncomplete(ClassifyAll(lines));
  }

  /** A line that starts with `p` has `p`'s characters at the front. */
  lemma PrefixChar(line: string, p: string, k: nat)
    requires StartsWith(line, p) && k < |p|
    ensures line[k] == p[k]
  {
    assert line[..|p|][k] == line[k];
  }

  /**
   * An `#EXTINF:` line never flushes: wherever it comes, it replaces the
   * accumulator with the attributes of that line alone.
   */
  lemma ExtinfReplaces(kinds: seq<Line>, line: string)
    requires AllSound(kinds) && StartsWith(line, "#EXTINF:")
    ensures var st := Run(Start, kinds); Step(st, Classify(line)) == State(st.configs, st.channels, ChannelOf(line))
  {
    RunIncomplete(kinds);
    PrefixChar(line, "#EXTINF:", 4);
    assert !StartsWith(line, "#EXTM3U") by {
      if StartsWith(line, "#EXTM3U") { PrefixChar(line, "#EXTM3U", 4); }
    }
  }

  /** An `#EXTVLCOPT:` line only merges its options into the accumulator; it never commits. */
  lemma VlcMerges(st: State, line: string)
    requires StartsWith(line, "#EXTVLCOPT:")
    ensures Step(st, Classify(line)) == st.(current := WithVlcOptions(st.current, line))
  {
    PrefixChar(line, "#EXTVLCOPT:", 4);
    assert !StartsWith(line, "#EXTM3U") by {
      if StartsWith(line, "#EXTM3U") { PrefixChar(line, "#EXTM3U", 4); }
    }
    assert !StartsWith(line, "#EXTINF:") by {
      if StartsWith(line, "#EXTINF:") { PrefixChar(line, "#EXTINF:", 4); }
    }
  }

  // ----- What is committed -----

  /** A channel of the result: a trimmed non-empty title and a stream url. */
  predicate WellFormed(c: ChannelInfo) {
    c.title != [] && IsTrimmed(c.title) && IsStreamUrl(c.url)
  }

  /** What holds between two lines. */
  predicate Good(st: State) {
    (forall k | 0 <= k < |st.channels| :: WellFormed(st.channels[k]))
    && (st.current.title.Some? ==> IsTrimmed(st.current.title.value))
    && (st.current.url.Some? ==> IsStreamUrl(st.current.url.value))
    && !IsComplete(st.current)
  }

  lemma StepGood(st: State, line: Line)
    requires Good(st) && Sound(line)
    ensures Good(Step(st, line))
  {
  }

  lemma {:induction false} RunGood(kinds: seq<Line>)
    requires AllSound(kinds)
    ensures Good(Run(Start, kinds))
    decreases |kinds|
  {
    if kinds != [] {
      var init := kinds[..|kinds| - 1];
      RunGood(init);
      StepGood(Run(Start, init), kinds[|kinds| - 1]);
    }
  }

  /** Every parsed channel has a trimmed non-empty title and a url with a stream scheme. */
  lemma ParsedChannelsWellFormed(content: string)
    requires Parse(content).Ok?
    ensures forall k | 0 <= k < |Parse(content).value.channels| :: WellFormed(Parse(content).value.channels[k])
  {
    var lines := PreprocessLines(content);
    ClassifyAllSound(lines);
    RunGood(ClassifyAll(lines));
    FinalFlushIsEmpty(lines);
  }

  /** A step from an incomplete accumulator adds at most one channel, and only at a URL line, with that line as url. */
  lemma StepCount(st: State, line: Line)
    requires !IsComplete(st.current)
    ensures |Step(st, line).channels| <= |st.channels| + (if line.UrlLine? then 1 else 0)
    ensures |Step(st, line).channels| != |st.channels| ==>
      line.UrlLine? && Step(st, line).channels == st.channels + [Commit(st.current.(url := Some(line.url)))]
  {
  }

  /** `idx` gives, for every channel in order, the position of the URL line that committed it. */
  predicate CommittedAt(channels: seq<ChannelInfo>, kinds: seq<Line>, idx: seq<nat>) {
    |idx| == |channels|
    && (forall k | 0 <= k < |idx| :: idx[k] < |kinds| && kinds[idx[k]] == UrlLine(channels[k].url))
    && (forall k, m | 0 <= k < m < |idx| :: idx[k] < idx[m])
  }

  lemma {:induction false} RunCommitPositions(kinds: seq<Line>) returns (idx: seq<nat>)
    requires AllSound(kinds)
    ensures CommittedAt(Run(Start, kinds).channels, kinds, idx)
    decreases |kinds|
  {
    if kinds == [] {
      idx := [];
    } else {
      var init := kinds[..|kinds| - 1];
      var line := kinds[|kinds| - 1];
      var st := Run(Start, init);
      var prev := RunCommitPositions(init);
      RunIncomplete(init);
      StepCount(st, line);
      assert forall k | 0 <= k < |prev| :: kinds[prev[k]] == init[prev[k]];
      if |Step(st, line).channels| == |st.channels| {
        idx := prev;
        assert Step(st, line).channels == st.channels;
      } else {
        idx := prev + [|kinds| - 1];
      }
    }
  }

  /** A line classified as a URL line is a stream URL, and is the url it carries. */
  lemma ClassifyUrl(line: string)
    requires Classify(line).UrlLine?
    ensures Classify(line).url == line && IsStreamUrl(line)
  {
  }

  /**
   * The channels appear in the order of the stream-URL lines that
   * completed them, each line completing at most one: `idx` maps every
   * channel to its own line.
   */
  lemma ParsedInUrlOrder(content: string) returns (idx: seq<nat>)
    requires Parse(content).Ok?
    ensures var lines := PreprocessLines(content); var channels := Parse(content).value.channels;
      |idx| == |channels|
      && (forall k | 0 <= k < |idx| :: idx[k] < |lines| && IsStreamUrl(lines[idx[k]]) && channels[k].url == lines[idx[k]])
      && (forall k, m | 0 <= k < m < |idx| :: idx[k] < idx[m])
  {
    var lines := PreprocessLines(content);
    var kinds := ClassifyAll(lines);
    ClassifyAllSound(lines);
    idx := RunCommitPositions(kinds);
    FinalFlushIsEmpty(lines);
    var channels := Run(Start, kinds).channels;
    assert Parse(content).value.channels == channels;
    forall k | 0 <= k < |idx| ensures IsStreamUrl(lines[idx[k]]) && channels[k].url == lines[idx[k]] {
      ClassifyAllAt(lines, idx[k]);
      ClassifyUrl(lines[idx[k]]);
    }
  }

  /** The number of stream-URL lines. */
  function CountUrls(lines: seq<string>): nat
    decreases |lines|
  {
    if lines == [] then 0
    else CountUrls(lines[..|lines| - 1]) + (if IsStreamUrl(lines[|lines| - 1]) then 1 else 0)
  }

  /** There are never more channels than stream-URL lines read. */
  lemma {:induction false} RunCount(lines: seq<string>)
    ensures |Run(Start, ClassifyAll(lines)).channels| <= CountUrls(lines)
    decreases |lines|
  {
    if lines != [] {
      var init := lines[..|lines| - 1];
      var last := lines[|lines| - 1];
      RunCount(init);
      ClassifyAllSound(init);
      RunIncomplete(ClassifyAll(init));
      assert ClassifyAll(lines) == ClassifyAll(init) + [Classify(last)];
      assert ClassifyAll(lines)[..|lines| - 1] == ClassifyAll(init);
      StepCount(Run(Start, ClassifyAll(init)), Classify(last));
      if Classify(last).UrlLine? {
        ClassifyUrl(last);
      }
    }
  }

  /** The parser returns no more channels than the content has stream-URL lines. */
  lemma ParsedCount(content: string)
    requires Parse(content).Ok?
    ensures |Parse(content).value.channels| <= CountUrls(PreprocessLines(content))
  {
    RunCount(PreprocessLines(content));
    FinalFlushIsEmpty(PreprocessLines(content));
  }

  // ----- The configs -----

  /** The non-empty configs of the `#EXTM3U` lines, in line order. */
  function HeaderConfigs(lines: seq<string>): seq<PlaylistConfig>
    decreases |lines|
  {
    if lines == [] then []
    else
      var line := lines[|lines| - 1];
      HeaderConfigs(lines[..|lines| - 1])
        + (if StartsWith(line, "#EXTM3U") && ConfigOf(line) != EmptyConfig then [ConfigOf(line)] else [])
  }

  /** The configs depend on the `#EXTM3U` lines alone: one per such line whose config is not empty. */
  lemma {:induction false} RunConfigs(lines: seq<string>)
    ensures Run(Start, ClassifyAll(lines)).configs == HeaderConfigs(lines)
    decreases |lines|
  {
    if lines != [] {
      var init := lines[..|lines| - 1];
      RunConfigs(init);
      ConfigsStep(init, lines[|lines| - 1]);
      SplitLast(lines);
    }
  }

  /** A non-empty sequence is its front followed by its last element. */
  lemma SplitLast<T>(s: seq<T>)
    requires s != []
    ensures s[..|s| - 1] + [s[|s| - 1]] == s
  {
  }

  lemma ConfigsStep(init: seq<string>, last: string)
    requires Run(Start, ClassifyAll(init)).configs == HeaderConfigs(init)
    ensures Run(Start, ClassifyAll(init + [last])).configs == HeaderConfigs(init + [last])
  {
    RunLastLine(init, last);
    StepConfigs(Run(Start, ClassifyAll(init)), last);
    assert (init + [last])[..|init|] == init;
  }

  /** The state after the last line is one step from the state before it. */
  lemma RunLastLine(init: seq<string>, last: string)
    ensures Run(Start, ClassifyAll(init + [last])) == Step(Run(Start, ClassifyAll(init)), Classify(last))
  {
    assert (init + [last])[..|init|] == init;
  }

  /** Only an `#EXTM3U` line with a non-empty config adds a config. */
  lemma StepConfigs(st: State, line: string)
    ensures Step(st, Classify(line)).configs
      == st.configs + (if StartsWith(line, "#EXTM3U") && ConfigOf(line) != EmptyConfig then [ConfigOf(line)] else [])
  {
    KindConfigs(st, Classify(line));
    ClassifiedHeader(line);
  }

  lemma KindConfigs(st: State, kind: Line)
    ensures Step(st, kind).configs
      == st.configs + (if kind.HeaderLine? && kind.config != EmptyConfig then [kind.config] else [])
  {
  }

  lemma ClassifiedHeader(line: string)
    ensures Classify(line).HeaderLine? <==> StartsWith(line, "#EXTM3U")
    ensures Classify(line).HeaderLine? ==> Classify(line).config == ConfigOf(line)
  {
  }

  /** The configs of a parse result, in terms of the preprocessed lines. */
  lemma ParsedConfigs(content: string)
    requires Parse(content).Ok?
    ensures Parse(content).value.configs == HeaderConfigs(PreprocessLines(content))
  {
    RunConfigs(PreprocessLines(content));
  }

  // ----- The title -----

  /** The title is what follows the first comma, trimmed. */
  lemma TitleAfterFirstComma(a: string, b: string)
    requires ',' !in a && b != [] && NoLineTerminator(b)
    ensures FindTitle(a + "," + b) == Some(Trim(b))
  {
    FindAfterChar(a, ',', b, Rest);
  }

  /** Without a comma there is no title. */
  lemma NoCommaNoTitle(line: string)
    requires ',' !in line
    ensures FindTitle(line) == None
  {
    FindNoChar(line, ',', Rest);
  }

  /** A comma with nothing after it gives no title: `.+` needs at least one character. */
  lemma CommaLastNoTitle(a: string)
    requires ',' !in a
    ensures FindTitle(a + ",") == None
  {
    var s := a + ",";
    forall j: nat ensures !MatchAt(s, j, ",", Accepts(Rest)) {
      if j < |a| {
        assert s[j] == a[j];
      } else if j == |a| {
        assert s[j + 1..] == [];
      }
    }
    FindNone(s, ",", Rest);
  }
}
