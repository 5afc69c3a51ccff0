/**
 * The document-level round trip of lib/m3u8-parser.ts: what
 * `generateM3U8Content` writes, `parseM3U8Content` reads back. The
 * configs come back without the ones that have nothing to write, the
 * channels come back all of them and in order, and an optional string
 * that is empty, which the builders do not write, comes back missing.
 */
module RoundTrip {
  import opened Wrappers
  import opened Text
  import opened Tables
  import opened Attributes
  import opened Types
  import opened Extract
  import opened Parser
  import opened Generator
  import opened LineRoundTrip

  // ----- Reading a concatenation -----

  lemma {:induction false} ClassifyAllAppend(a: seq<string>, b: seq<string>)
    ensures ClassifyAll(a + b) == ClassifyAll(a) + ClassifyAll(b)
    decreases |b|
  {
    if b == [] {
      assert a + b == a;
    } else {
      var init := b[..|b| - 1];
      ClassifyAllAppend(a, init);
      assert (a + b)[..|a + b| - 1] == a + init;
      assert (a + b)[|a + b| - 1] == b[|b| - 1];
    }
  }

  lemma {:induction false} RunAppend(st: State, a: seq<Line>, b: seq<Line>)
    ensures Run(st, a + b) == Run(Run(st, a), b)
    decreases |b|
  {
    if b == [] {
      assert a + b == a;
    } else {
      var init := b[..|b| - 1];
      RunAppend(st, a, init);
      assert (a + b)[..|a + b| - 1] == a + init;
      assert (a + b)[|a + b| - 1] == b[|b| - 1];
    }
  }

  // ----- Each written line is read as the line it was written for -----

  lemma NotTagged(line: string, p: string)
    requires line != [] && line[0] != '#' && p != [] && p[0] == '#'
    ensures !StartsWith(line, p)
  {
  }

  /** A stream URL is read as a URL line, and passes the filter of `preprocessLines`. */
  lemma ClassifyStreamUrl(url: string)
    requires IsStreamUrl(url)
    ensures Classify(url) == UrlLine(url) && Kept(url)
  {
    assert url != [] && url[0] != '#' by {
      if StartsWith(url, "http://") || StartsWith(url, "https://") {
        PrefixChar(url, "http", 0);
      } else if StartsWith(url, "rtmp://") {
        PrefixChar(url, "rtmp://", 0);
      } else {
        PrefixChar(url, "rtsp://", 0);
      }
    }
    NotTagged(url, "#");
    NotTagged(url, "#EXTM3U");
    NotTagged(url, "#EXTINF:");
    NotTagged(url, "#EXTVLCOPT:");
  }

  lemma ClassifyConfigLine(c: PlaylistConfig)
    requires WritableConfig(c)
    ensures Classify(ConfigLine(c)) == HeaderLine(NormalConfig(c))
  {
    ConfigLineShape(c);
    ConfigLineRoundTrip(c);
  }

  lemma {:induction false} TokensOfNothing(slots: seq<Slot>)
    requires forall i | 0 <= i < |slots| :: slots[i].value.None?
    ensures Tokens(slots) == ""
    decreases |slots|
  {
    if slots != [] {
      assert forall i | 0 <= i < |slots| - 1 :: slots[1..][i] == slots[i + 1];
      TokensOfNothing(slots[1..]);
    }
  }

  /** The bare header written when there are no configs is read as a header with nothing in it. */
  lemma ClassifyBareHeader()
    ensures Classify("#EXTM3U") == HeaderLine(EmptyConfig)
  {
    EmptyConfigLine();
    EmptyConfigWritable();
    ClassifyConfigLine(EmptyConfig);
  }

  lemma EmptyConfigWritable()
    ensures WritableConfig(EmptyConfig) && NormalConfig(EmptyConfig) == EmptyConfig
  {
  }

  /** The config line of a config with nothing set is the bare header. */
  lemma EmptyConfigLine()
    ensures ConfigLine(EmptyConfig) == "#EXTM3U"
  {
    TokensOfNothing(ConfigSlots(EmptyConfig));
  }

  lemma ClassifyExtinfLine(ch: ChannelInfo)
    requires WritableAttributes(ch)
    ensures Classify(ExtinfLineOf(ch)) == ExtinfLine(Announced(ch))
  {
    var line := ExtinfLineOf(ch);
    ExtinfLineShape(ch);
    ExtinfLineRoundTrip(ch);
    PrefixChar(line, "#EXTINF:", 4);
    assert !StartsWith(line, "#EXTM3U") by {
      if StartsWith(line, "#EXTM3U") { PrefixChar(line, "#EXTM3U", 4); }
    }
  }

  lemma VlcTagged(line: string)
    requires StartsWith(line, VlcTag)
    ensures TagOf(line) == Vlc
  {
    PrefixChar(line, VlcTag, 4);
    assert !StartsWith(line, "#EXTM3U") by {
      if StartsWith(line, "#EXTM3U") { PrefixChar(line, "#EXTM3U", 4); }
    }
    assert !StartsWith(line, "#EXTINF:") by {
      if StartsWith(line, "#EXTINF:") { PrefixChar(line, "#EXTINF:", 4); }
    }
  }

  lemma ClassifyUserAgentLine(v: string)
    requires WritableOption(v, Referrer)
    ensures Classify(UserAgentPrefix + v) == VlcLine(Some(v), None)
  {
    UserAgentLine(v);
    VlcTagged(UserAgentPrefix + v);
  }

  lemma ClassifyReferrerLine(v: string)
    requires WritableOption(v, UserAgent)
    ensures Classify(ReferrerPrefix + v) == VlcLine(None, Some(v))
  {
    ReferrerLine(v);
    VlcTagged(ReferrerPrefix + v);
  }

  // ----- What the written lines are classified as -----

  /** A channel that the parser reads back: attributes and options it can read, and a stream url alone on a trimmed line. */
  predicate WritableChannel(ch: ChannelInfo) {
    WritableAttributes(ch) && WritableOptions(ch) && IsStreamUrl(ch.url) && IsTrimmed(ch.url) && '\n' !in ch.url
  }

  function UserAgentLines(ch: ChannelInfo): seq<string> {
    if NonEmpty(ch.userAgent).Some? then [UserAgentPrefix + ch.userAgent.value] else []
  }

  function ReferrerLines(ch: ChannelInfo): seq<string> {
    if NonEmpty(ch.referrer).Some? then [ReferrerPrefix + ch.referrer.value] else []
  }

  function UserAgentKinds(ch: ChannelInfo): seq<Line> {
    if NonEmpty(ch.userAgent).Some? then [VlcLine(NonEmpty(ch.userAgent), None)] else []
  }

  function ReferrerKinds(ch: ChannelInfo): seq<Line> {
    if NonEmpty(ch.referrer).Some? then [VlcLine(None, NonEmpty(ch.referrer))] else []
  }

  /** The lines of one channel as the loop sees them. */
  function BlockKinds(ch: ChannelInfo): seq<Line> {
    [ExtinfLine(Announced(ch))] + UserAgentKinds(ch) + ReferrerKinds(ch) + [UrlLine(ch.url)]
  }

  function ChannelKinds(chs: seq<Channel>): seq<Line>
    decreases |chs|
  {
    if chs == [] then [] else ChannelKinds(chs[..|chs| - 1]) + BlockKinds(chs[|chs| - 1].info)
  }

  function HeaderKinds(cfgs: seq<PlaylistConfig>): seq<Line> {
    if cfgs == [] then [HeaderLine(EmptyConfig)] else seq(|cfgs|, k requires 0 <= k < |cfgs| => HeaderLine(NormalConfig(cfgs[k])))
  }

  lemma ClassifyOne(line: string)
    ensures ClassifyAll([line]) == [Classify(line)]
  {
    assert [line][..0] == [];
  }

  lemma ClassifyOptions(ch: ChannelInfo)
    requires WritableOptions(ch)
    ensures ClassifyAll(VlcOptionLines(ch)) == UserAgentKinds(ch) + ReferrerKinds(ch)
  {
    assert VlcOptionLines(ch) == UserAgentLines(ch) + ReferrerLines(ch);
    ClassifyAllAppend(UserAgentLines(ch), ReferrerLines(ch));
    if NonEmpty(ch.userAgent).Some? {
      ClassifyOne(UserAgentPrefix + ch.userAgent.value);
      ClassifyUserAgentLine(ch.userAgent.value);
    }
    if NonEmpty(ch.referrer).Some? {
      ClassifyOne(ReferrerPrefix + ch.referrer.value);
      ClassifyReferrerLine(ch.referrer.value);
    }
  }

  lemma ClassifyBlock(ch: ChannelInfo)
    requires WritableChannel(ch)
    ensures ClassifyAll(Block(ch)) == BlockKinds(ch)
  {
    ClassifyBlockParts(ch);
    ClassifyThree(ExtinfLineOf(ch), VlcOptionLines(ch), ch.url,
      ExtinfLine(Announced(ch)), UserAgentKinds(ch), ReferrerKinds(ch), UrlLine(ch.url));
  }

  /** Classifying a line, some lines and a line, given how each part is classified. */
  lemma ClassifyThree(e: string, options: seq<string>, u: string, ke: Line, k1: seq<Line>, k2: seq<Line>, ku: Line)
    requires ClassifyAll([e]) == [ke] && ClassifyAll(options) == k1 + k2 && ClassifyAll([u]) == [ku]
    ensures ClassifyAll([e] + options + [u]) == [ke] + k1 + k2 + [ku]
  {
    ClassifyAllAppend([e] + options, [u]);
    ClassifyAllAppend([e], options);
  }

  lemma ClassifyBlockParts(ch: ChannelInfo)
    requires WritableChannel(ch)
    ensures ClassifyAll([ExtinfLineOf(ch)]) == [ExtinfLine(Announced(ch))]
    ensures ClassifyAll(VlcOptionLines(ch)) == UserAgentKinds(ch) + ReferrerKinds(ch)
    ensures ClassifyAll([ch.url]) == [UrlLine(ch.url)]
  {
    ClassifyOne(ExtinfLineOf(ch));
    ClassifyExtinfLine(ch);
    ClassifyOptions(ch);
    ClassifyOne(ch.url);
    ClassifyStreamUrl(ch.url);
  }

  lemma {:induction false} ClassifyChannels(chs: seq<Channel>)
    requires forall k | 0 <= k < |chs| :: WritableChannel(chs[k].info)
    ensures ClassifyAll(ChannelLines(chs)) == ChannelKinds(chs)
    decreases |chs|
  {
    if chs != [] {
      var init := chs[..|chs| - 1];
      ClassifyChannels(init);
      ClassifyAllAppend(ChannelLines(init), Block(chs[|chs| - 1].info));
      ClassifyBlock(chs[|chs| - 1].info);
    }
  }

  lemma ClassifyHeader(cfgs: seq<PlaylistConfig>)
    requires forall k | 0 <= k < |cfgs| :: WritableConfig(cfgs[k])
    ensures ClassifyAll(HeaderLines(cfgs)) == HeaderKinds(cfgs)
  {
    if cfgs == [] {
      ClassifyOne("#EXTM3U");
      ClassifyBareHeader();
    } else {
      forall k | 0 <= k < |cfgs| ensures ClassifyAll(HeaderLines(cfgs))[k] == HeaderKinds(cfgs)[k] {
        ClassifyAllAt(HeaderLines(cfgs), k);
        ClassifyConfigLine(cfgs[k]);
      }
    }
  }

  // ----- What the loop makes of them -----

  /** The channel as it is read back: the empty optional strings, which are not written, are missing. */
  function NormalInfo(ch: ChannelInfo): ChannelInfo {
    ch.(tvgId := NonEmpty(ch.tvgId), tvgLogo := NonEmpty(ch.tvgLogo), groupTitle := NonEmpty(ch.groupTitle),
        catchup := NonEmpty(ch.catchup), catchupDays := NonEmpty(ch.catchupDays),
        catchupSource := NonEmpty(ch.catchupSource), userAgent := NonEmpty(ch.userAgent), referrer := NonEmpty(ch.referrer))
  }

  /** The channels as they are read back, in order. */
  function NormalInfos(chs: seq<Channel>): (r: seq<ChannelInfo>)
    ensures |r| == |chs|
  {
    seq(|chs|, k requires 0 <= k < |chs| => NormalInfo(chs[k].info))
  }

  /** The configs as they are read back: those with something written, in order, empty strings missing. */
  function NormalConfigs(cfgs: seq<PlaylistConfig>): seq<PlaylistConfig>
    decreases |cfgs|
  {
    if cfgs == [] then []
    else
      var c := NormalConfig(cfgs[|cfgs| - 1]);
      NormalConfigs(cfgs[..|cfgs| - 1]) + (if c != EmptyConfig then [c] else [])
  }

  lemma RunOne(st: State, line: Line)
    ensures Run(st, [line]) == Step(st, line)
  {
    assert [line][..0] == [];
  }

  /** The option lines set the two options of the accumulator, and nothing else. */
  lemma RunOptions(st: State, ch: ChannelInfo)
    requires st.current.userAgent.None? && st.current.referrer.None?
    ensures Run(st, UserAgentKinds(ch) + ReferrerKinds(ch))
         == st.(current := st.current.(userAgent := NonEmpty(ch.userAgent), referrer := NonEmpty(ch.referrer)))
  {
    RunAppend(st, UserAgentKinds(ch), ReferrerKinds(ch));
    var mid := Run(st, UserAgentKinds(ch));
    if NonEmpty(ch.userAgent).Some? {
      RunOne(st, VlcLine(NonEmpty(ch.userAgent), None));
    }
    if NonEmpty(ch.referrer).Some? {
      RunOne(mid, VlcLine(None, NonEmpty(ch.referrer)));
    }
  }

  /**
   * The lines of one channel, read from any state between two lines,
   * commit exactly that channel and leave the accumulator empty.
   */
  lemma RunBlock(st: State, ch: ChannelInfo)
    requires ch.title != [] && ch.url != [] && !IsComplete(st.current)
    ensures Run(st, BlockKinds(ch)) == State(st.configs, st.channels + [NormalInfo(ch)], NoChannel)
  {
    var options := UserAgentKinds(ch) + ReferrerKinds(ch);
    var announced := State(st.configs, st.channels, Announced(ch));
    assert BlockKinds(ch) == ([ExtinfLine(Announced(ch))] + options) + [UrlLine(ch.url)];
    RunAppend(st, [ExtinfLine(Announced(ch))] + options, [UrlLine(ch.url)]);
    RunAppend(st, [ExtinfLine(Announced(ch))], options);
    RunOne(st, ExtinfLine(Announced(ch)));
    RunOptions(announced, ch);
    RunOne(Run(announced, options), UrlLine(ch.url));
  }

  lemma {:induction false} RunChannels(configs: seq<PlaylistConfig>, done: seq<ChannelInfo>, chs: seq<Channel>)
    requires forall k | 0 <= k < |chs| :: chs[k].info.title != [] && chs[k].info.url != []
    ensures Run(State(configs, done, NoChannel), ChannelKinds(chs)) == State(configs, done + NormalInfos(chs), NoChannel)
    decreases |chs|
  {
    if chs == [] {
      assert done + NormalInfos(chs) == done;
    } else {
      var init := chs[..|chs| - 1];
      var last := chs[|chs| - 1].info;
      RunChannels(configs, done, init);
      RunAppend(State(configs, done, NoChannel), ChannelKinds(init), BlockKinds(last));
      RunBlock(State(configs, done + NormalInfos(init), NoChannel), last);
      NormalInfosSnoc(chs);
      SeqAssoc(done, NormalInfos(init), [NormalInfo(last)]);
    }
  }

  lemma NormalInfosSnoc(chs: seq<Channel>)
    requires chs != []
    ensures NormalInfos(chs) == NormalInfos(chs[..|chs| - 1]) + [NormalInfo(chs[|chs| - 1].info)]
  {
  }

  lemma {:induction false} RunConfigLines(cfgs: seq<PlaylistConfig>, n: nat)
    requires cfgs != [] && n <= |cfgs|
    ensures Run(Start, HeaderKinds(cfgs)[..n]) == State(NormalConfigs(cfgs[..n]), [], NoChannel)
  {
    if n > 0 {
      RunConfigLines(cfgs, n - 1);
      RunSnoc(Start, HeaderKinds(cfgs), n - 1);
      assert cfgs[..n][..n - 1] == cfgs[..n - 1];
    }
  }

  /** The header lines leave the parser with the configs read back and nothing else. */
  lemma RunHeader(cfgs: seq<PlaylistConfig>)
    ensures Run(Start, HeaderKinds(cfgs)) == State(NormalConfigs(cfgs), [], NoChannel)
  {
    if cfgs == [] {
      RunOne(Start, HeaderLine(EmptyConfig));
    } else {
      RunConfigLines(cfgs, |cfgs|);
      assert HeaderKinds(cfgs)[..|cfgs|] == HeaderKinds(cfgs);
      assert cfgs[..|cfgs|] == cfgs;
    }
  }

  // ----- Every written line survives `preprocessLines` -----

  /** Lines that `preprocessLines` keeps as they are once they are written one per line. */
  predicate Written(lines: seq<string>) {
    forall i | 0 <= i < |lines| :: IsPlainLine(lines[i]) && IsTrimmed(lines[i]) && Kept(lines[i])
  }

  lemma WrittenAppend(a: seq<string>, b: seq<string>)
    requires Written(a) && Written(b)
    ensures Written(a + b)
  {
    forall i | 0 <= i < |a + b| ensures IsPlainLine((a + b)[i]) && IsTrimmed((a + b)[i]) && Kept((a + b)[i]) {
      if i >= |a| {
        assert (a + b)[i] == b[i - |a|];
      }
    }
  }

  lemma HeaderWritten(cfgs: seq<PlaylistConfig>)
    requires forall k | 0 <= k < |cfgs| :: WritableConfig(cfgs[k])
    ensures Written(HeaderLines(cfgs))
  {
    if cfgs != [] {
      forall i | 0 <= i < |cfgs| ensures IsPlainLine(HeaderLines(cfgs)[i]) && IsTrimmed(HeaderLines(cfgs)[i]) && Kept(HeaderLines(cfgs)[i]) {
        ConfigLineShape(cfgs[i]);
      }
    }
  }

  lemma OptionsWritten(ch: ChannelInfo)
    requires WritableOptions(ch)
    ensures Written(VlcOptionLines(ch))
  {
    if NonEmpty(ch.userAgent).Some? {
      UserAgentLine(ch.userAgent.value);
    }
    if NonEmpty(ch.referrer).Some? {
      ReferrerLine(ch.referrer.value);
    }
    assert VlcOptionLines(ch) == UserAgentLines(ch) + ReferrerLines(ch);
    WrittenAppend(UserAgentLines(ch), ReferrerLines(ch));
  }

  lemma BlockWritten(ch: ChannelInfo)
    requires WritableChannel(ch)
    ensures Written(Block(ch))
  {
    ExtinfLineShape(ch);
    OptionsWritten(ch);
    ClassifyStreamUrl(ch.url);
    assert ch.url[|ch.url| - 1] != '\r';
    WrittenAppend([ExtinfLineOf(ch)], VlcOptionLines(ch));
    WrittenAppend([ExtinfLineOf(ch)] + VlcOptionLines(ch), [ch.url]);
  }

  lemma {:induction false} ChannelLinesWritten(chs: seq<Channel>)
    requires forall k | 0 <= k < |chs| :: WritableChannel(chs[k].info)
    ensures Written(ChannelLines(chs))
    decreases |chs|
  {
    if chs != [] {
      var init := chs[..|chs| - 1];
      ChannelLinesWritten(init);
      BlockWritten(chs[|chs| - 1].info);
      WrittenAppend(ChannelLines(init), Block(chs[|chs| - 1].info));
    }
  }

  // ----- The round trip -----

  lemma WritableIsValid(c: Channel)
    requires WritableChannel(c.info)
    ensures !Invalid(c) && c.info.title != [] && c.info.url != []
  {
    KeptTitle(c.info.title);
    KeptUrl(c.info.url);
  }

  lemma KeptTitle(title: string)
    requires WritableTitle(title)
    ensures Trim(title) == title && title != []
  {
    TrimOfTrimmed(title);
  }

  lemma KeptUrl(url: string)
    requires IsStreamUrl(url) && IsTrimmed(url)
    ensures Trim(url) == url && url != []
  {
    TrimOfTrimmed(url);
  }

  lemma JoinFront(lines: seq<string>)
    requires |lines| > 0 && lines[0] != []
    ensures (Join(lines) + "\n")[0] == lines[0][0]
  {
  }

  /** The written lines, classified: the header lines, then each channel's lines. */
  lemma ClassifyOutput(chs: seq<Channel>, cfgs: seq<PlaylistConfig>)
    requires forall k | 0 <= k < |chs| :: WritableChannel(chs[k].info)
    requires forall k | 0 <= k < |cfgs| :: WritableConfig(cfgs[k])
    ensures ClassifyAll(OutputLines(chs, cfgs)) == HeaderKinds(cfgs) + ChannelKinds(chs)
  {
    ClassifyAllAppend(HeaderLines(cfgs), ChannelLines(chs));
    ClassifyHeader(cfgs);
    ClassifyChannels(chs);
  }

  /** The loop run over the written lines ends with the configs and the channels read back, and nothing pending. */
  lemma RunOutput(chs: seq<Channel>, cfgs: seq<PlaylistConfig>)
    requires forall k | 0 <= k < |chs| :: chs[k].info.title != [] && chs[k].info.url != []
    ensures Run(Start, HeaderKinds(cfgs) + ChannelKinds(chs)) == State(NormalConfigs(cfgs), NormalInfos(chs), NoChannel)
  {
    RunAppend(Start, HeaderKinds(cfgs), ChannelKinds(chs));
    RunHeader(cfgs);
    RunChannels(NormalConfigs(cfgs), [], chs);
    assert [] + NormalInfos(chs) == NormalInfos(chs);
  }

  /** The written lines are kept by `preprocessLines` as they are, and the first starts with `#`. */
  lemma OutputWritten(chs: seq<Channel>, cfgs: seq<PlaylistConfig>)
    requires forall k | 0 <= k < |chs| :: WritableChannel(chs[k].info)
    requires forall k | 0 <= k < |cfgs| :: WritableConfig(cfgs[k])
    ensures Written(OutputLines(chs, cfgs))
    ensures OutputLines(chs, cfgs)[0] != [] && OutputLines(chs, cfgs)[0][0] == '#'
  {
    var header := HeaderLines(cfgs);
    HeaderWritten(cfgs);
    ChannelLinesWritten(chs);
    WrittenAppend(header, ChannelLines(chs));
    assert OutputLines(chs, cfgs)[0] == header[0];
    if cfgs != [] {
      ConfigLineShape(cfgs[0]);
      PrefixChar(header[0], "#EXTM3U", 0);
    }
  }

  /** The channels a round trip starts from pass the validation of `generateM3U8Content`. */
  lemma GenerateOk(chs: seq<Channel>, cfgs: seq<PlaylistConfig>)
    requires forall k | 0 <= k < |chs| :: WritableChannel(chs[k].info)
    ensures Generate(chs, cfgs) == Ok(Join(OutputLines(chs, cfgs)) + "\n")
  {
    forall k | 0 <= k < |chs| ensures !Invalid(chs[k]) {
      WritableIsValid(chs[k]);
    }
  }

  /** Reading the written lines: the loop over exactly those lines, then the flush. */
  lemma ParseWritten(lines: seq<string>)
    requires Written(lines) && |lines| > 0 && lines[0] != [] && lines[0][0] == '#'
    ensures var st := Run(Start, ClassifyAll(lines)); Parse(Join(lines) + "\n") == Ok(Parsed(st.configs, Finish(st)))
  {
    PreprocessJoin(lines);
    JoinFront(lines);
  }

  /** The loop over the written lines. */
  lemma ReadOutput(chs: seq<Channel>, cfgs: seq<PlaylistConfig>)
    requires forall k | 0 <= k < |chs| :: WritableChannel(chs[k].info)
    requires forall k | 0 <= k < |cfgs| :: WritableConfig(cfgs[k])
    ensures Run(Start, ClassifyAll(OutputLines(chs, cfgs))) == State(NormalConfigs(cfgs), NormalInfos(chs), NoChannel)
  {
    forall k | 0 <= k < |chs| ensures chs[k].info.title != [] && chs[k].info.url != [] {
      WritableIsValid(chs[k]);
    }
    ClassifyOutput(chs, cfgs);
    RunOutput(chs, cfgs);
  }

  /**
   * What `generateM3U8Content` writes, `parseM3U8Content` reads back:
   * the configs that have something to write, and every channel in
   * order, each with the empty optional strings missing.
   */
  lemma GenerateParseRoundTrip(chs: seq<Channel>, cfgs: seq<PlaylistConfig>)
    requires forall k | 0 <= k < |chs| :: WritableChannel(chs[k].info)
    requires forall k | 0 <= k < |cfgs| :: WritableConfig(cfgs[k])
    ensures Generate(chs, cfgs).Ok?
    ensures Parse(Generate(chs, cfgs).value) == Ok(Parsed(NormalConfigs(cfgs), NormalInfos(chs)))
  {
    GenerateOk(chs, cfgs);
    OutputWritten(chs, cfgs);
    ParseWritten(OutputLines(chs, cfgs));
    ReadOutput(chs, cfgs);
  }

  // ----- When nothing is lost -----

  /** An optional string that is either missing or not empty. */
  predicate Stated(o: Option<string>) {
    o.Some? ==> o.value != []
  }

  /** A channel without empty optional strings. */
  predicate FullyStated(ch: ChannelInfo) {
    Stated(ch.tvgId) && Stated(ch.tvgLogo) && Stated(ch.groupTitle) && Stated(ch.catchup)
    && Stated(ch.catchupDays) && Stated(ch.catchupSource) && Stated(ch.userAgent) && Stated(ch.referrer)
  }

  /** A config with at least one setting and without empty strings. */
  predicate FullyStatedConfig(c: PlaylistConfig) {
    c != EmptyConfig && Stated(c.urlTvg) && Stated(c.refresh) && Stated(c.aspectRatio)
  }

  lemma {:induction false} NormalConfigsOfStated(cfgs: seq<PlaylistConfig>)
    requires forall k | 0 <= k < |cfgs| :: FullyStatedConfig(cfgs[k])
    ensures NormalConfigs(cfgs) == cfgs
    decreases |cfgs|
  {
    if cfgs != [] {
      var init := cfgs[..|cfgs| - 1];
      NormalConfigsOfStated(init);
      assert NormalConfig(cfgs[|cfgs| - 1]) == cfgs[|cfgs| - 1];
      assert cfgs == init + [cfgs[|cfgs| - 1]];
    }
  }

  /**
   * The round trip without loss: when no optional string is empty and
   * every config sets something, the parser returns exactly the configs
   * and the channels, without their ids.
   */
  lemma GenerateParseExact(chs: seq<Channel>, cfgs: seq<PlaylistConfig>)
    requires forall k | 0 <= k < |chs| :: WritableChannel(chs[k].info) && FullyStated(chs[k].info)
    requires forall k | 0 <= k < |cfgs| :: WritableConfig(cfgs[k]) && FullyStatedConfig(cfgs[k])
    ensures Generate(chs, cfgs).Ok?
    ensures var infos := seq(|chs|, k requires 0 <= k < |chs| => chs[k].info);
      Parse(Generate(chs, cfgs).value) == Ok(Parsed(cfgs, infos))
  {
    GenerateParseRoundTrip(chs, cfgs);
    NormalConfigsOfStated(cfgs);
    NormalInfosOfStated(chs);
  }

  lemma NormalInfosOfStated(chs: seq<Channel>)
    requires forall k | 0 <= k < |chs| :: FullyStated(chs[k].info)
    ensures NormalInfos(chs) == seq(|chs|, k requires 0 <= k < |chs| => chs[k].info)
  {
  }
}
