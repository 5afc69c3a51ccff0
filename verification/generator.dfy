/**
 * `buildConfigLine`, `buildExtinfLine`, `buildVlcOptionLines`,
 * `validateChannelsForGeneration` and `generateM3U8Content` of
 * lib/m3u8-parser.ts. The builders append one attribute token per
 * property that passes its template guard; the tokens are the `Slot`s of
 * the same tables the parser reads, which is what lets the round trip be
 * proved attribute by attribute.
 */
module Generator {
  import opened Wrappers
  import opened Text
  import opened Tables
  import opened Attributes
  import opened Types

  /** The guard `value ? ... : ""` of a string property: present and not empty. */
  function NonEmpty(o: Option<string>): Option<string> {
    if o.Some? && o.value != [] then o else None
  }

  /** The guard `value !== undefined ? ... : ""` of a numeric property: written in decimal whenever present. */
  function Numeral(o: Option<nat>): Option<string> {
    if o.Some? then Some(DecimalString(o.value)) else None
  }

  /** `configEntries` of `buildConfigLine`, in its order. */
  function ConfigSlots(c: PlaylistConfig): seq<Slot> {
    [ Slot(UrlTvg, NonEmpty(c.urlTvg)),
      Slot(TvgShift, Numeral(c.tvgShift)),
      Slot(Refresh, NonEmpty(c.refresh)),
      Slot(Cache, Numeral(c.cache)),
      Slot(Interlace, Numeral(c.interlace)),
      Slot(AspectRatio, NonEmpty(c.aspectRatio)),
      Slot(M3uAutoload, Numeral(c.m3uAutoload)) ]
  }

  /** The line `buildConfigLine` returns: `#EXTM3U` and the tokens of the written properties. */
  function ConfigLine(c: PlaylistConfig): string {
    "#EXTM3U" + Tokens(ConfigSlots(c))
  }

  /** Appending the entries in order, skipping the empty ones, builds the tokens of the slots. */
  method AppendEntries(start: string, slots: seq<Slot>) returns (line: string)
    ensures line == start + Tokens(slots)
  {
    line := start;
    for i := 0 to |slots|
      invariant line == start + Tokens(slots[..i])
    {
      var value := Entry(slots[i]);
      if value != [] {
        line := line + value;
      }
      TokensStep(slots, i);
    }
    assert slots[..|slots|] == slots;
  }

  lemma TokensStep(slots: seq<Slot>, i: nat)
    requires i < |slots|
    ensures Tokens(slots[..i + 1]) == Tokens(slots[..i]) + Entry(slots[i])
  {
    assert slots[..i + 1] == slots[..i] + [slots[i]];
    TokensSnoc(slots[..i], slots[i]);
  }

  /** `buildConfigLine`. */
  method BuildConfigLine(config: PlaylistConfig) returns (line: string)
    ensures line == ConfigLine(config)
  {
    line := AppendEntries("#EXTM3U", ConfigSlots(config));
  }

  /** `channelEntries` of `buildExtinfLine`, in its order. */
  function ChannelSlots(ch: ChannelInfo): seq<Slot> {
    [ Slot(TvgId, NonEmpty(ch.tvgId)),
      Slot(GroupTitle, NonEmpty(ch.groupTitle)),
      Slot(TvgLogo, NonEmpty(ch.tvgLogo)),
      Slot(Catchup, NonEmpty(ch.catchup)),
      Slot(CatchupDays, NonEmpty(ch.catchupDays)),
      Slot(CatchupSource, NonEmpty(ch.catchupSource)) ]
  }

  /** The line `buildExtinfLine` returns: duration `-1`, the attribute tokens, a comma and the title as it is. */
  function ExtinfLineOf(ch: ChannelInfo): string {
    "#EXTINF:-1" + Tokens(ChannelSlots(ch)) + "," + ch.title
  }

  /** `buildExtinfLine`. */
  method BuildExtinfLine(channel: Channel) returns (line: string)
    ensures line == ExtinfLineOf(channel.info)
  {
    line := AppendEntries("#EXTINF:-1", ChannelSlots(channel.info));
    line := line + "," + channel.info.title;
  }

  /** The option lines start `#EXTVLCOPT:http-user-agent=` and `#EXTVLCOPT:http-referrer=`: the tag, then the row's anchor. */
  const VlcTag := "#EXTVLCOPT:"
  const UserAgentPrefix := VlcTag + Anchor(UserAgent)
  const ReferrerPrefix := VlcTag + Anchor(Referrer)

  /** The lines `buildVlcOptionLines` returns: one per non-empty option, user agent first. */
  function VlcOptionLines(ch: ChannelInfo): seq<string> {
    (if NonEmpty(ch.userAgent).Some? then [UserAgentPrefix + ch.userAgent.value] else [])
    + (if NonEmpty(ch.referrer).Some? then [ReferrerPrefix + ch.referrer.value] else [])
  }

  /** `buildVlcOptionLines`. */
  method BuildVlcOptionLines(channel: Channel) returns (lines: seq<string>)
    ensures lines == VlcOptionLines(channel.info)
  {
    lines := [];
    if channel.info.userAgent.Some? && channel.info.userAgent.value != [] {
      lines := lines + [UserAgentPrefix + channel.info.userAgent.value];
    }
    if channel.info.referrer.Some? && channel.info.referrer.value != [] {
      lines := lines + [ReferrerPrefix + channel.info.referrer.value];
    }
  }

  /** The test of the filter in `validateChannelsForGeneration`: a title or url that is empty once trimmed. */
  predicate Invalid(c: Channel) {
    Trim(c.info.title) == [] || Trim(c.info.url) == []
  }

  /** `channels.filter(...)` of the invalid channels, in order. */
  function InvalidChannels(chs: seq<Channel>): seq<Channel>
    decreases |chs|
  {
    if chs == [] then []
    else (if Invalid(chs[0]) then [chs[0]] else []) + InvalidChannels(chs[1..])
  }

  /** The filter keeps exactly the invalid channels, and no more of them than there are channels. */
  lemma InvalidChannelsSound(chs: seq<Channel>)
    ensures |InvalidChannels(chs)| <= |chs|
    ensures forall k | 0 <= k < |InvalidChannels(chs)| :: Invalid(InvalidChannels(chs)[k]) && InvalidChannels(chs)[k] in chs
    ensures forall k | 0 <= k < |chs| :: Invalid(chs[k]) ==> chs[k] in InvalidChannels(chs)
    ensures forall x :: multiset(InvalidChannels(chs))[x] == if Invalid(x) then multiset(chs)[x] else 0
  {
    InvalidChannelsLength(chs);
    forall x ensures multiset(InvalidChannels(chs))[x] == if Invalid(x) then multiset(chs)[x] else 0 {
      InvalidChannelsCount(chs, x);
    }
    var r := InvalidChannels(chs);
    forall k | 0 <= k < |r| ensures Invalid(r[k]) && r[k] in chs {
      InvalidChannelKept(chs, r[k]);
    }
    forall k | 0 <= k < |chs| && Invalid(chs[k]) ensures chs[k] in r {
      InvalidChannelFound(chs, k);
    }
  }

  /** The filter keeps every invalid channel as often as it occurs and no valid one, so its length is the number of invalid channels. */
  lemma {:induction false} InvalidChannelsCount(chs: seq<Channel>, x: Channel)
    ensures multiset(InvalidChannels(chs))[x] == if Invalid(x) then multiset(chs)[x] else 0
    decreases |chs|
  {
    if chs != [] {
      InvalidChannelsCount(chs[1..], x);
      assert chs == [chs[0]] + chs[1..];
    }
  }

  lemma {:induction false} InvalidChannelsLength(chs: seq<Channel>)
    ensures |InvalidChannels(chs)| <= |chs|
    decreases |chs|
  {
    if chs != [] {
      InvalidChannelsLength(chs[1..]);
    }
  }

  lemma {:induction false} InvalidChannelKept(chs: seq<Channel>, x: Channel)
    requires x in InvalidChannels(chs)
    ensures Invalid(x) && x in chs
    decreases |chs|
  {
    var head: seq<Channel> := if Invalid(chs[0]) then [chs[0]] else [];
    assert InvalidChannels(chs) == head + InvalidChannels(chs[1..]);
    if x !in head {
      InvalidChannelKept(chs[1..], x);
    }
  }

  lemma {:induction false} InvalidChannelFound(chs: seq<Channel>, k: nat)
    requires k < |chs| && Invalid(chs[k])
    ensures chs[k] in InvalidChannels(chs)
    decreases |chs|
  {
    var head: seq<Channel> := if Invalid(chs[0]) then [chs[0]] else [];
    assert InvalidChannels(chs) == head + InvalidChannels(chs[1..]);
    if k > 0 {
      InvalidChannelFound(chs[1..], k - 1);
    }
  }

  /** The message `validateChannelsForGeneration` throws with. */
  function InvalidMessage(count: nat): string {
    "Found " + DecimalString(count) + " invalid channel(s). All channels must have title and url."
  }

  /** `validateChannelsForGeneration`: the error it throws, if any. */
  function ValidateChannels(chs: seq<Channel>): (r: Option<string>)
    ensures r.None? <==> forall k | 0 <= k < |chs| :: !Invalid(chs[k])
    ensures r.Some? ==> r.value == InvalidMessage(|InvalidChannels(chs)|) && |InvalidChannels(chs)| > 0
  {
    var invalid := InvalidChannels(chs);
    InvalidChannelsSound(chs);
    if |invalid| > 0 then
      assert Invalid(invalid[0]);
      Some(InvalidMessage(|invalid|))
    else None
  }

  /** The header lines: one config line per config, or a bare `#EXTM3U` when there are none. */
  function HeaderLines(cfgs: seq<PlaylistConfig>): (r: seq<string>)
    ensures |r| == if cfgs == [] then 1 else |cfgs|
  {
    if cfgs == [] then ["#EXTM3U"] else seq(|cfgs|, k requires 0 <= k < |cfgs| => ConfigLine(cfgs[k]))
  }

  /** The lines written for one channel: its `#EXTINF` line, its VLC options and its url. */
  function Block(ch: ChannelInfo): seq<string> {
    [ExtinfLineOf(ch)] + VlcOptionLines(ch) + [ch.url]
  }

  /** The blocks of the channels, in order. */
  function ChannelLines(chs: seq<Channel>): seq<string>
    decreases |chs|
  {
    if chs == [] then [] else ChannelLines(chs[..|chs| - 1]) + Block(chs[|chs| - 1].info)
  }

  lemma ChannelLinesSnoc(chs: seq<Channel>, i: nat, header: seq<string>, before: seq<string>, after: seq<string>)
    requires i < |chs| && before == header + ChannelLines(chs[..i]) && after == before + Block(chs[i].info)
    ensures after == header + ChannelLines(chs[..i + 1])
  {
    ChannelLinesStep(chs, i);
    SeqAssoc(header, ChannelLines(chs[..i]), Block(chs[i].info));
  }

  lemma ChannelLinesStep(chs: seq<Channel>, i: nat)
    requires i < |chs|
    ensures ChannelLines(chs[..i + 1]) == ChannelLines(chs[..i]) + Block(chs[i].info)
  {
    assert chs[..i + 1][..i] == chs[..i];
  }

  /** The three pushes of one channel append its block. */
  lemma PushBlock(before: seq<string>, extinf: string, options: seq<string>, ch: ChannelInfo)
    requires extinf == ExtinfLineOf(ch) && options == VlcOptionLines(ch)
    ensures before + [extinf] + options + [ch.url] == before + Block(ch)
  {
    assert Block(ch) == [extinf] + options + [ch.url];
  }

  lemma SeqAssoc<T>(a: seq<T>, b: seq<T>, c: seq<T>)
    ensures (a + b) + c == a + (b + c)
  {
  }

  /** `lines` of `generateM3U8Content` once both loops have run. */
  function OutputLines(chs: seq<Channel>, cfgs: seq<PlaylistConfig>): seq<string> {
    HeaderLines(cfgs) + ChannelLines(chs)
  }

  /** `generateM3U8Content`: the error of the validation, or the lines joined with `\n` and one final `\n`. */
  function Generate(chs: seq<Channel>, cfgs: seq<PlaylistConfig>): (r: Result<string, string>)
    ensures r.Ok? <==> forall k | 0 <= k < |chs| :: !Invalid(chs[k])
    ensures r.Err? ==> r.error == InvalidMessage(|InvalidChannels(chs)|)
  {
    match ValidateChannels(chs)
    case Some(message) => Err(message)
    case None => Ok(Join(OutputLines(chs, cfgs)) + "\n")
  }

  /** The first part of `generateM3U8Content`: `configs.forEach` pushing the config lines, or the bare header. */
  method BuildHeaderLines(cfgs: seq<PlaylistConfig>) returns (lines: seq<string>)
    ensures lines == HeaderLines(cfgs)
  {
    lines := [];
    if |cfgs| > 0 {
      for i := 0 to |cfgs|
        invariant |lines| == i
        invariant forall k | 0 <= k < i :: lines[k] == ConfigLine(cfgs[k])
      {
        var line := BuildConfigLine(cfgs[i]);
        lines := lines + [line];
      }
    } else {
      lines := lines + ["#EXTM3U"];
    }
  }

  /** The second part of `generateM3U8Content`: `channels.forEach` pushing each channel's lines. */
  method PushChannels(header: seq<string>, chs: seq<Channel>) returns (lines: seq<string>)
    ensures lines == header + ChannelLines(chs)
  {
    lines := header;
    for i := 0 to |chs|
      invariant lines == header + ChannelLines(chs[..i])
    {
      ghost var before := lines;
      var extinf := BuildExtinfLine(chs[i]);
      var options := BuildVlcOptionLines(chs[i]);
      lines := lines + [extinf];
      lines := lines + options;
      lines := lines + [chs[i].info.url];
      PushBlock(before, extinf, options, chs[i].info);
      ChannelLinesSnoc(chs, i, header, before, lines);
    }
    assert chs[..|chs|] == chs;
  }

  /** `generateM3U8Content` as the source writes it: validate, push the headers, then each channel's lines. */
  method GenerateM3U8Content(chs: seq<Channel>, cfgs: seq<PlaylistConfig>) returns (r: Result<string, string>)
    ensures r == Generate(chs, cfgs)
  {
    var error := ValidateChannels(chs);
    if error.Some? {
      return Err(error.value);
    }
    var lines := BuildHeaderLines(cfgs);
    lines := PushChannels(lines, chs);
    return Ok(Join(lines) + "\n");
  }
}
