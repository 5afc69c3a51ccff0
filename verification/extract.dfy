/**
 * `extractConfigFromExtM3U`, `extractChannelFromExtInf` and
 * `extractVlcOptions` of lib/m3u8-parser.ts. Each walks its extractor
 * table and stores every value a pattern finds under the row's property
 * (`(obj as any)[key] = value`). The walks are methods; the functions
 * `ConfigOf`, `ChannelOf` and `WithVlcOptions` say property by property
 * what the walks build.
 */
module Extract {
  import opened Wrappers
  import opened Text
  import opened Scan
  import opened Tables
  import opened Types

  /** `line.match(pattern)?.[1]` for the pattern of row `f`. */
  function FindField(line: string, f: Field): Option<string> {
    Find(line, Anchor(f), f.kind)
  }

  /** A digits row: the capture read with `Number.parseInt(match[1], 10)`. */
  function FindNumber(line: string, f: Field): Option<nat>
    requires f.kind == Digits
  {
    FindDigitsSound(line, Anchor(f));
    match FindField(line, f)
    case None => None
    case Some(v) => Some(DecimalValue(v))
  }

  /** A value stored in a config: the header settings are strings or numbers. */
  datatype Value = Text(text: string) | Number(number: nat)

  function AsText(o: Option<string>): Option<Value> {
    if o.Some? then Some(Text(o.value)) else None
  }

  function AsNumber(o: Option<nat>): Option<Value> {
    if o.Some? then Some(Number(o.value)) else None
  }

  /** What the extractor of row `i` of `CONFIG_EXTRACTORS` returns for `line`. */
  function ConfigExtractor(line: string, i: nat): Option<Value>
    requires i < |ConfigTable|
  {
    var f := ConfigTable[i];
    if f.kind == Digits then AsNumber(FindNumber(line, f)) else AsText(FindField(line, f))
  }

  /** The config property that row `i` fills. */
  function ConfigProperty(c: PlaylistConfig, i: nat): Option<Value>
    requires i < |ConfigTable|
  {
    match i
    case 0 => AsText(c.urlTvg)
    case 1 => AsNumber(c.tvgShift)
    case 2 => AsText(c.refresh)
    case 3 => AsNumber(c.cache)
    case 4 => AsNumber(c.interlace)
    case 5 => AsText(c.aspectRatio)
    case 6 => AsNumber(c.m3uAutoload)
  }

  /** `(config as any)[key] = value`: only the property of row `i` changes. */
  function SetConfigProperty(c: PlaylistConfig, i: nat, v: Value): (r: PlaylistConfig)
    requires i < |ConfigTable| && (v.Number? <==> ConfigTable[i].kind == Digits)
    ensures ConfigProperty(r, i) == Some(v)
    ensures forall j | 0 <= j < |ConfigTable| && j != i :: ConfigProperty(r, j) == ConfigProperty(c, j)
  {
    match i
    case 0 => c.(urlTvg := Some(v.text))
    case 1 => c.(tvgShift := Some(v.number))
    case 2 => c.(refresh := Some(v.text))
    case 3 => c.(cache := Some(v.number))
    case 4 => c.(interlace := Some(v.number))
    case 5 => c.(aspectRatio := Some(v.text))
    case 6 => c.(m3uAutoload := Some(v.number))
  }

  /** The config of an `#EXTM3U` line: every property is what its own pattern finds anywhere in the line. */
  function ConfigOf(line: string): PlaylistConfig {
    PlaylistConfig(
      urlTvg := FindField(line, UrlTvg),
      tvgShift := FindNumber(line, TvgShift),
      refresh := FindField(line, Refresh),
      cache := FindNumber(line, Cache),
      interlace := FindNumber(line, Interlace),
      aspectRatio := FindField(line, AspectRatio),
      m3uAutoload := FindNumber(line, M3uAutoload))
  }

  lemma ConfigOfProperties(line: string)
    ensures forall i | 0 <= i < |ConfigTable| :: ConfigProperty(ConfigOf(line), i) == ConfigExtractor(line, i)
  {
    forall i | 0 <= i < |ConfigTable| ensures ConfigProperty(ConfigOf(line), i) == ConfigExtractor(line, i) {
      ConfigRow(line, i);
    }
  }

  lemma ConfigRow(line: string, i: nat)
    requires i < |ConfigTable|
    ensures ConfigProperty(ConfigOf(line), i) == ConfigExtractor(line, i)
  {
    match i
    case 0 => assert ConfigTable[0] == UrlTvg;
    case 1 => assert ConfigTable[1] == TvgShift;
    case 2 => assert ConfigTable[2] == Refresh;
    case 3 => assert ConfigTable[3] == Cache;
    case 4 => assert ConfigTable[4] == Interlace;
    case 5 => assert ConfigTable[5] == AspectRatio;
    case 6 => assert ConfigTable[6] == M3uAutoload;
  }

  /** A config is determined by its seven properties. */
  lemma ConfigByProperties(c: PlaylistConfig, d: PlaylistConfig)
    requires forall i | 0 <= i < |ConfigTable| :: ConfigProperty(c, i) == ConfigProperty(d, i)
    ensures c == d
  {
    assert ConfigProperty(c, 0) == ConfigProperty(d, 0);
    assert ConfigProperty(c, 1) == ConfigProperty(d, 1);
    assert ConfigProperty(c, 2) == ConfigProperty(d, 2);
    assert ConfigProperty(c, 3) == ConfigProperty(d, 3);
    assert ConfigProperty(c, 4) == ConfigProperty(d, 4);
    assert ConfigProperty(c, 5) == ConfigProperty(d, 5);
    assert ConfigProperty(c, 6) == ConfigProperty(d, 6);
  }

  /** A config is empty (`Object.keys(config).length === 0`) exactly when all seven properties are missing. */
  lemma ConfigEmptyIff(c: PlaylistConfig)
    ensures c == EmptyConfig <==> forall i | 0 <= i < |ConfigTable| :: ConfigProperty(c, i).None?
  {
    if forall i | 0 <= i < |ConfigTable| :: ConfigProperty(c, i).None? {
      assert ConfigProperty(c, 0).None? && ConfigProperty(c, 1).None? && ConfigProperty(c, 2).None?;
      assert ConfigProperty(c, 3).None? && ConfigProperty(c, 4).None? && ConfigProperty(c, 5).None?;
      assert ConfigProperty(c, 6).None?;
    }
  }

  /** The config of a line is empty exactly when no row's pattern matches it. */
  lemma ConfigOfEmpty(line: string)
    ensures ConfigOf(line) == EmptyConfig <==> forall i | 0 <= i < |ConfigTable| :: ConfigExtractor(line, i).None?
  {
    ConfigOfProperties(line);
    ConfigEmptyIff(ConfigOf(line));
  }

  /** `extractConfigFromExtM3U`: the loop over `CONFIG_EXTRACTORS`. */
  method ExtractConfigFromExtM3U(line: string) returns (config: PlaylistConfig)
    ensures config == ConfigOf(line)
  {
    config := EmptyConfig;
    for i := 0 to |ConfigTable|
      invariant forall j | 0 <= j < i :: ConfigProperty(config, j) == ConfigExtractor(line, j)
      invariant forall j | i <= j < |ConfigTable| :: ConfigProperty(config, j) == None
    {
      var value := ConfigExtractor(line, i);
      if value.Some? {
        config := SetConfigProperty(config, i, value.value);
      }
    }
    ConfigOfProperties(line);
    ConfigByProperties(config, ConfigOf(line));
  }

  /**
   * `Partial<Omit<Channel, "id">>`, the accumulator of the parser: a
   * channel whose properties may all be missing.
   */
  datatype Partial = Partial(
    title: Option<string>,
    url: Option<string>,
    tvgId: Option<string>,
    tvgLogo: Option<string>,
    groupTitle: Option<string>,
    catchup: Option<string>,
    catchupDays: Option<string>,
    catchupSource: Option<string>,
    userAgent: Option<string>,
    referrer: Option<string>)

  /** The empty object `{}`. */
  const NoChannel := Partial(None, None, None, None, None, None, None, None, None, None)

  /** The channel property that row `i` of `CHANNEL_EXTRACTORS` fills. */
  function ChannelProperty(p: Partial, i: nat): Option<string>
    requires i < |ChannelTable|
  {
    match i
    case 0 => p.tvgId
    case 1 => p.groupTitle
    case 2 => p.tvgLogo
    case 3 => p.catchup
    case 4 => p.catchupDays
    case 5 => p.catchupSource
  }

  /** `(channel as any)[key] = value` for row `i` of `CHANNEL_EXTRACTORS`: only that property changes. */
  function SetChannelProperty(p: Partial, i: nat, v: string): (r: Partial)
    requires i < |ChannelTable|
    ensures ChannelProperty(r, i) == Some(v)
    ensures forall j | 0 <= j < |ChannelTable| && j != i :: ChannelProperty(r, j) == ChannelProperty(p, j)
    ensures r.title == p.title && r.url == p.url && r.userAgent == p.userAgent && r.referrer == p.referrer
  {
    match i
    case 0 => p.(tvgId := Some(v))
    case 1 => p.(groupTitle := Some(v))
    case 2 => p.(tvgLogo := Some(v))
    case 3 => p.(catchup := Some(v))
    case 4 => p.(catchupDays := Some(v))
    case 5 => p.(catchupSource := Some(v))
  }

  /** The title extractor `line.match(/,(.+)$/)?.[1]?.trim()`. */
  function FindTitle(line: string): Option<string> {
    match Find(line, TitleAnchor, Rest)
    case None => None
    case Some(t) => Some(Trim(t))
  }

  /** The attributes of an `#EXTINF:` line, each found by its own pattern anywhere in the line. */
  function ChannelOf(line: string): Partial {
    Partial(
      title := FindTitle(line),
      url := None,
      tvgId := FindField(line, TvgId),
      tvgLogo := FindField(line, TvgLogo),
      groupTitle := FindField(line, GroupTitle),
      catchup := FindField(line, Catchup),
      catchupDays := FindField(line, CatchupDays),
      catchupSource := FindField(line, CatchupSource),
      userAgent := None,
      referrer := None)
  }

  lemma ChannelOfProperties(line: string)
    ensures forall i | 0 <= i < |ChannelTable| :: ChannelProperty(ChannelOf(line), i) == FindField(line, ChannelTable[i])
  {
    forall i | 0 <= i < |ChannelTable| ensures ChannelProperty(ChannelOf(line), i) == FindField(line, ChannelTable[i]) {
      ChannelRow(line, i);
    }
  }

  lemma ChannelRow(line: string, i: nat)
    requires i < |ChannelTable|
    ensures ChannelProperty(ChannelOf(line), i) == FindField(line, ChannelTable[i])
  {
    match i
    case 0 => assert ChannelTable[0] == TvgId;
    case 1 => assert ChannelTable[1] == GroupTitle;
    case 2 => assert ChannelTable[2] == TvgLogo;
    case 3 => assert ChannelTable[3] == Catchup;
    case 4 => assert ChannelTable[4] == CatchupDays;
    case 5 => assert ChannelTable[5] == CatchupSource;
  }

  /** Two accumulators with the same title, url and VLC options are equal when all six table properties agree. */
  lemma ChannelByProperties(p: Partial, q: Partial)
    requires p.title == q.title && p.url == q.url && p.userAgent == q.userAgent && p.referrer == q.referrer
    requires forall i | 0 <= i < |ChannelTable| :: ChannelProperty(p, i) == ChannelProperty(q, i)
    ensures p == q
  {
    assert ChannelProperty(p, 0) == ChannelProperty(q, 0);
    assert ChannelProperty(p, 1) == ChannelProperty(q, 1);
    assert ChannelProperty(p, 2) == ChannelProperty(q, 2);
    assert ChannelProperty(p, 3) == ChannelProperty(q, 3);
    assert ChannelProperty(p, 4) == ChannelProperty(q, 4);
    assert ChannelProperty(p, 5) == ChannelProperty(q, 5);
  }

  /**
   * `extractChannelFromExtInf`: the loop over `CHANNEL_EXTRACTORS`. The
   * title row is the last entry of that object; it is applied after the six
   * attribute rows, as the last step of the same walk.
   */
  method ExtractChannelFromExtInf(line: string) returns (channel: Partial)
    ensures channel == ChannelOf(line)
  {
    channel := NoChannel;
    for i := 0 to |ChannelTable|
      invariant forall j | 0 <= j < i :: ChannelProperty(channel, j) == FindField(line, ChannelTable[j])
      invariant forall j | i <= j < |ChannelTable| :: ChannelProperty(channel, j) == None
      invariant channel.title == None && channel.url == None && channel.userAgent == None && channel.referrer == None
    {
      var value := FindField(line, ChannelTable[i]);
      if value.Some? {
        channel := SetChannelProperty(channel, i, value.value);
      }
    }
    ChannelAssembled(channel, line);
    var title := FindTitle(line);
    if title.Some? {
      channel := channel.(title := title);
    }
  }

  /** The six table properties found in the line, then its title, make up `ChannelOf(line)`. */
  lemma ChannelAssembled(props: Partial, line: string)
    requires forall j | 0 <= j < |ChannelTable| :: ChannelProperty(props, j) == FindField(line, ChannelTable[j])
    requires props.title == None && props.url == None && props.userAgent == None && props.referrer == None
    ensures props.(title := FindTitle(line)) == ChannelOf(line)
  {
    var q := props.(title := FindTitle(line));
    forall j | 0 <= j < |ChannelTable| ensures ChannelProperty(q, j) == ChannelProperty(props, j) {
      TitleKeepsProperty(props, FindTitle(line), j);
    }
    ChannelOfProperties(line);
    ChannelByProperties(q, ChannelOf(line));
  }

  lemma TitleKeepsProperty(p: Partial, t: Option<string>, j: nat)
    requires j < |ChannelTable|
    ensures ChannelProperty(p.(title := t), j) == ChannelProperty(p, j)
  {
  }

  /** Options merged into an accumulator: a found option overwrites, a missing one keeps the old value. */
  function MergeVlc(p: Partial, userAgent: Option<string>, referrer: Option<string>): Partial {
    p.(userAgent := if userAgent.Some? then userAgent else p.userAgent,
       referrer := if referrer.Some? then referrer else p.referrer)
  }

  /** What `extractVlcOptions` leaves in the accumulator. */
  function WithVlcOptions(p: Partial, line: string): Partial {
    MergeVlc(p, FindField(line, UserAgent), FindField(line, Referrer))
  }

  /**
   * `extractVlcOptions(line, channel)`, which changes `channel` in place;
   * the accumulator is a value here, and the method returns it updated.
   */
  method ExtractVlcOptions(line: string, channel: Partial) returns (updated: Partial)
    ensures updated == WithVlcOptions(channel, line)
  {
    updated := channel;
    for i := 0 to |VlcTable|
      invariant updated.(userAgent := channel.userAgent, referrer := channel.referrer) == channel
      invariant updated.userAgent == if i > 0 then WithVlcOptions(channel, line).userAgent else channel.userAgent
      invariant updated.referrer == if i > 1 then WithVlcOptions(channel, line).referrer else channel.referrer
    {
      var value := FindField(line, VlcTable[i]);
      if value.Some? {
        if i == 0 {
          updated := updated.(userAgent := value);
        } else {
          updated := updated.(referrer := value);
        }
      }
    }
  }
}
