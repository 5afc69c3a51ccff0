module Tables {
  import opened Scan

  /** One row of an extractor table: the attribute key and the shape of its value. */
  datatype Field = Field(key: string, kind: Capture)

  /** The fixed part of the row's pattern, `key=`. */
  function Anchor(f: Field): string {
    f.key + "="
  }

  const UrlTvg := Field("url-tvg", Quoted)
  const TvgShift := Field("tvg-shift", Digits)
  const Refresh := Field("refresh", Quoted)
  const Cache := Field("cache", Digits)
  const Interlace := Field("interlace", Digits)
  const AspectRatio := Field("aspect-ratio", NonSpace)
  const M3uAutoload := Field("m3uautoload", Digits)

  /** `CONFIG_EXTRACTORS`, in declaration order (which is also the order `buildConfigLine` writes). */
  const ConfigTable: seq<Field> := [UrlTvg, TvgShift, Refresh, Cache, Interlace, AspectRatio, M3uAutoload]

  const TvgId := Field("tvg-id", Quoted)
  const GroupTitle := Field("group-title", Quoted)
  const TvgLogo := Field("tvg-logo", Quoted)
  const Catchup := Field("catchup", Quoted)
  const CatchupDays := Field("catchup-days", Quoted)
  const CatchupSource := Field("catchup-source", Quoted)

  /** `CHANNEL_EXTRACTORS` without the title, in declaration order (also the order of `buildExtinfLine`). */
  const ChannelTable: seq<Field> := [TvgId, GroupTitle, TvgLogo, Catchup, CatchupDays, CatchupSource]

  /** The title pattern `,(.+)$`: the anchor is a comma and the capture runs to the end of the line. */
  const TitleAnchor := ","

  const UserAgent := Field("http-user-agent", Rest)
  const Referrer := Field("http-referrer", Rest)

  /** `VLC_OPTION_EXTRACTORS`. */
  const VlcTable: seq<Field> := [UserAgent, Referrer]

  /** A key that can neither run into a neighbouring token nor contain an anchor. */
  predicate GoodKey(k: string) {
    k != [] && '=' !in k && ' ' !in k && '"' !in k && ',' !in k
  }

  /** One of the last two characters tells the keys apart, so neither ends with the other. */
  predicate EndsDiffer(x: string, k: string) {
    |x| >= 2 && |k| >= 2 && (x[|x| - 1] != k[|k| - 1] || x[|x| - 2] != k[|k| - 2])
  }

  lemma EndsDifferNotEndsWith(x: string, k: string)
    requires EndsDiffer(x, k)
    ensures !EndsWith(x, k)
  {
    if |k| <= |x| {
      var tail := x[|x| - |k|..];
      assert tail[|k| - 1] == x[|x| - 1] && tail[|k| - 2] == x[|x| - 2];
    }
  }

  /** The characters the extractor keys are made of. */
  predicate IsKeyChar(c: char) {
    ('a' <= c <= 'z') || ('0' <= c <= '9') || c == '-'
  }

  predicate KeyChars(k: string) {
    k != [] && forall i | 0 <= i < |k| :: IsKeyChar(k[i])
  }

  lemma KeyCharsGood(k: string)
    requires KeyChars(k)
    ensures GoodKey(k)
  {
  }

  /** All keys are made of key characters and no key ends with another one (so no anchor hides inside another). */
  predicate GoodTable(t: seq<Field>) {
    KeysOf(t) && KeysApart(t)
  }

  predicate KeysOf(t: seq<Field>) {
    forall i | 0 <= i < |t| :: KeyChars(t[i].key)
  }

  predicate KeysApart(t: seq<Field>) {
    forall i, j | 0 <= i < |t| && 0 <= j < |t| && i != j :: EndsDiffer(t[i].key, t[j].key)
  }

  lemma ConfigTableGood()
    ensures GoodTable(ConfigTable)
  {
    ConfigKeys();
    ConfigKeysApart();
  }

  lemma ConfigKeys()
    ensures forall i | 0 <= i < |ConfigTable| :: KeyChars(ConfigTable[i].key)
  {
  }

  lemma ConfigKeysApart()
    ensures forall i, j | 0 <= i < |ConfigTable| && 0 <= j < |ConfigTable| && i != j :: EndsDiffer(ConfigTable[i].key, ConfigTable[j].key)
  {
  }

  lemma ChannelTableGood()
    ensures GoodTable(ChannelTable)
  {
    ChannelKeys();
    ChannelKeysApart();
  }

  lemma ChannelKeys()
    ensures forall i | 0 <= i < |ChannelTable| :: KeyChars(ChannelTable[i].key)
  {
  }

  lemma ChannelKeysApart()
    ensures forall i, j | 0 <= i < |ChannelTable| && 0 <= j < |ChannelTable| && i != j :: EndsDiffer(ChannelTable[i].key, ChannelTable[j].key)
  {
  }

  lemma VlcTableGood()
    ensures GoodTable(VlcTable)
  {
  }

}
