/**
 * The records of lib/types.ts. Optional properties are `Option`s; the
 * numeric header settings are naturals, which is what the parser produces.
 */
module Types {
  import opened Wrappers

  /** A channel without its id (`Omit<Channel, "id">`): what the parser produces. */
  datatype ChannelInfo = ChannelInfo(
    title: string,
    url: string,
    tvgId: Option<string>,
    tvgLogo: Option<string>,
    groupTitle: Option<string>,
    catchup: Option<string>,
    catchupDays: Option<string>,
    catchupSource: Option<string>,
    userAgent: Option<string>,
    referrer: Option<string>)

  /** A channel as the editor and the generator hold it. */
  datatype Channel = Channel(id: string, info: ChannelInfo)

  /** The settings of one `#EXTM3U` header line. */
  datatype PlaylistConfig = PlaylistConfig(
    urlTvg: Option<string>,
    tvgShift: Option<nat>,
    refresh: Option<string>,
    cache: Option<nat>,
    interlace: Option<nat>,
    aspectRatio: Option<string>,
    m3uAutoload: Option<nat>)

  const EmptyConfig := PlaylistConfig(None, None, None, None, None, None, None)

  /** A stored playlist; the two dates are abstract timestamps. */
  datatype Playlist = Playlist(
    id: string,
    name: string,
    channels: seq<Channel>,
    configs: seq<PlaylistConfig>,
    createdAt: nat,
    updatedAt: nat)

  /** The result of parsing a playlist text. */
  datatype Parsed = Parsed(configs: seq<PlaylistConfig>, channels: seq<ChannelInfo>)
}
