# M3U8 playlist manager: parser, generator and playlist store

This project models the core of a small web application that edits IPTV
playlists in the M3U8 text format, and proves properties of that model.

The core is `lib/m3u8-parser.ts`:

- `parseM3U8Content` turns playlist text into header configurations (one
  per `#EXTM3U` line with settings) and channels. A channel is an
  `#EXTINF:` line, optional `#EXTVLCOPT:` lines and a stream URL.
- `generateM3U8Content` writes channels and configurations back as text.
- The extractor tables, the grouping and filtering helpers, and
  `validateM3U8Structure` complete it.

The other part is `lib/storage.ts`: the list of saved playlists, where
saving upserts by id and deleting removes by id.

The modules follow the source:

| module | file | models |
|---|---|---|
| `Types` | types.dfy | the records of `lib/types.ts` |
| `Text` | text.dfy | `trim`, `split(/\r?\n/)`, `join("\n")`, and decimal numerals |
| `Scan` | scan.dfy | the regular expressions of the extractor tables, as a leftmost scan for an anchor followed by a capture |
| `Tables` | tables.dfy | `CONFIG_EXTRACTORS`, `CHANNEL_EXTRACTORS` and `VLC_OPTION_EXTRACTORS` |
| `Attributes` | attributes.dfy | the attribute tokens the generator writes, and what the patterns find among them |
| `Extract` | extract.dfy | the three extract functions |
| `Parser` | parser.dfy | `isStreamUrl`, `isChannelComplete`, `preprocessLines` and `parseM3U8Content` |
| `Generator` | generator.dfy | the build functions, `validateChannelsForGeneration` and `generateM3U8Content` |
| `LineRoundTrip` | line_roundtrip.dfy | one generated line read back |
| `RoundTrip` | roundtrip.dfy | generated text parsed back |
| `Groups` | groups.dfy | `getChannelsByGroup`, `getUniqueGroups` and `filterChannelsByGroup` |
| `Structure` | structure.dfy | `validateM3U8Structure` |
| `Storage` | storage.dfy | `getPlaylists`, `savePlaylist` and `deletePlaylist` |

## How the model is built

- **The parser.** It is a function `Step` over a `State` value, which holds
  the configs, the channels and the accumulator `currentChannel`. `Run` folds
  `Step` over the classified lines. The methods `ParseM3U8Content`,
  `ReadLines` and `ReadLine` are the loop as the source writes it, each
  proved equal to those functions.
- **The generator.** Its loops are methods (`AppendEntries`,
  `BuildHeaderLines`, `PushChannels`), each proved against a function of
  its inputs.
- **The store.** It is a class whose `playlists` field is reassigned by
  `SavePlaylist` and `DeletePlaylist`. `Upsert` and `RemoveById` state the
  new list, and the lemmas about those functions state what saving and
  deleting promise.
- **Errors.** A thrown error is the `Err` side of a `Result`.
  `validateM3U8Structure`'s messages are the values of the `Problem`
  datatype. `Structure.Message` gives their exact texts.

**The title follows the first comma.** The title pattern `,(.+)$` is
matched leftmost, so the title starts after the *first* comma of an
`#EXTINF` line: `#EXTINF:-1,A,B` gives the title `A,B` (see
`Parser.TitleAfterFirstComma`).

## Model

| member | source | states |
|---|---|---|
| Text.Trim | lib/m3u8-parser.ts:112 | the result has no whitespace at either end, is empty exactly when the input is blank, and is no longer than the input; `Text.TrimInfix` shows it is a piece of the input with only whitespace cut off before and after |
| Text.TrimInfix | lib/m3u8-parser.ts:112 | the trimmed string is `s[a..b]` for some `a <= b`, where everything before `a` and everything from `b` on is whitespace |
| Text.TrimOfTrimmed | lib/m3u8-parser.ts:112 | trimming a string with no whitespace at its ends gives it back unchanged |
| Text.IndexOfSound | lib/m3u8-parser.ts:34 | the index found holds the character and no earlier index does; no index means the character does not occur |
| Text.SplitLines | lib/m3u8-parser.ts:111 | `split(/\r?\n/)`: at least one piece and no piece holds a `\n`; `Text.SplitLinesAfter` and `Text.SplitJoin` state how it undoes `join` |
| Text.SplitJoin | lib/m3u8-parser.ts:302 | lines without line breaks, joined with `\n` plus a final `\n`, split back at `/\r?\n/` into the same lines plus one empty piece |
| Text.DecimalRoundTrip | lib/m3u8-parser.ts:201 | `Number.parseInt` of the decimal text written for a number gives the number back |
| Scan.DigitRunSound | lib/m3u8-parser.ts:7 | the run measured is all digits and is followed by a non-digit or the end |
| Scan.NonSpaceRunSound | lib/m3u8-parser.ts:19 | the run measured has no whitespace and is followed by whitespace or the end |
| Scan.QuotedMeaning | lib/m3u8-parser.ts:5 | `"([^"]+)"` matches exactly when a quote, a non-quote and a later quote follow, and captures the quote-free text up to that next quote |
| Scan.DigitsMeaning | lib/m3u8-parser.ts:7 | `(\d+)` matches exactly when a digit follows, and captures the longest run of digits |
| Scan.NonSpaceMeaning | lib/m3u8-parser.ts:19 | `([^\s]+)` matches exactly when a non-whitespace character follows, and captures the longest run without whitespace |
| Scan.FirstMatchSound | lib/m3u8-parser.ts:5 | the match position found is a match and no earlier position is; without one there is no match anywhere |
| Scan.FindSkip | lib/m3u8-parser.ts:5 | a prefix in which the anchor cannot occur does not change what the pattern captures |
| Scan.FindToken | lib/m3u8-parser.ts:28 | in ` key=value` after text free of the anchor, the pattern captures that value |
| Scan.FindDigitsSound | lib/m3u8-parser.ts:8 | a digits capture is all digits, so `parseInt` reads all of it |
| Tables.ConfigTableGood | lib/m3u8-parser.ts:4-24 | the keys of the config table are made of key characters and none ends with another, so no anchor hides inside another key's token |
| Tables.ChannelTableGood | lib/m3u8-parser.ts:27-35 | the same for the six attribute keys of the channel table |
| Tables.VlcTableGood | lib/m3u8-parser.ts:38-41 | the same for the two option keys |
| Attributes.CaptureOfPayload | lib/m3u8-parser.ts:200-206 | a value written in its field's form (quoted, digits, bare) is captured back whole by its pattern |
| Attributes.Lookup | lib/m3u8-parser.ts:209-213 | the value found under a key is present exactly when some slot writes that key, and is the value of such a slot |
| Attributes.FindInTokens | lib/m3u8-parser.ts:209-213 | in a line made of written tokens, a field's pattern captures the first value written under its key, and nothing when none is |
| Extract.SetConfigProperty | lib/m3u8-parser.ts:52 | setting the property of one table row changes that property and no other |
| Extract.ConfigOf | lib/m3u8-parser.ts:46-57 | the config of an `#EXTM3U` line; `Extract.ConfigOfProperties` and `Extract.ConfigOfEmpty` state it, `LineRoundTrip.ConfigLineRoundTrip` inverts it |
| Extract.ConfigOfProperties | lib/m3u8-parser.ts:46-57 | every config property is what its own row's extractor finds in the line |
| Extract.ConfigByProperties | lib/m3u8-parser.ts:4-24 | a config is determined by its seven table properties |
| Extract.ConfigEmptyIff | lib/m3u8-parser.ts:145 | a config has no keys exactly when all seven properties are missing |
| Extract.ConfigOfEmpty | lib/m3u8-parser.ts:145 | the config of a line is empty exactly when no row's pattern matches the line |
| Extract.ExtractConfigFromExtM3U | lib/m3u8-parser.ts:46-57 | the loop over the config table builds the config of the line |
| Extract.SetChannelProperty | lib/m3u8-parser.ts:68 | setting the property of one channel row changes that property and no other field |
| Extract.ChannelOf | lib/m3u8-parser.ts:62-73 | the attributes of an `#EXTINF:` line; `Extract.ChannelOfProperties` and `Parser.TitleAfterFirstComma` state it, `LineRoundTrip.ExtinfLineRoundTrip` inverts it |
| Extract.ChannelOfProperties | lib/m3u8-parser.ts:62-73 | every attribute property is what its own row's pattern finds in the line |
| Extract.ChannelByProperties | lib/m3u8-parser.ts:27-35 | an accumulator is determined by its title, url, options and six table properties |
| Extract.ChannelAssembled | lib/m3u8-parser.ts:62-73 | the six table properties found, then the title, make up the channel of the line |
| Extract.ExtractChannelFromExtInf | lib/m3u8-parser.ts:62-73 | the loop over the channel table builds the attributes of the line |
| Extract.ExtractVlcOptions | lib/m3u8-parser.ts:78-85 | an option found overwrites the accumulator's option, and a missing one keeps the old value |
| Parser.IsStreamUrl | lib/m3u8-parser.ts:90-97 | a stream URL starts with one of the four schemes; `RoundTrip.ClassifyStreamUrl` and `Parser.ClassifyUrl` state how the parser reads one |
| Parser.IsComplete | lib/m3u8-parser.ts:102-104 | a present, non-empty title and url; `Parser.RunIncomplete` and `Parser.ParsedChannelsWellFormed` state what the loop keeps of it |
| Parser.PreprocessLines | lib/m3u8-parser.ts:109-120 | split, trim and filter; `Parser.PreprocessedLines` and `Parser.PreprocessJoin` state it, `Parser.PreprocessCounts` says every trimmed line that passes the filter stays as often as it occurs and no other line does, and `Parser.KeepAppend` says order is kept |
| Parser.PreprocessCounts | lib/m3u8-parser.ts:109-120 | each line occurs in the preprocessed lines as often as it occurs among the trimmed lines if it passes the filter, and not at all otherwise |
| Parser.TrimAll | lib/m3u8-parser.ts:112 | every line comes out with no whitespace at its ends, and is empty exactly where the line was blank |
| Parser.KeepLines | lib/m3u8-parser.ts:113-119 | every line kept passes the filter, and trimmed lines stay trimmed; `Parser.KeepCounts` and `Parser.KeepAppend` show that every passing line is kept, as often as it occurs and in order |
| Parser.KeepCounts | lib/m3u8-parser.ts:113-119 | a line passing the filter is kept as often as it occurs; any other line is dropped |
| Parser.KeepAppend | lib/m3u8-parser.ts:113-119 | filtering a concatenation is the concatenation of the filtered parts, so kept lines keep their order |
| Parser.PreprocessedLines | lib/m3u8-parser.ts:109-120 | every preprocessed line is trimmed and passes the filter |
| Parser.PreprocessJoin | lib/m3u8-parser.ts:109-120 | trimmed, kept lines without line breaks, written one per line, come out of preprocessing unchanged |
| Parser.Parse | lib/m3u8-parser.ts:125-128 | parsing fails exactly when the content is blank, and then with the message `M3U8 content cannot be empty` |
| Parser.ParseM3U8Content | lib/m3u8-parser.ts:125-191 | the loop and the flush after it compute `Parse` |
| Parser.ReadLines | lib/m3u8-parser.ts:140-176 | the loop over the lines leaves the state `Run` gives for them |
| Parser.ReadLine | lib/m3u8-parser.ts:143-175 | one pass of the loop is the step of that line's branch |
| Parser.Classify | lib/m3u8-parser.ts:143-175 | the branch a line takes and what it extracts; `Parser.ClassifiedHeader`, `Parser.ClassifyUrl` and `Parser.ClassifySound` state it |
| Parser.Step | lib/m3u8-parser.ts:143-175 | one pass of the loop; `Parser.StepGood`, `Parser.StepCount`, `Parser.StepConfigs`, `Parser.ExtinfReplaces` and `Parser.VlcMerges` state it |
| Parser.ClassifySound | lib/m3u8-parser.ts:151-175 | an `#EXTINF:` line carries no url or options and a trimmed title; a URL line has a stream scheme |
| Parser.ClassifyAllAt | lib/m3u8-parser.ts:140 | the classified lines correspond one for one to the lines |
| Parser.RunAdvance | lib/m3u8-parser.ts:140-176 | reading one more line is one step from the state before it |
| Parser.StepKeepsIncomplete | lib/m3u8-parser.ts:151-175 | from an incomplete accumulator, no line leaves a complete one behind |
| Parser.RunIncomplete | lib/m3u8-parser.ts:136-176 | after the loop the accumulator is never complete |
| Parser.FinalFlushIsEmpty | lib/m3u8-parser.ts:179-181 | so the flush after the loop never adds a channel |
| Parser.ExtinfReplaces | lib/m3u8-parser.ts:151-159 | an `#EXTINF:` line never commits: it replaces the accumulator with its own attributes and keeps configs and channels |
| Parser.VlcMerges | lib/m3u8-parser.ts:161-164 | an `#EXTVLCOPT:` line only merges its options into the accumulator |
| Parser.StepGood | lib/m3u8-parser.ts:143-175 | each step keeps every committed channel well formed and the accumulator incomplete |
| Parser.RunGood | lib/m3u8-parser.ts:140-176 | that invariant holds after every prefix of the lines |
| Parser.ParsedChannelsWellFormed | lib/m3u8-parser.ts:102-104 | every parsed channel has a non-empty trimmed title and a url with a stream scheme |
| Parser.StepCount | lib/m3u8-parser.ts:166-174 | a step adds at most one channel, only at a URL line, and the channel added has that line as its url |
| Parser.RunCommitPositions | lib/m3u8-parser.ts:140-176 | each channel can be mapped to the URL line that committed it, at strictly increasing positions |
| Parser.ClassifyUrl | lib/m3u8-parser.ts:167-168 | a line read as a URL line is a stream URL and is the url it sets |
| Parser.ParsedInUrlOrder | lib/m3u8-parser.ts:166-174 | the parsed channels are in the order of their URL lines, each preprocessed line completing at most one channel |
| Parser.RunCount | lib/m3u8-parser.ts:140-176 | the loop commits no more channels than it reads stream-URL lines |
| Parser.ParsedCount | lib/m3u8-parser.ts:125-191 | a parse returns no more channels than the content has stream-URL lines |
| Parser.RunConfigs | lib/m3u8-parser.ts:143-149 | the configs are those of the `#EXTM3U` lines with a non-empty config, in line order; no other line adds one |
| Parser.StepConfigs | lib/m3u8-parser.ts:143-147 | only an `#EXTM3U` line with settings adds a config, and it adds that line's config |
| Parser.ClassifiedHeader | lib/m3u8-parser.ts:143-144 | a line takes the header branch exactly when it starts with `#EXTM3U`, and carries the config of that line |
| Parser.ParsedConfigs | lib/m3u8-parser.ts:125-191 | the configs of a parse result are the non-empty configs of its preprocessed `#EXTM3U` lines |
| Parser.TitleAfterFirstComma | lib/m3u8-parser.ts:34 | the title is the trimmed text after the first comma |
| Parser.NoCommaNoTitle | lib/m3u8-parser.ts:34 | a line without a comma has no title |
| Parser.CommaLastNoTitle | lib/m3u8-parser.ts:34 | a comma with nothing after it gives no title |
| Generator.ConfigLine | lib/m3u8-parser.ts:196-216 | the line `buildConfigLine` returns; `LineRoundTrip.ConfigLineRoundTrip` and `LineRoundTrip.ConfigLineShape` state it |
| Generator.ExtinfLineOf | lib/m3u8-parser.ts:221-240 | the line `buildExtinfLine` returns; `LineRoundTrip.ExtinfLineRoundTrip`, `LineRoundTrip.ExtinfTitle` and `LineRoundTrip.ExtinfLineShape` state it |
| Generator.VlcOptionLines | lib/m3u8-parser.ts:245-257 | the lines `buildVlcOptionLines` returns; `LineRoundTrip.UserAgentLine` and `LineRoundTrip.ReferrerLine` state them |
| Generator.InvalidChannels | lib/m3u8-parser.ts:267-269 | the filter of invalid channels; `Generator.InvalidChannelsSound` and `Generator.InvalidChannelsCount` state it, so its length is the number of invalid channels |
| Generator.InvalidChannelsCount | lib/m3u8-parser.ts:267-269 | each invalid channel occurs in the filter's result as often as in the input, and no valid channel occurs |
| Generator.AppendEntries | lib/m3u8-parser.ts:209-213 | appending the non-empty entries in order writes the tokens of the present slots |
| Generator.BuildConfigLine | lib/m3u8-parser.ts:196-216 | the method builds the config line |
| Generator.BuildExtinfLine | lib/m3u8-parser.ts:221-240 | the method builds the `#EXTINF` line |
| Generator.BuildVlcOptionLines | lib/m3u8-parser.ts:245-257 | the method builds one option line per non-empty option, user agent first |
| Generator.InvalidChannelsSound | lib/m3u8-parser.ts:267-269 | the filter keeps exactly the channels with a blank title or url, each as often as it occurs (through `Generator.InvalidChannelsCount`), and no more than there are channels |
| Generator.ValidateChannels | lib/m3u8-parser.ts:262-276 | no error exactly when no channel is invalid; otherwise the message gives the length of the filter of invalid channels, which `Generator.InvalidChannelsCount` shows is the number of invalid channels, at least one |
| Generator.HeaderLines | lib/m3u8-parser.ts:287-293 | one header line per config, or one line when there are none |
| Generator.BuildHeaderLines | lib/m3u8-parser.ts:287-293 | the loop over the configs pushes the header lines |
| Generator.PushChannels | lib/m3u8-parser.ts:296-300 | the loop over the channels appends each channel's block, in order |
| Generator.Generate | lib/m3u8-parser.ts:281-303 | generation succeeds exactly when no channel is invalid; otherwise it fails with the count of invalid channels (the filter's length, which is that count by `Generator.InvalidChannelsCount`) |
| Generator.GenerateM3U8Content | lib/m3u8-parser.ts:281-303 | validating, then pushing headers and channels, computes `Generate` |
| LineRoundTrip.ConfigRowRoundTrip | lib/m3u8-parser.ts:200-206 | each row's extractor reads back from the config line the value written for it |
| LineRoundTrip.ConfigLineRoundTrip | lib/m3u8-parser.ts:196-216 | reading a generated config line gives the config back, with empty strings missing |
| LineRoundTrip.ConfigLineShape | lib/m3u8-parser.ts:196-216 | a config line is one trimmed line starting with `#EXTM3U` |
| LineRoundTrip.ExtinfLineRoundTrip | lib/m3u8-parser.ts:221-240 | reading a generated `#EXTINF` line gives back the title and the six attributes, with empty strings missing |
| LineRoundTrip.ExtinfTitle | lib/m3u8-parser.ts:239 | the title written after the comma is the title read back |
| LineRoundTrip.ExtinfLineShape | lib/m3u8-parser.ts:221-240 | an `#EXTINF` line is one trimmed line starting with `#EXTINF:` |
| LineRoundTrip.OptionFound | lib/m3u8-parser.ts:39 | after a tag, the option pattern captures the whole rest of the line |
| LineRoundTrip.OptionAbsent | lib/m3u8-parser.ts:40 | the other option's pattern finds nothing in the line |
| LineRoundTrip.UserAgentLine | lib/m3u8-parser.ts:249 | a user-agent line gives back its value, and no referrer; it is one trimmed `#EXTVLCOPT:` line |
| LineRoundTrip.ReferrerLine | lib/m3u8-parser.ts:253 | a referrer line gives back its value, and no user agent; it is one trimmed `#EXTVLCOPT:` line |
| RoundTrip.ClassifyStreamUrl | lib/m3u8-parser.ts:167 | a stream url is kept by preprocessing and read as a URL line |
| RoundTrip.ClassifyBareHeader | lib/m3u8-parser.ts:292 | the bare `#EXTM3U` line is a header with an empty config |
| RoundTrip.ClassifyExtinfLine | lib/m3u8-parser.ts:297 | a generated `#EXTINF` line is read as the attributes it announces |
| RoundTrip.ClassifyOutput | lib/m3u8-parser.ts:281-303 | the generated lines are read as the header lines, then each channel's block |
| RoundTrip.RunBlock | lib/m3u8-parser.ts:151-175 | one channel's block commits exactly that channel and leaves an empty accumulator |
| RoundTrip.RunHeader | lib/m3u8-parser.ts:143-149 | the header lines give the configs with settings, in order, and no channel |
| RoundTrip.RunOutput | lib/m3u8-parser.ts:140-176 | the header lines and the channel blocks give the configs and the channels, in order |
| RoundTrip.WritableIsValid | lib/m3u8-parser.ts:267-269 | a channel the parser can read back passes validation |
| RoundTrip.OutputWritten | lib/m3u8-parser.ts:302 | the generated lines are trimmed, kept, without line breaks, and the first starts with `#` |
| RoundTrip.GenerateOk | lib/m3u8-parser.ts:281-303 | generating readable channels succeeds with the joined lines and a final `\n` |
| RoundTrip.ParseWritten | lib/m3u8-parser.ts:125-191 | parsing such lines gives the configs and channels of running the loop over them |
| RoundTrip.ReadOutput | lib/m3u8-parser.ts:140-176 | the loop over the generated lines ends with the configs and channels and an empty accumulator |
| RoundTrip.GenerateParseRoundTrip | lib/m3u8-parser.ts:125-191 | parsing the generated text of readable channels and configs gives back every channel in order and every config with settings, with empty strings missing |
| RoundTrip.GenerateParseExact | lib/m3u8-parser.ts:281-303 | with no empty optional strings and no empty configs, parsing the generated text gives back exactly the configs and the channels |
| Groups.ChannelsInSound | lib/m3u8-parser.ts:310-314 | every channel collected for a group is a channel of the list in that group |
| Groups.ChannelsInComplete | lib/m3u8-parser.ts:310-314 | every channel of the group is collected |
| Groups.ChannelsInEmpty | lib/m3u8-parser.ts:310-314 | a group has channels exactly when some channel belongs to it |
| Groups.GroupMap | lib/m3u8-parser.ts:308-317 | the record of groups; `Groups.GroupMapBuckets` states it |
| Groups.GroupMapBuckets | lib/m3u8-parser.ts:308-317 | the record's keys are exactly the groups of the channels, and each maps to its channels in list order |
| Groups.ChannelsByGroup | lib/m3u8-parser.ts:308-317 | the `reduce` as evidently intended builds that record: it tests whether the group is already a key, where the source's `!acc[group]` also sees inherited properties (see Findings) |
| Groups.GroupsOnObjectFails | lib/m3u8-parser.ts:311-314 | on a plain object the code as written throws exactly when some group is an inherited property name, and builds the record otherwise |
| Groups.ConstructorGroupThrows | lib/m3u8-parser.ts:311-314 | one channel in group `constructor` makes the code as written throw, where the intended record has that group |
| Groups.BeforeTotal | lib/m3u8-parser.ts:324 | the default sort's UTF-16 code-unit order ranks any two different strings |
| Groups.SortedDistinct | lib/m3u8-parser.ts:324 | a strictly sorted list has no duplicates |
| Groups.InsertSound | lib/m3u8-parser.ts:323-324 | inserting into a sorted list keeps it sorted and adds exactly that string |
| Groups.UniqueGroups | lib/m3u8-parser.ts:322-325 | the sorted distinct groups; `Groups.UniqueGroupsSound` and `Groups.SortedUnique` state them |
| Groups.UniqueGroupsSound | lib/m3u8-parser.ts:322-325 | the unique groups are sorted, so free of duplicates, and are exactly the groups of the channels |
| Groups.SortedUnique | lib/m3u8-parser.ts:324 | two sorted lists with the same elements are equal, so the result does not depend on the set's order |
| Groups.FilterChannelsByGroup | lib/m3u8-parser.ts:330-333 | the channels of one group; `Groups.FilterMatchesGroup`, `Groups.FilterUngrouped` and `Groups.FilterEmptyName` state them |
| Groups.FilterMatchesGroup | lib/m3u8-parser.ts:330-333 | for every name but `Ungrouped`, the filter selects the channels the grouping files under that name |
| Groups.FilterUngrouped | lib/m3u8-parser.ts:331-332 | `Ungrouped` selects the channels with a missing or empty group |
| Groups.FilterEmptyName | lib/m3u8-parser.ts:332 | an empty name selects nothing |
| Groups.WithoutGroupSound | lib/m3u8-parser.ts:331-332 | every channel `Ungrouped` selects is a channel of the list with a missing or empty group |
| Groups.LiteralUngroupedDiffers | lib/m3u8-parser.ts:331 | in any list, a channel whose group is literally `Ungrouped` is filed under it by the grouping but not selected by the filter |
| Structure.MessagesDistinct | lib/m3u8-parser.ts:341-363 | different problems have different messages |
| Structure.ValidateStructure | lib/m3u8-parser.ts:365-368 | the content is reported valid exactly when there is no error |
| Structure.FailuresIff | lib/m3u8-parser.ts:348-363 | each of the three errors is reported exactly when its check fails, at most once, in check order |
| Structure.ReportErrors | lib/m3u8-parser.ts:341-363 | blank content gets only `Content is empty`; other content gets each check's error exactly when that check fails on the lines |
| Structure.StructureErrors | lib/m3u8-parser.ts:338-369 | the errors of validating content, in terms of its trimmed lines |
| Structure.StructureValidIff | lib/m3u8-parser.ts:338-369 | content is valid exactly when it is not blank and has a header line, an `#EXTINF:` line and a stream-URL line |
| Structure.GeneratedIsValid | lib/m3u8-parser.ts:281-303 | generated text with at least one readable channel validates with no error |
| Structure.GeneratedWithoutChannels | lib/m3u8-parser.ts:338-369 | generated text without channels has its header but fails the channel and URL checks, in that order |
| Structure.KeepLinesFrom | lib/m3u8-parser.ts:113-119 | every line the filter keeps is one of the lines it filters |
| Structure.RunNeedsExtinf | lib/m3u8-parser.ts:151-159 | no title and no channel exist before an `#EXTINF:` line has been read |
| Structure.ParsedChannelPassesChecks | lib/m3u8-parser.ts:354-362 | content in which the parser finds a channel passes the channel check and the URL check |
| Storage.FindFirst | lib/storage.ts:29 | the index found holds the id and no earlier one does; no index means the id is absent |
| Storage.FirstIsUnique | lib/storage.ts:29 | the first index with an id is the one `findIndex` returns |
| Storage.FindIndex | lib/storage.ts:29 | the loop returns the first index with the id, or -1 exactly when the id is absent |
| Storage.PlaylistStore.constructor | lib/storage.ts:10 | nothing is stored yet |
| Storage.PlaylistStore.GetPlaylists | lib/storage.ts:5-22 | returns the stored list |
| Storage.PlaylistStore.SavePlaylist | lib/storage.ts:24-41 | the new list is the old one with the playlist upserted, and distinct ids stay distinct |
| Storage.PlaylistStore.DeletePlaylist | lib/storage.ts:43-52 | the new list is the old one without that id, and distinct ids stay distinct |
| Storage.KeepOthers | lib/storage.ts:47 | the filter loop keeps the playlists with other ids |
| Storage.Upsert | lib/storage.ts:28-35 | the list after saving; `Storage.UpsertNew`, `Storage.UpsertExisting`, `Storage.UpsertThenFind` and `Storage.UpsertKeepsDistinct` state it |
| Storage.UpsertNew | lib/storage.ts:33-35 | saving a new id appends the playlist as it is and keeps the others |
| Storage.UpsertExisting | lib/storage.ts:31-32 | saving a stored id replaces the first entry with it, stamped with the save time, and nothing else |
| Storage.UpsertThenFind | lib/storage.ts:29-35 | after saving, looking the id up finds the saved playlist |
| Storage.UpsertKeepsDistinct | lib/storage.ts:29-35 | saving keeps ids distinct |
| Storage.UpsertTwice | lib/storage.ts:32 | saving the same playlist again replaces the entry the first save left (the playlist, stamped or not) by the playlist stamped with the later time, and changes nothing else |
| Storage.RemoveById | lib/storage.ts:47 | the list after deleting; `Storage.RemoveCounts`, `Storage.RemoveAppend` and `Storage.RemoveIdempotent` state it |
| Storage.RemoveCounts | lib/storage.ts:47 | deleting drops every playlist with the id and keeps every other one as often as it occurred |
| Storage.RemoveAppend | lib/storage.ts:47 | deleting works piece by piece, so the kept playlists keep their order |
| Storage.RemoveSound | lib/storage.ts:47 | what remains was stored and has another id |
| Storage.RemoveAbsent | lib/storage.ts:47 | deleting an id that is not stored changes nothing |
| Storage.RemoveIdempotent | lib/storage.ts:47 | deleting twice is deleting once |
| Storage.RemoveKeepsDistinct | lib/storage.ts:47 | deleting keeps ids distinct |
| Storage.RemoveIgnoresReplaced | lib/storage.ts:47 | replacing an entry by another with the deleted id does not change what deleting keeps |
| Storage.RemoveAfterUpsert | lib/storage.ts:24-52 | saving and then deleting an id leaves what deleting alone leaves |

## Left out

- Browser storage. `localStorage`, `JSON.stringify`/`JSON.parse` and the
  `Date` revival of `getPlaylists` are not modelled: the store object
  stands for what the storage key holds, and dates are abstract naturals.
- The clock. `new Date()` in `savePlaylist` is the parameter `now`.
- `generateId` (lib/storage.ts:54-56) is left out: it reads the clock and
  `Math.random`.
- The server-side early return `typeof window === "undefined"` and the
  `try`/`catch` blocks of lib/storage.ts are left out. They only log, and
  nothing in the modelled list throws.
- `lineIndex` and the `catch` of `parseM3U8Content` (lib/m3u8-parser.ts:137-141
  and 182-187) are left out. No modelled step throws once the empty check
  has passed, so the wrapper never runs.
- `Array.isArray` in `validateChannelsForGeneration` (lib/m3u8-parser.ts:263-265)
  is left out. Channels are always a sequence here, so the check cannot fail.
- `content?.trim()` on `null` or `undefined` is left out: content is
  always a string.
- Numbers. Numeric header settings are naturals. Negative or fractional
  values, which the parser never produces, are not represented, and
  neither are the limits of floating-point precision for very long digit
  runs.
- Strings. They are sequences of Unicode scalar values, not UTF-16 code
  units. Only the default `sort` of `getUniqueGroups` depends on code
  units, and it is modelled with an explicit UTF-16 encoding.
- Objects and `Record`s are datatypes and maps, so property order is not
  modelled. The tables' iteration order is the order of their
  declaration. The object prototype is modelled only for the finding
  below.
- `extractVlcOptions` changes the accumulator in place. `Extract.ExtractVlcOptions`
  returns the updated value instead. No other reference to the accumulator
  exists, so no aliasing is lost.
- The UI components and pages are not part of this model.
- LineRoundTrip.ConfigLineRoundTrip, LineRoundTrip.ExtinfLineRoundTrip and
  RoundTrip.GenerateParseRoundTrip: these only cover values the generator
  can write unambiguously. Excluded are values containing a quote, a comma
  in an attribute, a line break, another key's `key=` anchor, or
  whitespace at the ends of the title. The generator does no escaping, so
  such values do not read back.

## Findings

| source | as written | input that shows it | evidently intended | confidence | as-written member | corrected member |
|---|---|---|---|---|---|---|
| lib/m3u8-parser.ts:308-317 | `getChannelsByGroup` tests `acc[group]` on a plain object `{}`. For a group named like an inherited property (`constructor`, `toString`, `__proto__`, …) the test finds the inherited value, skips the initialisation, and `acc[group].push` throws a `TypeError` | one channel with `groupTitle` `"constructor"` | a record from each group to its channels, for every group name | not executed | Groups.GroupsOnObjectFails | Groups.GroupMapBuckets |
