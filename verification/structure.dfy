/**
 * `validateM3U8Structure` of lib/m3u8-parser.ts: three independent checks
 * over the trimmed lines of the content, reported in a fixed order, after
 * an early refusal of blank content.
 */
module Structure {
  import opened Wrappers
  import opened Text
  import opened Types
  import opened Parser
  import opened Generator
  import opened LineRoundTrip
  import opened RoundTrip

  /** The four errors `validateM3U8Structure` can report. */
  datatype Problem = EmptyContent | MissingHeader | NoChannels | NoStreamUrls

  /** The text pushed onto `errors` for each problem. */
  function Message(p: Problem): string {
    match p
    case EmptyContent => "Content is empty"
    case MissingHeader => "Missing #EXTM3U header"
    case NoChannels => "No channels found (missing #EXTINF lines)"
    case NoStreamUrls => "No stream URLs found"
  }

  /** `{ isValid, errors }`, each error as the problem its message names. */
  datatype Report = Report(isValid: bool, errors: seq<Problem>)

  /** The reported messages, in order. */
  function Messages(r: Report): seq<string> {
    seq(|r.errors|, i requires 0 <= i < |r.errors| => Message(r.errors[i]))
  }

  /** Different problems have different messages, so the messages say which problems were found. */
  lemma MessagesDistinct(p: Problem, q: Problem)
    ensures Message(p) == Message(q) ==> p == q
  {
    assert |Message(p)| == match p
      case EmptyContent => 16 case MissingHeader => 22 case NoChannels => 41 case NoStreamUrls => 20;
  }

  /** `lines.some((line) => line.startsWith(p))`. */
  predicate AnyStartsWith(lines: seq<string>, p: string) {
    exists i | 0 <= i < |lines| :: StartsWith(lines[i], p)
  }

  /** The header check: some line starts with `#EXTM3U`. */
  predicate HasHeader(lines: seq<string>) {
    AnyStartsWith(lines, "#EXTM3U")
  }

  /** The channel check: some line starts with `#EXTINF:`. */
  predicate HasExtinf(lines: seq<string>) {
    AnyStartsWith(lines, "#EXTINF:")
  }

  /** The URL check: `lines.some((line) => isStreamUrl(line))`. */
  predicate HasStreamUrl(lines: seq<string>) {
    exists i | 0 <= i < |lines| :: IsStreamUrl(lines[i])
  }

  /** The lines the checks look at: split at line breaks and trimmed, none dropped. */
  function CheckedLines(content: string): seq<string> {
    TrimAll(SplitLines(content))
  }

  /**
   * The errors of non-blank content, given the outcome of each check in
   * turn: the header check, the `#EXTINF:` check and the URL check.
   */
  function Failures(header: bool, extinf: bool, url: bool): seq<Problem> {
    (if header then [] else [MissingHeader])
    + (if extinf then [] else [NoChannels])
    + (if url then [] else [NoStreamUrls])
  }

  /** The report on content that is blank or not and splits into `lines`. */
  function ReportOf(blank: bool, lines: seq<string>): Report {
    if blank then Report(false, [EmptyContent])
    else
      var errors := Failures(HasHeader(lines), HasExtinf(lines), HasStreamUrl(lines));
      Report(errors == [], errors)
  }

  /** `validateM3U8Structure`. */
  function ValidateStructure(content: string): (r: Report)
    ensures r.isValid <==> r.errors == []
  {
    ReportOf(Trim(content) == [], CheckedLines(content))
  }

  /** The report on content, with the blank test stated outright. */
  lemma ValidateReports(content: string)
    ensures ValidateStructure(content) == ReportOf(IsBlank(content), CheckedLines(content))
  {
  }

  /** Where each error comes in the report. */
  function Rank(e: Problem): nat {
    match e
    case EmptyContent => 0
    case MissingHeader => 1
    case NoChannels => 2
    case NoStreamUrls => 3
  }

  /** Each error is reported exactly when its check fails, at most once, in check order. */
  lemma FailuresIff(header: bool, extinf: bool, url: bool)
    ensures var r := Failures(header, extinf, url);
      (MissingHeader in r <==> !header) && (NoChannels in r <==> !extinf) && (NoStreamUrls in r <==> !url)
      && EmptyContent !in r && (r == [] <==> header && extinf && url)
      && (forall i, j | 0 <= i < j < |r| :: Rank(r[i]) < Rank(r[j]))
  {
  }

  /**
   * Blank content gets the one error `Content is empty`; any other gets
   * each of the three errors exactly when its check on the lines fails,
   * in the fixed order, and never the first.
   */
  lemma ReportErrors(blank: bool, lines: seq<string>)
    ensures var r := ReportOf(blank, lines);
      (blank ==> r == Report(false, [EmptyContent]))
      && (!blank ==>
        (MissingHeader in r.errors <==> !HasHeader(lines))
        && (NoChannels in r.errors <==> !HasExtinf(lines))
        && (NoStreamUrls in r.errors <==> !HasStreamUrl(lines))
        && EmptyContent !in r.errors
        && (forall i, j | 0 <= i < j < |r.errors| :: Rank(r.errors[i]) < Rank(r.errors[j])))
  {
    FailuresIff(HasHeader(lines), HasExtinf(lines), HasStreamUrl(lines));
  }

  /** The errors of `validateM3U8Structure(content)`, as `ReportErrors` states them for its lines. */
  lemma StructureErrors(content: string)
    ensures var r := ValidateStructure(content);
      IsBlank(content) ==> r == Report(false, [EmptyContent])
    ensures var r := ValidateStructure(content); var lines := CheckedLines(content);
      !IsBlank(content) ==>
        (MissingHeader in r.errors <==> !HasHeader(lines))
        && (NoChannels in r.errors <==> !HasExtinf(lines))
        && (NoStreamUrls in r.errors <==> !HasStreamUrl(lines))
        && EmptyContent !in r.errors
        && (forall i, j | 0 <= i < j < |r.errors| :: Rank(r.errors[i]) < Rank(r.errors[j]))
  {
    ValidateReports(content);
    ReportErrors(IsBlank(content), CheckedLines(content));
  }

  /** The content is valid exactly when it is not blank and all three checks pass. */
  lemma StructureValidIff(content: string)
    ensures ValidateStructure(content).isValid <==>
      !IsBlank(content) && HasHeader(CheckedLines(content))
      && HasExtinf(CheckedLines(content)) && HasStreamUrl(CheckedLines(content))
  {
    var lines := CheckedLines(content);
    ValidateReports(content);
    FailuresIff(HasHeader(lines), HasExtinf(lines), HasStreamUrl(lines));
  }

  // ----- Generated content -----

  /** The lines checked in generated content: the written lines, then the empty piece after the final `\n`. */
  lemma GeneratedLines(chs: seq<Channel>, cfgs: seq<PlaylistConfig>)
    requires forall k | 0 <= k < |chs| :: WritableChannel(chs[k].info)
    requires forall k | 0 <= k < |cfgs| :: WritableConfig(cfgs[k])
    ensures CheckedLines(Join(OutputLines(chs, cfgs)) + "\n") == OutputLines(chs, cfgs) + [""]
    ensures !IsBlank(Join(OutputLines(chs, cfgs)) + "\n")
  {
    var lines := OutputLines(chs, cfgs);
    OutputWritten(chs, cfgs);
    SplitJoin(lines);
    var padded := lines + [""];
    forall i | 0 <= i < |padded| ensures IsTrimmed(padded[i]) {
      if i < |lines| {
        assert padded[i] == lines[i];
      }
    }
    TrimAllTrimmed(padded);
    JoinFront(lines);
    assert !IsWhitespace((Join(lines) + "\n")[0]);
  }

  /** The first written line is a header. */
  lemma HeaderFirst(cfgs: seq<PlaylistConfig>)
    requires forall k | 0 <= k < |cfgs| :: WritableConfig(cfgs[k])
    ensures StartsWith(HeaderLines(cfgs)[0], "#EXTM3U")
  {
    if cfgs != [] {
      ConfigLineShape(cfgs[0]);
    }
  }

  lemma Ends<T>(x: T, m: seq<T>, y: T)
    ensures ([x] + m + [y])[0] == x && ([x] + m + [y])[|m| + 1] == y
  {
  }

  lemma Places<T>(header: seq<T>, before: seq<T>, block: seq<T>, pad: T)
    requires header != [] && block != []
    ensures var s := header + (before + block) + [pad];
      s[0] == header[0] && s[|header| + |before|] == block[0] && s[|s| - 2] == block[|block| - 1]
  {
  }

  /** A channel's block starts with its `#EXTINF` line and ends with its url. */
  lemma BlockEnds(ch: ChannelInfo)
    ensures var block := Block(ch);
      |block| == |VlcOptionLines(ch)| + 2 && block[0] == ExtinfLineOf(ch) && block[|block| - 1] == ch.url
  {
    Ends(ExtinfLineOf(ch), VlcOptionLines(ch), ch.url);
  }

  /** Generated lines with a header line, an `#EXTINF:` line and a stream url pass all three checks. */
  lemma GeneratedChecks(lines: seq<string>, header: seq<string>, before: seq<string>, last: ChannelInfo)
    requires header != [] && StartsWith(header[0], "#EXTM3U")
    requires StartsWith(ExtinfLineOf(last), "#EXTINF:") && IsStreamUrl(last.url)
    requires lines == header + (before + Block(last)) + [""]
    ensures HasHeader(lines) && HasExtinf(lines) && HasStreamUrl(lines)
  {
    BlockEnds(last);
    Places(header, before, Block(last), "");
  }

  /** Content generated from at least one channel passes all three checks. */
  lemma GeneratedIsValid(chs: seq<Channel>, cfgs: seq<PlaylistConfig>)
    requires chs != []
    requires forall k | 0 <= k < |chs| :: WritableChannel(chs[k].info)
    requires forall k | 0 <= k < |cfgs| :: WritableConfig(cfgs[k])
    ensures Generate(chs, cfgs).Ok?
    ensures ValidateStructure(Generate(chs, cfgs).value) == Report(true, [])
  {
    GenerateOk(chs, cfgs);
    GeneratedLines(chs, cfgs);
    var last := chs[|chs| - 1].info;
    HeaderFirst(cfgs);
    ExtinfLineShape(last);
    GeneratedChecks(OutputLines(chs, cfgs) + [""], HeaderLines(cfgs), ChannelLines(chs[..|chs| - 1]), last);
    StructureValidIff(Join(OutputLines(chs, cfgs)) + "\n");
  }

  /** A header line, or the empty piece after the final line break, is neither an `#EXTINF:` line nor a stream url. */
  lemma HeaderNotChannel(line: string)
    requires StartsWith(line, "#EXTM3U") || line == []
    ensures !StartsWith(line, "#EXTINF:") && !IsStreamUrl(line)
  {
    if line != [] {
      PrefixChar(line, "#EXTM3U", 0);
      PrefixChar(line, "#EXTM3U", 4);
    }
  }

  /** Every line of a header block starts with `#EXTM3U`. */
  lemma HeaderTagged(cfgs: seq<PlaylistConfig>, i: nat)
    requires forall k | 0 <= k < |cfgs| :: WritableConfig(cfgs[k])
    requires i < |HeaderLines(cfgs)|
    ensures StartsWith(HeaderLines(cfgs)[i], "#EXTM3U")
  {
    if cfgs != [] {
      ConfigLineShape(cfgs[i]);
    }
  }

  /** The lines of a header block and the empty piece: a header, no `#EXTINF:` line, no stream url. */
  lemma HeaderOnlyChecks(lines: seq<string>, cfgs: seq<PlaylistConfig>)
    requires forall k | 0 <= k < |cfgs| :: WritableConfig(cfgs[k])
    requires lines == HeaderLines(cfgs) + [""]
    ensures HasHeader(lines) && !HasExtinf(lines) && !HasStreamUrl(lines)
  {
    forall i | 0 <= i < |lines| ensures !StartsWith(lines[i], "#EXTINF:") && !IsStreamUrl(lines[i]) {
      if i < |lines| - 1 {
        HeaderTagged(cfgs, i);
        assert lines[i] == HeaderLines(cfgs)[i];
      }
      HeaderNotChannel(lines[i]);
    }
    HeaderFirst(cfgs);
    assert StartsWith(lines[0], "#EXTM3U");
  }

  /**
   * Content generated from no channels has its header but fails the
   * channel check and the URL check, in that order.
   */
  lemma GeneratedWithoutChannels(cfgs: seq<PlaylistConfig>)
    requires forall k | 0 <= k < |cfgs| :: WritableConfig(cfgs[k])
    ensures Generate([], cfgs).Ok?
    ensures ValidateStructure(Generate([], cfgs).value) == Report(false, [NoChannels, NoStreamUrls])
  {
    GeneratedReport([], cfgs);
    HeaderBlockReport(cfgs);
  }

  /** Generated content is reported on its written lines and the empty piece after them. */
  lemma GeneratedReport(chs: seq<Channel>, cfgs: seq<PlaylistConfig>)
    requires forall k | 0 <= k < |chs| :: WritableChannel(chs[k].info)
    requires forall k | 0 <= k < |cfgs| :: WritableConfig(cfgs[k])
    ensures Generate(chs, cfgs) == Ok(Join(OutputLines(chs, cfgs)) + "\n")
    ensures ValidateStructure(Join(OutputLines(chs, cfgs)) + "\n") == ReportOf(false, OutputLines(chs, cfgs) + [""])
  {
    GenerateOk(chs, cfgs);
    GeneratedLines(chs, cfgs);
    ReportOnLines(Join(OutputLines(chs, cfgs)) + "\n", OutputLines(chs, cfgs) + [""]);
  }

  /** Non-blank content is reported on its checked lines. */
  lemma ReportOnLines(content: string, lines: seq<string>)
    requires !IsBlank(content) && CheckedLines(content) == lines
    ensures ValidateStructure(content) == ReportOf(false, lines)
  {
  }

  /** The lines of a header block alone are reported for their missing channels and stream urls. */
  lemma HeaderBlockReport(cfgs: seq<PlaylistConfig>)
    requires forall k | 0 <= k < |cfgs| :: WritableConfig(cfgs[k])
    ensures ReportOf(false, OutputLines([], cfgs) + [""]) == Report(false, [NoChannels, NoStreamUrls])
  {
    assert OutputLines([], cfgs) == HeaderLines(cfgs);
    HeaderOnlyChecks(HeaderLines(cfgs) + [""], cfgs);
    FailuresIff(true, false, false);
  }

  // ----- Parsed content -----

  /** A line the filter of `preprocessLines` keeps is one of the lines it filters. */
  lemma {:induction false} KeepLinesFrom(lines: seq<string>, i: nat) returns (j: nat)
    requires i < |KeepLines(lines)|
    ensures j < |lines| && lines[j] == KeepLines(lines)[i]
    decreases |lines|
  {
    if Kept(lines[0]) && i == 0 {
      j := 0;
    } else {
      var k := KeepLinesFrom(lines[1..], if Kept(lines[0]) then i - 1 else i);
      j := k + 1;
    }
  }

  /** A title is pending or a channel has been committed. */
  predicate Opened(st: State) {
    st.current.title.Some? || |st.channels| > 0
  }

  /** Only an `#EXTINF:` line opens a channel. */
  lemma StepNeedsExtinf(st: State, k: Line)
    requires !k.ExtinfLine?
    ensures Opened(Step(st, k)) ==> Opened(st)
  {
  }

  /** A line classified as `#EXTINF` starts with `#EXTINF:`. */
  lemma ExtinfTagged(line: string)
    ensures Classify(line).ExtinfLine? ==> StartsWith(line, "#EXTINF:")
  {
  }

  /** Until an `#EXTINF:` line has been read, there is no title and no channel. */
  lemma {:induction false} RunNeedsExtinf(lines: seq<string>)
    ensures Opened(Run(Start, ClassifyAll(lines))) ==> HasExtinf(lines)
    decreases |lines|
  {
    if lines != [] {
      var init := lines[..|lines| - 1];
      var last := lines[|lines| - 1];
      RunNeedsExtinf(init);
      ExtinfTagged(last);
      if !StartsWith(last, "#EXTINF:") {
        StepNeedsExtinf(Run(Start, ClassifyAll(init)), Classify(last));
        if HasExtinf(init) {
          var i :| 0 <= i < |init| && StartsWith(init[i], "#EXTINF:");
          assert lines[i] == init[i];
        }
      }
    }
  }

  /**
   * Content in which the parser finds a channel passes the channel check
   * and the URL check: it has an `#EXTINF:` line and a stream-URL line.
   */
  lemma ParsedChannelPassesChecks(content: string)
    requires Parse(content).Ok? && |Parse(content).value.channels| > 0
    ensures NoChannels !in ValidateStructure(content).errors && NoStreamUrls !in ValidateStructure(content).errors
  {
    ParsedLinesPass(content);
    StructureErrors(content);
  }

  lemma ParsedLinesPass(content: string)
    requires Parse(content).Ok? && |Parse(content).value.channels| > 0
    ensures HasExtinf(CheckedLines(content)) && HasStreamUrl(CheckedLines(content))
  {
    var kept := PreprocessLines(content);
    assert kept == KeepLines(CheckedLines(content));
    ParsedHasUrl(content, kept);
    FinalFlushIsEmpty(kept);
    RunNeedsExtinf(kept);
    KeptHasExtinf(CheckedLines(content));
  }

  /** The url that completed the first parsed channel is a stream url among the checked lines. */
  lemma ParsedHasUrl(content: string, kept: seq<string>)
    requires Parse(content).Ok? && |Parse(content).value.channels| > 0
    requires kept == PreprocessLines(content) && kept == KeepLines(CheckedLines(content))
    ensures HasStreamUrl(CheckedLines(content))
  {
    var idx := ParsedInUrlOrder(content);
    var u := KeepLinesFrom(CheckedLines(content), idx[0]);
    assert IsStreamUrl(CheckedLines(content)[u]);
  }

  /** An `#EXTINF:` line the filter keeps is among the lines it filters. */
  lemma KeptHasExtinf(lines: seq<string>)
    requires HasExtinf(KeepLines(lines))
    ensures HasExtinf(lines)
  {
    var kept := KeepLines(lines);
    var i :| 0 <= i < |kept| && StartsWith(kept[i], "#EXTINF:");
    var e := KeepLinesFrom(lines, i);
    assert StartsWith(lines[e], "#EXTINF:");
  }
}
