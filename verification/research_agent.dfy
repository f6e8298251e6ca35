/**
 * The research assistant agent: its native tools once the network, the clock
 * and the file system are inputs (web search and page fetch post-processing,
 * competitor tracking, report generation, paper summary), the Coral server
 * address it builds from the environment, the bounded connection retry that
 * assembles its tool list, and the chat loop that keeps a bounded history.
 */
module ResearchAgent {
  import opened Wrappers
  import opened Text
  import opened Json
  import opened CompetitorLog
  import opened Web

  // ---------------------------------------------------------------------
  // Search and fetch
  // ---------------------------------------------------------------------

  /** What `web_search` answers when the search library is not installed. */
  const NotInstalled := "Error: duckduckgo-search not installed. Run: pip install duckduckgo-search"
  /** What `web_search` answers when the search finds nothing. */
  const NoResults := "No results found for the query."

  /** The reply of `web_search` for a given answer of the search library. */
  function SearchReply(outcome: SearchOutcome): string
  {
    match outcome
    case ModuleMissing => NotInstalled
    case SearchFailed(m) => "Search error: " + m
    case Hits(hits) =>
      if hits == [] then NoResults else Join(HitBlocks(AgentLayout, hits), "\n\n")
  }

  /** `web_search`: numbers the hits in a loop and joins the blocks with blank lines. */
  method WebSearch(outcome: SearchOutcome) returns (reply: string)
    ensures reply == SearchReply(outcome)
  {
    match outcome
    case ModuleMissing =>
      reply := NotInstalled;
    case SearchFailed(m) =>
      reply := "Search error: " + m;
    case Hits(hits) =>
      if hits == [] {
        reply := NoResults;
      } else {
        var blocks := FormatHits(AgentLayout, hits);
        reply := Join(blocks, "\n\n");
      }
  }

  /** The reply of `fetch_url`: at most 100 cleaned lines, cut to 5000 characters. */
  function FetchReply(url: string, outcome: FetchOutcome): string
  {
    match outcome
    case FetchFailed(m) => "Error fetching URL: " + m
    case Page(text) => FetchedText(url, text, 100, 5000)
  }

  /**
   * A fetched page is shown under a header naming the URL, as at most 5000
   * characters from the start of its first 100 cleaned lines, which are clean
   * and come back whole when nothing was cut.
   */
  lemma FetchReplySpec(url: string, text: string)
    ensures var header := "Content from " + url + ":\n\n";
      var lines := Prefix(CleanLines(text), 100);
      var r := FetchReply(url, Page(text));
      |lines| <= 100 && (forall i :: 0 <= i < |lines| ==> Clean(lines[i]) && '\n' !in lines[i])
      && |header| <= |r| <= |header| + 5000 && r[..|header|] == header && r[|header|..] <= Join(lines, "\n")
      && (|Join(lines, "\n")| <= 5000 && lines != [] ==> Split(r[|header|..], '\n') == lines)
  {
    FetchedTextSpec(url, text, 100, 5000);
    CleanLinesClean(text);
    var all, lines := CleanLines(text), Prefix(CleanLines(text), 100);
    forall i | 0 <= i < |lines| ensures Clean(lines[i]) && '\n' !in lines[i] {
      assert lines[i] == all[i];
    }
  }

  // ---------------------------------------------------------------------
  // Competitor tracking
  // ---------------------------------------------------------------------

  /** The check mark at the head of the confirmation, as the characters the source file holds. */
  const TrackMark: string := "\U{201A}\U{00FA}\U{00EC}"

  function TrackReply(name: string, activity: string): string
  {
    TrackMark + " Logged activity for " + name + ": " + Prefix(activity, 50) + "..."
  }

  /**
   * `track_competitor`: appends one entry stamped `now` to the log file; the
   * reply confirms with the first 50 characters of the activity, or names the
   * file error, in which case the file is as it was.
   */
  method TrackCompetitor(log: LogFile, name: string, activity: string, source: string, now: string, fault: Fault)
    returns (reply: string)
    requires log.Valid()
    modifies log
    ensures log.Valid()
    ensures AppendError(old(log.present), fault).None? ==>
      log.present && log.entries == old(log.entries) + [Entry(now, Str(name), Str(activity), Str(source))]
      && reply == TrackReply(name, activity)
    ensures AppendError(old(log.present), fault).Some? ==>
      log.present == old(log.present) && log.entries == old(log.entries)
      && reply == "Error logging activity: " + AppendError(old(log.present), fault).value
  {
    var error := log.Append(Entry(now, Str(name), Str(activity), Str(source)), fault);
    match error
    case None => reply := TrackReply(name, activity);
    case Some(m) => reply := "Error logging activity: " + m;
  }

  /** The confirmation quotes the name whole and at most 50 characters from the start of the activity. */
  lemma TrackReplyShape(name: string, activity: string)
    ensures var head := TrackMark + " Logged activity for " + name + ": ";
      var r := TrackReply(name, activity);
      r[..|head|] == head && r[|head|..] == Prefix(activity, 50) + "..."
      && |r| <= |head| + 53
  {
  }

  // ---------------------------------------------------------------------
  // Reports
  // ---------------------------------------------------------------------

  /** `topic.replace(' ', '_').lower()`. */
  function Slug(topic: string): string
  {
    Lower(Replace(topic, ' ', "_"))
  }

  /** The file extension: the format name itself, except `md` for markdown. */
  function Extension(formatType: string): string
  {
    if formatType != "markdown" then formatType else "md"
  }

  /** `report_{slug}_{stamp}.{ext}`, `fileStamp` being the clock as `%Y%m%d_%H%M`. */
  function ReportFileName(topic: string, formatType: string, fileStamp: string): string
  {
    "report_" + Slug(topic) + "_" + fileStamp + "." + Extension(formatType)
  }

  /** `findings[:500]`. */
  function Summary(findings: string): (r: string)
    ensures |r| == if |findings| < 500 then |findings| else 500
    ensures r <= findings
  {
    Prefix(findings, 500)
  }

  function MarkdownReport(topic: string, findings: string, stamp: string): string
  {
    "# Research Report: " + topic + "\n\n**Generated:** " + stamp + "  \n**Agent:** Research Assistant (Coral Protocol)\n\n---\n\n## Summary\n\n"
      + Summary(findings) + "\n\n## Detailed Findings\n\n" + findings
      + "\n\n---\n\n*Report generated by Coral Protocol Research Agent*\n"
  }

  function ReportFields(topic: string, findings: string, stamp: string): seq<(string, Value)>
  {
    [("topic", Str(topic)), ("timestamp", Str(stamp)), ("summary", Str(Summary(findings))), ("findings", Str(findings))]
  }

  function TextReport(topic: string, findings: string, stamp: string): string
  {
    "RESEARCH REPORT: " + topic + "\nGenerated: " + stamp + "\n\n" + findings + "\n"
  }

  /** The report in the requested format; `stamp` is the clock as `%Y-%m-%d %H:%M`. */
  function Report(topic: string, findings: string, formatType: string, stamp: string): string
  {
    if formatType == "markdown" then MarkdownReport(topic, findings, stamp)
    else if formatType == "json" then Object(ReportFields(topic, findings, stamp))
    else TextReport(topic, findings, stamp)
  }

  /** What `generate_report` gives back, and the file it saves if the write succeeds. */
  datatype ReportOutcome = ReportOutcome(reply: string, saved: Option<(string, string)>)

  function GenerateReport(topic: string, findings: string, formatType: string, stamp: string, fileStamp: string,
                          writeError: Option<string>): ReportOutcome
  {
    var report := Report(topic, findings, formatType, stamp);
    var name := ReportFileName(topic, formatType, fileStamp);
    var preview := "\n\n" + Prefix(report, 1000) + "...";
    match writeError
    case None => ReportOutcome("Report saved to " + name + preview, Some((name, report)))
    case Some(m) => ReportOutcome("Error saving report: " + m + preview, None)
  }

  /**
   * The file name keeps every character of the topic in place, with spaces
   * turned into underscores and letters lower-cased, between `report_` and
   * `_{stamp}.{ext}`.
   */
  lemma ReportFileNameSpec(topic: string, formatType: string, fileStamp: string)
    ensures var name := ReportFileName(topic, formatType, fileStamp);
      var tail := "_" + fileStamp + "." + Extension(formatType);
      |name| == 7 + |topic| + |tail| && name[..7] == "report_" && name[7 + |topic|..] == tail
      && forall i :: 0 <= i < |topic| ==> name[7 + i] == LowerChar(if topic[i] == ' ' then '_' else topic[i])
  {
    ReplaceCharPointwise(topic, ' ', '_');
    var name := ReportFileName(topic, formatType, fileStamp);
    var tail := "_" + fileStamp + "." + Extension(formatType);
    assert name == "report_" + Slug(topic) + tail;
    forall i | 0 <= i < |topic| ensures name[7 + i] == LowerChar(if topic[i] == ' ' then '_' else topic[i]) {
      assert name[7 + i] == Slug(topic)[i];
    }
  }

  /** A slug has no spaces left. */
  lemma SlugHasNoSpace(topic: string)
    ensures ' ' !in Slug(topic)
  {
    ReplaceCharPointwise(topic, ' ', '_');
  }

  /** The extension differs from the format name only for markdown. */
  lemma ExtensionSpec(formatType: string)
    ensures Extension(formatType) == "md" <==> formatType == "markdown" || formatType == "md"
    ensures Extension(formatType) != formatType <==> formatType == "markdown"
  {
  }

  /** A markdown report opens with its heading and holds the summary and then the full findings. */
  lemma MarkdownReportSpec(topic: string, findings: string, stamp: string)
    ensures var r := Report(topic, findings, "markdown", stamp);
      var heading := "# Research Report: " + topic;
      r[..|heading|] == heading
      && exists i: nat, j: nat :: i < j && OccursAt(r, Summary(findings), i) && OccursAt(r, findings, j)
  {
    var r := Report(topic, findings, "markdown", stamp);
    var heading := "# Research Report: " + topic;
    var a := heading + "\n\n**Generated:** " + stamp + "  \n**Agent:** Research Assistant (Coral Protocol)\n\n---\n\n## Summary\n\n";
    var b := a + Summary(findings) + "\n\n## Detailed Findings\n\n";
    var c := "\n\n---\n\n*Report generated by Coral Protocol Research Agent*\n";
    assert r == b + findings + c;
    assert r[..|heading|] == heading by {
      assert r == heading + (r[|heading|..]);
    }
    assert OccursAt(r, Summary(findings), |a|) by {
      assert r == a + Summary(findings) + (r[|a| + |Summary(findings)|..]);
    }
    assert OccursAt(r, findings, |b|);
  }

  /** A JSON report reads back as the four fields, in order: topic, timestamp, summary, findings. */
  lemma JsonReportSpec(topic: string, findings: string, stamp: string)
    ensures ParseObject(Report(topic, findings, "json", stamp))
      == Some([("topic", Str(topic)), ("timestamp", Str(stamp)), ("summary", Str(Summary(findings))), ("findings", Str(findings))])
  {
    ObjectRoundTrip(ReportFields(topic, findings, stamp));
  }

  /** Any other format name gives the plain-text report. */
  lemma TextReportSpec(topic: string, findings: string, formatType: string, stamp: string)
    requires formatType != "markdown" && formatType != "json"
    ensures var r := Report(topic, findings, formatType, stamp);
      var heading := "RESEARCH REPORT: " + topic;
      |r| >= |heading| + |findings| + 1 && r[..|heading|] == heading && r[|r| - |findings| - 1..] == findings + "\n"
  {
    var heading := "RESEARCH REPORT: " + topic;
    var middle := "\nGenerated: " + stamp + "\n\n";
    assert TextReport(topic, findings, stamp) == heading + middle + (findings + "\n");
    Frame(heading, middle, findings + "\n");
  }

  /** Where the outer parts of a three-part concatenation sit. */
  lemma Frame(head: string, middle: string, tail: string)
    ensures var r := head + middle + tail;
      r[..|head|] == head && r[|r| - |tail|..] == tail
  {
    var r := head + middle + tail;
    assert r == head + (middle + tail);
  }

  /**
   * The reply shows at most the first 1000 characters of the report whether or
   * not it was saved, and the file, when written, holds the whole report under
   * the report file name.
   */
  lemma GenerateReportSpec(topic: string, findings: string, formatType: string, stamp: string, fileStamp: string,
                           writeError: Option<string>)
    ensures var o := GenerateReport(topic, findings, formatType, stamp, fileStamp, writeError);
      var report := Report(topic, findings, formatType, stamp);
      var preview := "\n\n" + Prefix(report, 1000) + "...";
      |o.reply| >= |preview| && o.reply[|o.reply| - |preview|..] == preview
      && (o.saved.Some? <==> writeError.None?)
      && (o.saved.Some? ==> o.saved.value == (ReportFileName(topic, formatType, fileStamp), report))
  {
  }

  // ---------------------------------------------------------------------
  // Paper summary
  // ---------------------------------------------------------------------

  /** `summarize_paper`: a fixed frame around the first 200 characters of the paper. */
  function SummarizePaper(paperText: string, maxLength: int): string
  {
    "Paper Summary (max " + IntToDecimal(maxLength) + " words):\n\nKey Points:\n- " + Prefix(paperText, 200)
      + "...\n\n[Full summarization would be performed by the LLM using this tool]\n"
  }

  /** Only the first 200 characters of the paper matter to the summary. */
  lemma SummarizePaperReadsPrefix(paperText: string, more: string, maxLength: int)
    requires |paperText| >= 200
    ensures SummarizePaper(paperText + more, maxLength) == SummarizePaper(paperText, maxLength)
  {
    assert (paperText + more)[..200] == paperText[..200];
  }

  // ---------------------------------------------------------------------
  // Tool list and Coral connection
  // ---------------------------------------------------------------------

  /** A tool as the prompt lists it. */
  datatype ToolInfo = ToolInfo(name: string, description: string)

  /** The names of the agent's own tools, in the order it lists them. */
  const NativeToolNames: seq<string> := ["web_search", "fetch_url", "track_competitor", "generate_report", "summarize_paper"]

  function DescriptionLine(t: ToolInfo): string
  {
    "- " + t.name + ": " + t.description
  }

  function DescriptionLines(tools: seq<ToolInfo>): (r: seq<string>)
    ensures |r| == |tools|
  {
    seq(|tools|, i requires 0 <= i < |tools| => DescriptionLine(tools[i]))
  }

  /** `get_tools_description`: one `- name: description` line per tool, built in a loop. */
  method ToolsDescription(tools: seq<ToolInfo>) returns (text: string)
    ensures text == Join(DescriptionLines(tools), "\n")
  {
    var descriptions: seq<string> := [];
    var i := 0;
    while i < |tools|
      invariant 0 <= i <= |tools|
      invariant descriptions == DescriptionLines(tools[..i])
    {
      descriptions := descriptions + [DescriptionLine(tools[i])];
      i := i + 1;
    }
    assert tools[..i] == tools;
    text := Join(descriptions, "\n");
  }

  /** The listing of native plus remote tools is the native listing followed by the remote one. */
  lemma DescriptionLinesAppend(native: seq<ToolInfo>, remote: seq<ToolInfo>)
    ensures DescriptionLines(native + remote) == DescriptionLines(native) + DescriptionLines(remote)
  {
  }

  /** Tools whose names and descriptions are single lines give one line each, in order. */
  lemma DescriptionSplit(tools: seq<ToolInfo>)
    requires |tools| >= 1
    requires forall i :: 0 <= i < |tools| ==> '\n' !in tools[i].name && '\n' !in tools[i].description
    ensures Split(Join(DescriptionLines(tools), "\n"), '\n') == DescriptionLines(tools)
  {
    var lines := DescriptionLines(tools);
    forall i | 0 <= i < |lines| ensures '\n' !in lines[i] {
      assert lines[i] == "- " + tools[i].name + ": " + tools[i].description;
    }
    SplitJoin(lines, '\n');
  }

  /** `os.getenv(key, default)`. */
  function Getenv(env: map<string, string>, key: string, default: string): string
  {
    if key in env then env[key] else default
  }

  /** Spaces written as `%20`, the only escaping the agent applies to its description. */
  function EncodeSpaces(s: string): string
  {
    Replace(s, ' ', "%20")
  }

  /** The reading of `%20` as a space, and of everything else as itself. */
  function DecodeSpaces(s: string): string
    decreases |s|
  {
    if s == [] then []
    else if |s| >= 3 && s[..3] == "%20" then " " + DecodeSpaces(s[3..])
    else [s[0]] + DecodeSpaces(s[1..])
  }

  /** The address with the agent's query appended, `&` if it already has a query and `?` otherwise. */
  function WithAgentQuery(base: string, agentId: string, description: string): string
  {
    base + (if '?' in base then "&" else "?") + "agentId=" + agentId + "&agentDescription=" + EncodeSpaces(description)
  }

  /** The Coral server address, when `CORAL_SSE_URL` is set to something non-empty. */
  function CoralUrl(env: map<string, string>): Option<string>
  {
    var base := Getenv(env, "CORAL_SSE_URL", "");
    if base == [] then None
    else Some(WithAgentQuery(base,
                             Getenv(env, "CORAL_AGENT_ID", "research_assistant"),
                             Getenv(env, "CORAL_AGENT_DESCRIPTION", "Research assistant agent")))
  }

  /** Decoding undoes the space encoding of a text that holds no `%`. */
  lemma {:induction false} DecodeEncode(s: string)
    requires '%' !in s
    ensures DecodeSpaces(EncodeSpaces(s)) == s
    decreases |s|
  {
    if s != [] {
      DecodeEncode(s[1..]);
      var rest := EncodeSpaces(s[1..]);
      assert EncodeSpaces(s) == (if s[0] == ' ' then "%20" else [s[0]]) + rest;
      if s[0] == ' ' {
        assert ("%20" + rest)[..3] == "%20" && ("%20" + rest)[3..] == rest;
      } else {
        assert ([s[0]] + rest)[1..] == rest;
      }
      assert [s[0]] + s[1..] == s;
    }
  }

  /**
   * The address starts with the configured one, then the separator chosen by
   * whether a query is already there; the agent id is inserted as it is; the
   * description comes last, without spaces, and a description without `%`
   * decodes back to itself.
   */
  lemma WithAgentQuerySpec(base: string, agentId: string, description: string)
    ensures var r := WithAgentQuery(base, agentId, description);
      var k := |base| + 1 + |"agentId="| + |agentId| + |"&agentDescription="|;
      |r| >= k && r[..|base|] == base && r[|base|] == (if '?' in base then '&' else '?')
      && r[|base| + 1..k] == "agentId=" + agentId + "&agentDescription="
      && ' ' !in r[k..] && r[k..] == EncodeSpaces(description)
      && ('%' !in description ==> DecodeSpaces(r[k..]) == description)
  {
    var r := WithAgentQuery(base, agentId, description);
    var sep := if '?' in base then "&" else "?";
    var mid := "agentId=" + agentId + "&agentDescription=";
    var k := |base| + 1 + |"agentId="| + |agentId| + |"&agentDescription="|;
    assert r == base + sep + mid + EncodeSpaces(description);
    assert r[k..] == EncodeSpaces(description);
    assert r[|base| + 1..k] == mid;
    ReplaceRemoves(description, ' ', "%20");
    if '%' !in description {
      DecodeEncode(description);
    }
  }

  /** A description that holds `%20` itself does not decode back: the encoding is not reversible there. */
  lemma DecodeAmbiguousWithPercent()
    ensures DecodeSpaces(EncodeSpaces("%20")) != "%20"
  {
    assert EncodeSpaces("%20") == "%20";
    assert DecodeSpaces("%20") == " ";
  }

  /** Without `CORAL_SSE_URL`, or with it empty, the agent runs standalone. */
  lemma CoralUrlStandalone(env: map<string, string>)
    requires "CORAL_SSE_URL" !in env || env["CORAL_SSE_URL"] == []
    ensures CoralUrl(env) == None
  {
  }

  /** What one connection attempt gives: the client cannot be made, it cannot list its tools, or it lists them. */
  datatype Attempt = ClientFails(message: string) | ToolsFail(message: string) | ToolsLoaded(tools: seq<ToolInfo>)

  const MaxRetries: nat := 5
  const RetryDelay: nat := 5

  /** The first attempt from `from` on, within the retry budget, that loads the tools. */
  function FirstLoaded(outcome: nat -> Attempt, from: nat): (r: Option<nat>)
    ensures r.Some? ==> from <= r.value < MaxRetries && outcome(r.value).ToolsLoaded?
    ensures r.Some? ==> forall k :: from <= k < r.value ==> !outcome(k).ToolsLoaded?
    ensures r.None? ==> forall k :: from <= k < MaxRetries ==> !outcome(k).ToolsLoaded?
    decreases MaxRetries - from
  {
    if from >= MaxRetries then None
    else if outcome(from).ToolsLoaded? then Some(from)
    else FirstLoaded(outcome, from + 1)
  }

  /** The last of the first `n` attempts that got as far as making a client. */
  function LastClient(outcome: nat -> Attempt, n: nat): (r: Option<nat>)
    ensures r.Some? ==> r.value < n && !outcome(r.value).ClientFails?
    ensures r.Some? ==> forall k :: r.value < k < n ==> outcome(k).ClientFails?
    ensures r.None? ==> forall k :: 0 <= k < n ==> outcome(k).ClientFails?
  {
    if n == 0 then None
    else if !outcome(n - 1).ClientFails? then Some(n - 1)
    else LastClient(outcome, n - 1)
  }

  /**
   * The connection part of `create_coralized_agent`. Without an address no
   * attempt is made and the tools are the native ones. With one, attempts run
   * until the first that loads the remote tools, at most five; a sleep of
   * `RetryDelay` seconds separates consecutive attempts and follows none of the
   * last. The tools are the native ones followed by the remote ones on success,
   * the native ones alone otherwise. `client` is the attempt whose client the
   * agent keeps (the last one that was made), if any.
   */
  method Connect(url: Option<string>, native: seq<ToolInfo>, outcome: nat -> Attempt)
    returns (allTools: seq<ToolInfo>, attempts: nat, slept: nat, client: Option<nat>)
    ensures url.None? ==> attempts == 0 && allTools == native
    ensures url.Some? ==> attempts == match FirstLoaded(outcome, 0) case Some(k) => k + 1 case None => MaxRetries
    ensures 0 <= attempts <= MaxRetries
    ensures allTools == if url.Some? && FirstLoaded(outcome, 0).Some?
                        then native + outcome(FirstLoaded(outcome, 0).value).tools else native
    ensures slept == RetryDelay * (if attempts == 0 then 0 else attempts - 1)
    ensures client == LastClient(outcome, attempts)
  {
    allTools, attempts, slept, client := native, 0, 0, None;
    if url.Some? {
      var attempt := 0;
      while attempt < MaxRetries
        invariant 0 <= attempt <= MaxRetries && attempts == attempt
        invariant forall k :: 0 <= k < attempt ==> !outcome(k).ToolsLoaded?
        invariant allTools == native
        invariant slept == RetryDelay * (if attempt < MaxRetries then attempt else MaxRetries - 1)
        invariant client == LastClient(outcome, attempt)
      {
        var o := outcome(attempt);
        attempts := attempts + 1;
        if !o.ClientFails? {
          client := Some(attempt);
        }
        if o.ToolsLoaded? {
          allTools := allTools + o.tools;
          break;
        }
        if attempt < MaxRetries - 1 {
          slept := slept + RetryDelay;
        }
        attempt := attempt + 1;
      }
    }
  }

  // ---------------------------------------------------------------------
  // Chat loop
  // ---------------------------------------------------------------------

  datatype Message = Human(content: string) | Ai(content: string)

  /** One line typed by the user, and the agent's answer to it (`None` when the agent raised). */
  datatype Turn = Turn(line: string, answer: Option<string>)

  const HistoryLimit: nat := 20

  /** `history[-20:]` when the history has grown past 20 messages. */
  function KeepRecent(history: seq<Message>): (r: seq<Message>)
    ensures |r| <= HistoryLimit || r == history
    ensures |r| == (if |history| > HistoryLimit then HistoryLimit else |history|)
    ensures r == history[|history| - |r|..]
  {
    if |history| > HistoryLimit then history[|history| - HistoryLimit..] else history
  }

  /** The words that end the session, after stripping and lower-casing. */
  predicate IsExitWord(word: string)
  {
    word in {"exit", "quit", "q"}
  }

  /** `line.strip().lower() in ['exit', 'quit', 'q']`. */
  predicate IsExitCommand(line: string)
  {
    IsExitWord(Lower(Strip(line)))
  }

  /** The history after one turn: unchanged for a blank line or a failed answer, else two messages more, trimmed. */
  function AfterTurn(history: seq<Message>, turn: Turn): seq<Message>
  {
    var input := Strip(turn.line);
    if input == [] || turn.answer.None? then history
    else KeepRecent(history + [Human(input), Ai(turn.answer.value)])
  }

  /** The history after the given turns, none of them an exit. */
  function Replay(turns: seq<Turn>): seq<Message>
    decreases |turns|
  {
    if turns == [] then [] else AfterTurn(Replay(turns[..|turns| - 1]), turns[|turns| - 1])
  }

  /**
   * The `while True` loop of `main`: reads turns until an exit word, skipping
   * blank lines and leaving the history alone when the agent raises. Returns
   * the final history and the number of turns read before the exit word.
   */
  method ChatLoop(turns: seq<Turn>) returns (history: seq<Message>, read: nat)
    ensures read <= |turns|
    ensures NoExitBefore(turns, read)
    ensures read < |turns| ==> IsExitCommand(turns[read].line)
    ensures history == Replay(turns[..read])
  {
    history, read := [], 0;
    while read < |turns|
      invariant read <= |turns|
      invariant NoExitBefore(turns, read)
      invariant history == Replay(turns[..read])
    {
      var input := Strip(turns[read].line);
      if IsExitWord(Lower(input)) {
        break;
      }
      ReplayStep(turns, read);
      if input != [] && turns[read].answer.Some? {
        history := Remember(history, input, turns[read].answer.value);
      }
      NoExitExtend(turns, read);
      read := read + 1;
    }
  }

  /** None of the first `n` lines is an exit word. */
  predicate NoExitBefore(turns: seq<Turn>, n: nat)
    requires n <= |turns|
  {
    forall k :: 0 <= k < n ==> !IsExitCommand(turns[k].line)
  }

  lemma NoExitExtend(turns: seq<Turn>, n: nat)
    requires n < |turns| && NoExitBefore(turns, n) && !IsExitCommand(turns[n].line)
    ensures NoExitBefore(turns, n + 1)
  {
  }

  /** Appends a question and its answer, then cuts the history back to its last 20 messages. */
  method Remember(history: seq<Message>, question: string, answer: string) returns (h: seq<Message>)
    ensures h == KeepRecent(history + [Human(question), Ai(answer)])
  {
    h := history + [Human(question), Ai(answer)];
    if |h| > HistoryLimit {
      h := h[|h| - HistoryLimit..];
    }
  }

  lemma ReplayStep(turns: seq<Turn>, i: nat)
    requires i < |turns|
    ensures Replay(turns[..i + 1]) == AfterTurn(Replay(turns[..i]), turns[i])
  {
    assert turns[..i + 1][..i] == turns[..i];
  }

  /** The history alternates a question and its answer, starting with a question. */
  predicate Paired(history: seq<Message>)
  {
    |history| % 2 == 0 && forall i :: 0 <= i < |history| ==> (history[i].Human? <==> i % 2 == 0)
  }

  /** A question and its answer added to a paired history keep it paired. */
  lemma PairedGrow(before: seq<Message>, q: string, a: string)
    requires Paired(before)
    ensures Paired(before + [Human(q), Ai(a)])
  {
    var grown := before + [Human(q), Ai(a)];
    forall i | 0 <= i < |grown| ensures grown[i].Human? <==> i % 2 == 0 {
      if i < |before| {
        assert grown[i] == before[i];
      }
    }
  }

  /** Trimming a paired history of at most 22 messages to 20 keeps it paired. */
  lemma PairedKeepRecent(grown: seq<Message>)
    requires Paired(grown) && |grown| <= HistoryLimit + 2
    ensures Paired(KeepRecent(grown))
  {
    var kept := KeepRecent(grown);
    var d := |grown| - |kept|;
    assert d == 0 || d == 2;
    forall i | 0 <= i < |kept| ensures kept[i].Human? <==> i % 2 == 0 {
      assert kept[i] == grown[i + d];
    }
  }

  /** However long the session, the history holds at most 20 messages, in question-answer pairs. */
  lemma {:induction false} ReplayBounded(turns: seq<Turn>)
    ensures |Replay(turns)| <= HistoryLimit
    ensures Paired(Replay(turns))
    decreases |turns|
  {
    if turns != [] {
      var before := Replay(turns[..|turns| - 1]);
      ReplayBounded(turns[..|turns| - 1]);
      var turn := turns[|turns| - 1];
      var input := Strip(turn.line);
      if input != [] && turn.answer.Some? {
        PairedGrow(before, input, turn.answer.value);
        PairedKeepRecent(before + [Human(input), Ai(turn.answer.value)]);
      }
    }
  }

  /** A turn that gets an answer leaves its question and the answer as the two newest messages. */
  lemma ReplayKeepsNewest(turns: seq<Turn>, turn: Turn)
    requires Strip(turn.line) != [] && turn.answer.Some?
    ensures var h := Replay(turns + [turn]);
      |h| >= 2 && h[|h| - 2..] == [Human(Strip(turn.line)), Ai(turn.answer.value)]
  {
    assert (turns + [turn])[..|turns|] == turns;
  }
}
