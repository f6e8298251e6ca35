/**
 * The MCP server of the research assistant: the catalog of five tools it
 * advertises, the dispatch of a tool call by name, and the handlers once the
 * network, the clock and the log file are inputs. Every handler turns an
 * exception into an error text, so a call always yields text.
 */
module ResearchMcpServer {
  import opened Wrappers
  import opened Text
  import opened Json
  import opened CompetitorLog
  import opened Web

  // ---------------------------------------------------------------------
  // Catalog and dispatch
  // ---------------------------------------------------------------------

  datatype Handler = WebSearch | FetchUrl | TrackCompetitor | GenerateReport | GetCompetitorLogs

  /** The tool name each handler answers to. */
  function HandlerName(h: Handler): string
  {
    match h
    case WebSearch => "web_search"
    case FetchUrl => "fetch_url"
    case TrackCompetitor => "track_competitor"
    case GenerateReport => "generate_report"
    case GetCompetitorLogs => "get_competitor_logs"
  }

  /** The `if`/`elif` chain of `call_tool`. */
  function Route(name: string): Option<Handler>
  {
    if name == "web_search" then Some(WebSearch)
    else if name == "fetch_url" then Some(FetchUrl)
    else if name == "track_competitor" then Some(TrackCompetitor)
    else if name == "generate_report" then Some(GenerateReport)
    else if name == "get_competitor_logs" then Some(GetCompetitorLogs)
    else None
  }

  /** One property of a tool's input schema. */
  datatype Param = Param(name: string, kind: string, description: Option<string>, default: Option<Value>, choices: seq<string>)

  /** One entry of `list_tools`. */
  datatype ToolSpec = ToolSpec(name: string, description: string, params: seq<Param>, required: seq<string>)

  /** What `list_tools` advertises. */
  const Catalog: seq<ToolSpec> := [
    ToolSpec("web_search", "Search the web for information on any topic",
      [Param("query", "string", Some("Search query"), None, []),
       Param("num_results", "integer", Some("Number of results (default: 5)"), Some(Int(5)), [])],
      ["query"]),
    ToolSpec("fetch_url", "Fetch and extract content from a URL",
      [Param("url", "string", Some("URL to fetch"), None, [])],
      ["url"]),
    ToolSpec("track_competitor", "Log a competitor activity for tracking",
      [Param("competitor_name", "string", Some("Competitor name (e.g., Google A2A, AGNTCY)"), None, []),
       Param("activity", "string", Some("Description of activity"), None, []),
       Param("source", "string", Some("Source URL"), Some(Str("")), [])],
      ["competitor_name", "activity"]),
    ToolSpec("generate_report", "Generate a structured research report",
      [Param("topic", "string", Some("Research topic"), None, []),
       Param("findings", "string", Some("Research findings"), None, []),
       Param("format_type", "string", None, Some(Str("markdown")), ["markdown", "json", "text"])],
      ["topic", "findings"]),
    ToolSpec("get_competitor_logs", "Get logged competitor activities",
      [Param("competitor", "string", Some("Filter by competitor name (optional)"), Some(Str("")), []),
       Param("limit", "integer", Some("Max entries to return"), Some(Int(50)), [])],
      [])
  ]

  /** The value a handler's `arguments.get(key, default)` falls back to. */
  function DefaultFor(h: Handler, key: string): Value
  {
    match h
    case WebSearch => if key == "num_results" then Int(5) else Str("")
    case GenerateReport => if key == "format_type" then Str("markdown") else Str("")
    case GetCompetitorLogs => if key == "limit" then Int(50) else Str("")
    case _ => Str("")
  }

  /** `arguments.get(key, default)` inside handler `h`. */
  function Get(h: Handler, args: map<string, Value>, key: string): Value
  {
    if key in args then args[key] else DefaultFor(h, key)
  }

  /**
   * The five advertised names are distinct, each routes to the handler that
   * answers to it, and no other name routes anywhere.
   */
  lemma CatalogMatchesRoute(name: string)
    ensures |Catalog| == 5
    ensures forall i, j :: 0 <= i < j < |Catalog| ==> Catalog[i].name != Catalog[j].name
    ensures forall i :: 0 <= i < |Catalog| ==> Route(Catalog[i].name).Some? && HandlerName(Route(Catalog[i].name).value) == Catalog[i].name
    ensures Route(name).Some? <==> exists i :: 0 <= i < |Catalog| && Catalog[i].name == name
  {
    if Route(name).Some? {
      var h := Route(name).value;
      var i := match h case WebSearch => 0 case FetchUrl => 1 case TrackCompetitor => 2 case GenerateReport => 3 case GetCompetitorLogs => 4;
      assert Catalog[i].name == name;
    }
  }

  /** Every default the catalog advertises is the one the handler actually falls back to. */
  lemma AdvertisedDefaultsAreUsed(i: nat, j: nat)
    requires i < |Catalog| && j < |Catalog[i].params|
    requires Catalog[i].params[j].default.Some?
    ensures Route(Catalog[i].name).Some?
    ensures DefaultFor(Route(Catalog[i].name).value, Catalog[i].params[j].name) == Catalog[i].params[j].default.value
  {
  }

  // ---------------------------------------------------------------------
  // Search and fetch
  // ---------------------------------------------------------------------

  /** The message of the `ImportError` raised when the search library is not installed. */
  const NotInstalled := "Search error: No module named 'duckduckgo_search'"
  /** What `handle_web_search` answers when the search finds nothing. */
  const NoResults := "No results found."

  /** The reply of `handle_web_search`; a missing library is an `ImportError` caught like any other. */
  function SearchReply(outcome: SearchOutcome): string
  {
    match outcome
    case ModuleMissing => NotInstalled
    case SearchFailed(m) => "Search error: " + m
    case Hits(hits) => if hits == [] then NoResults else Join(HitBlocks(ServerLayout, hits), "\n\n")
  }

  /** `handle_web_search`: numbers the hits in a loop and joins the blocks with blank lines. */
  method HandleWebSearch(outcome: SearchOutcome) returns (reply: string)
    ensures reply == SearchReply(outcome)
  {
    match outcome
    case ModuleMissing =>
      reply := NotInstalled;
    case SearchFailed(m) =>
      reply := "Search error: " + m;
    case Hits(hits) =>
      if hits == [] {
        reply := NoResults;
      } else {
        var formatted := FormatHits(ServerLayout, hits);
        reply := Join(formatted, "\n\n");
      }
  }

  /** The reply of `handle_fetch_url`: at most 150 cleaned lines, cut to 8000 characters. */
  function FetchReply(args: map<string, Value>, outcome: FetchOutcome): string
  {
    match outcome
    case FetchFailed(m) => "Error: " + m
    case Page(text) => FetchedText(Display(Get(FetchUrl, args, "url")), text, 150, 8000)
  }

  /**
   * A fetched page is shown under a header naming the URL (empty when none is
   * given), as at most 8000 characters from the start of its first 150 cleaned
   * lines, which are clean and come back whole when nothing was cut.
   */
  lemma FetchReplySpec(args: map<string, Value>, text: string)
    ensures var header := "Content from " + Display(Get(FetchUrl, args, "url")) + ":\n\n";
      var lines := Prefix(CleanLines(text), 150);
      var r := FetchReply(args, Page(text));
      |lines| <= 150 && (forall i :: 0 <= i < |lines| ==> Clean(lines[i]) && '\n' !in lines[i])
      && |header| <= |r| <= |header| + 8000 && r[..|header|] == header && r[|header|..] <= Join(lines, "\n")
      && (|Join(lines, "\n")| <= 8000 && lines != [] ==> Split(r[|header|..], '\n') == lines)
  {
    FetchedTextSpec(Display(Get(FetchUrl, args, "url")), text, 150, 8000);
    CleanLinesClean(text);
    var all, lines := CleanLines(text), Prefix(CleanLines(text), 150);
    forall i | 0 <= i < |lines| ensures Clean(lines[i]) && '\n' !in lines[i] {
      assert lines[i] == all[i];
    }
  }

  // ---------------------------------------------------------------------
  // Competitor tracking
  // ---------------------------------------------------------------------

  /** The check mark at the head of the confirmation, as the characters the source file holds. */
  const TrackMark: string := "\U{00E2}\U{0153}\U{201C}"

  /** The entry a tracking call logs, stamped with `now`. */
  function NewEntry(args: map<string, Value>, now: string): Entry
  {
    Entry(now, Get(TrackCompetitor, args, "competitor_name"), Get(TrackCompetitor, args, "activity"), Get(TrackCompetitor, args, "source"))
  }

  /**
   * The reply once the file step is over: the file error if there was one;
   * otherwise the confirmation, which slices the activity and so raises, after
   * the entry is already written, when the activity is not a string.
   */
  function TrackReply(e: Entry, error: Option<string>): string
  {
    match error
    case Some(m) => "Error: " + m
    case None =>
      match e.activity
      case Str(a) => TrackMark + " Logged activity for " + Display(e.competitor) + ": " + Prefix(a, 60) + "..."
      case Int(_) => "Error: " + NotSubscriptable
  }

  /**
   * `handle_track_competitor`: appends one entry, with missing arguments
   * read as empty strings, to the loaded list (a missing file being `[]`).
   */
  method HandleTrackCompetitor(log: LogFile, args: map<string, Value>, now: string, fault: Fault) returns (reply: string)
    requires log.Valid()
    modifies log
    ensures log.Valid()
    ensures var err := AppendError(old(log.present), fault);
      reply == TrackReply(NewEntry(args, now), err)
      && (err.None? ==> log.present && log.entries == old(log.entries) + [NewEntry(args, now)])
      && (err.Some? ==> log.present == old(log.present) && log.entries == old(log.entries))
  {
    var entry := NewEntry(args, now);
    var error := log.Append(entry, fault);
    reply := TrackReply(entry, error);
  }

  /** A missing argument is logged as the empty string. */
  lemma NewEntryDefaults(now: string)
    ensures NewEntry(map[], now) == Entry(now, Str(""), Str(""), Str(""))
  {
  }

  // ---------------------------------------------------------------------
  // Reports
  // ---------------------------------------------------------------------

  function MarkdownReport(topic: Value, findings: Value, stamp: string): string
  {
    "# Research Report: " + Display(topic) + "\n\n**Generated:** " + stamp + "  \n**Agent:** Research Assistant (Coral Protocol)\n\n---\n\n## Findings\n\n"
      + Display(findings) + "\n\n---\n\n*Report generated by Coral Protocol Research Agent*\n"
  }

  function ReportFields(topic: Value, findings: Value, stamp: string): seq<(string, Value)>
  {
    [("topic", topic), ("timestamp", Str(stamp)), ("findings", findings)]
  }

  function TextReport(topic: Value, findings: Value, stamp: string): string
  {
    "RESEARCH REPORT: " + Display(topic) + "\nGenerated: " + stamp + "\n\n" + Display(findings)
  }

  /** `handle_generate_report`: the report itself is the reply; no file is written. */
  function ReportReply(args: map<string, Value>, stamp: string): string
  {
    var topic, findings := Get(GenerateReport, args, "topic"), Get(GenerateReport, args, "findings");
    var formatType := Get(GenerateReport, args, "format_type");
    if formatType == Str("markdown") then MarkdownReport(topic, findings, stamp)
    else if formatType == Str("json") then Object(ReportFields(topic, findings, stamp))
    else TextReport(topic, findings, stamp)
  }

  /** Without a format the report is markdown, opening with its heading. */
  lemma DefaultReportIsMarkdown(args: map<string, Value>, stamp: string)
    requires "format_type" !in args
    ensures var r := ReportReply(args, stamp);
      var heading := "# Research Report: " + Display(Get(GenerateReport, args, "topic"));
      |r| >= |heading| && r[..|heading|] == heading
  {
    var heading := "# Research Report: " + Display(Get(GenerateReport, args, "topic"));
    var r := ReportReply(args, stamp);
    assert r == heading + r[|heading|..];
  }

  /** A JSON report reads back as exactly three fields: topic, timestamp and findings, with no summary. */
  lemma JsonReportSpec(args: map<string, Value>, stamp: string)
    requires "format_type" in args && args["format_type"] == Str("json")
    ensures ParseObject(ReportReply(args, stamp))
      == Some([("topic", Get(GenerateReport, args, "topic")), ("timestamp", Str(stamp)), ("findings", Get(GenerateReport, args, "findings"))])
  {
    ObjectRoundTrip(ReportFields(Get(GenerateReport, args, "topic"), Get(GenerateReport, args, "findings"), stamp));
  }

  /** Any other format, inside the advertised choices or not, gives the text report, which ends with the findings. */
  lemma OtherFormatsGiveText(args: map<string, Value>, stamp: string)
    requires "format_type" in args && args["format_type"] != Str("markdown") && args["format_type"] != Str("json")
    ensures var r := ReportReply(args, stamp);
      var heading := "RESEARCH REPORT: " + Display(Get(GenerateReport, args, "topic"));
      var findings := Display(Get(GenerateReport, args, "findings"));
      |r| >= |heading| + |findings| && r[..|heading|] == heading && r[|r| - |findings|..] == findings
  {
    var heading := "RESEARCH REPORT: " + Display(Get(GenerateReport, args, "topic"));
    var findings := Display(Get(GenerateReport, args, "findings"));
    var middle := "\nGenerated: " + stamp + "\n\n";
    var r := ReportReply(args, stamp);
    assert r == heading + middle + findings;
    assert r == heading + (middle + findings);
  }

  // ---------------------------------------------------------------------
  // Listing the log
  // ---------------------------------------------------------------------

  const BadNegation: string := "bad operand type for unary -: 'str'"

  /** The filter step: skipped for a false filter; a number has no `lower`, which only shows if there is an entry to test. */
  function FilterLogs(logs: seq<Entry>, filter: Value): Result<seq<Entry>>
  {
    if !Truthy(filter) then Ok(logs)
    else match filter
      case Int(_) => if logs == [] then Ok([]) else Err(NoLower)
      case Str(s) => Matching(logs, s)
  }

  /** Filter, then `logs[-limit:]`; a string limit cannot be negated. */
  function Selected(logs: seq<Entry>, filter: Value, limit: Value): Result<seq<Entry>>
  {
    match FilterLogs(logs, filter)
    case Err(m) => Err(m)
    case Ok(kept) =>
      match limit
      case Str(_) => Err(BadNegation)
      case Int(n) => Ok(MostRecent(kept, n))
  }

  /** What `handle_get_logs` answers when there is no log file. */
  const NoLogs := "No logs found."
  /** What `handle_get_logs` answers when no entry is selected. */
  const NoMatchingLogs := "No matching logs found."

  /** The reply of `handle_get_logs` for what reading the log file gave. */
  function LogsReply(args: map<string, Value>, stored: Stored): string
  {
    match stored
    case Missing => NoLogs
    case Unreadable(m) => "Error: " + m
    case Present(logs) =>
      match Selected(logs, Get(GetCompetitorLogs, args, "competitor"), Get(GetCompetitorLogs, args, "limit"))
      case Err(m) => "Error: " + m
      case Ok(shown) =>
        if shown == [] then NoMatchingLogs
        else match LogLines(shown)
          case Err(m) => "Error: " + m
          case Ok(lines) => Join(lines, "\n")
  }

  /** `handle_get_logs`: reads the file, selects the entries and renders them in a loop. */
  method HandleGetLogs(log: LogFile, args: map<string, Value>, fault: Fault) returns (reply: string)
    ensures reply == LogsReply(args, log.Read(fault))
  {
    var filter, limit := Get(GetCompetitorLogs, args, "competitor"), Get(GetCompetitorLogs, args, "limit");
    if !log.present {
      return NoLogs;
    }
    if fault.ReadFails? {
      return "Error: " + fault.message;
    }
    var selected := Selected(log.entries, filter, limit);
    if selected.Err? {
      return "Error: " + selected.error;
    }
    if selected.value == [] {
      return NoMatchingLogs;
    }
    var formatted := FormatLogs(selected.value);
    match formatted
    case Err(m) => reply := "Error: " + m;
    case Ok(lines) => reply := Join(lines, "\n");
  }

  /**
   * A non-empty filter and a positive limit select the last `limit` of the
   * entries whose competitor contains the filter, ignoring case, in their
   * logged order.
   */
  lemma SelectedByFilter(logs: seq<Entry>, needle: string, limit: int)
    requires needle != [] && limit > 0
    requires forall i :: 0 <= i < |logs| ==> logs[i].competitor.Str?
    ensures var m := Matching(logs, needle);
      m.Ok? && Selected(logs, Str(needle), Int(limit)).Ok?
      && var r := Selected(logs, Str(needle), Int(limit)).value;
      |r| == (if limit < |m.value| then limit else |m.value|) && r == m.value[|m.value| - |r|..]
      && forall e :: e in r ==> e in logs && Keeps(e, needle)
  {
    MatchingSucceeds(logs, needle);
    var m := Matching(logs, needle).value;
    var r := Selected(logs, Str(needle), Int(limit)).value;
    forall e | e in r ensures e in logs && Keeps(e, needle) {
      MatchingMembers(logs, needle, e);
    }
  }

  /** An empty filter keeps every entry, and a limit of 0 keeps every entry too (`logs[-0:]` is `logs[0:]`). */
  lemma SelectedWithoutFilterOrLimit(logs: seq<Entry>)
    ensures Selected(logs, Str(""), Int(0)) == Ok(logs)
  {
  }

  /** Without arguments the listing shows the last 50 entries, rendered line by line. */
  lemma DefaultListing(all: seq<Entry>)
    requires all != [] && ActivitiesAreStrings(all)
    ensures var shown := MostRecent(all, 50);
      shown != [] && ActivitiesAreStrings(shown) && LogsReply(map[], Present(all)) == Join(LogLines(shown).value, "\n")
  {
    var shown := MostRecent(all, 50);
    assert Selected(all, Get(GetCompetitorLogs, map[], "competitor"), Get(GetCompetitorLogs, map[], "limit")) == Ok(shown);
    forall i | 0 <= i < |shown| ensures shown[i].activity.Str? {
      assert shown[i] == all[|all| - |shown| + i];
    }
  }

  /**
   * Right after a successful tracking call, listing with the default arguments
   * ends with the line of the entry just logged.
   */
  lemma TrackedEntryListedLast(logs: seq<Entry>, e: Entry)
    requires ActivitiesAreStrings(logs) && e.activity.Str?
    ensures var r := LogsReply(map[], Present(logs + [e]));
      |r| >= |LineText(e)| && r[|r| - |LineText(e)|..] == LineText(e)
  {
    var all := logs + [e];
    assert ActivitiesAreStrings(all) by {
      forall i | 0 <= i < |all| ensures all[i].activity.Str? {
        if i < |logs| {
          assert all[i] == logs[i];
        }
      }
    }
    DefaultListing(all);
    var shown := MostRecent(all, 50);
    assert shown[|shown| - 1] == e;
    var lines := LogLines(shown).value;
    assert lines[|lines| - 1] == LineText(e);
    JoinLast(lines, "\n");
  }

  // ---------------------------------------------------------------------
  // A tool call
  // ---------------------------------------------------------------------

  /** What the outside world answers during one call: search, page fetch, clock readings, log file faults. */
  datatype World = World(search: SearchOutcome, page: FetchOutcome, now: string, stamp: string, fault: Fault)

  /** `call_tool`: routes the call by name; an unknown name is answered, never raised. */
  method CallTool(log: LogFile, name: string, args: map<string, Value>, world: World) returns (reply: string)
    requires log.Valid()
    modifies log
    ensures log.Valid()
    ensures Route(name) != Some(TrackCompetitor) ==> log.present == old(log.present) && log.entries == old(log.entries)
    ensures Route(name).None? ==> reply == "Unknown tool: " + name
    ensures Route(name) == Some(WebSearch) ==> reply == SearchReply(world.search)
    ensures Route(name) == Some(FetchUrl) ==> reply == FetchReply(args, world.page)
    ensures Route(name) == Some(GenerateReport) ==> reply == ReportReply(args, world.stamp)
    ensures Route(name) == Some(GetCompetitorLogs) ==> reply == LogsReply(args, old(log.Read(world.fault)))
    ensures Route(name) == Some(TrackCompetitor) ==>
      var err := AppendError(old(log.present), world.fault);
      reply == TrackReply(NewEntry(args, world.now), err)
      && (err.None? ==> log.present && log.entries == old(log.entries) + [NewEntry(args, world.now)])
      && (err.Some? ==> log.present == old(log.present) && log.entries == old(log.entries))
  {
    match Route(name)
    case None =>
      reply := "Unknown tool: " + name;
    case Some(WebSearch) =>
      reply := HandleWebSearch(world.search);
    case Some(FetchUrl) =>
      reply := FetchReply(args, world.page);
    case Some(TrackCompetitor) =>
      reply := HandleTrackCompetitor(log, args, world.now, world.fault);
    case Some(GenerateReport) =>
      reply := ReportReply(args, world.stamp);
    case Some(GetCompetitorLogs) =>
      reply := HandleGetLogs(log, args, world.fault);
  }
}
