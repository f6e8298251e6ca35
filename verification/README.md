# Research assistant: a verified model of its tools

The research assistant is a Coral Protocol agent written in Python. It comes in
two front ends that share a set of research tools:

- `research_agent.py` is a LangChain agent. Its native tools are web search,
  page fetch, competitor tracking, report generation and paper summary. It
  connects to a Coral server with a bounded retry, and it keeps a bounded chat
  history in an interactive loop.
- `research_mcp_server.py` is an MCP server. It advertises five tools, routes
  each call by name to a handler, and turns every exception into a text reply.

This project models the deterministic part of both files. That covers:

- the string templates and truncations of every tool reply;
- the report file name;
- the competitor log: an append-only JSON list stored in
  `competitor_tracking.json`, together with its filter, limit and rendering;
- the tool catalog and the dispatch;
- the Coral address built from the environment;
- the connection retry that assembles the tool list;
- the chat loop with its exit words and its twenty-message history.

The network, the clock, the search engine, the HTML parser, the language model
and the file system's failures are inputs. Examples: a `SearchOutcome`, a
`FetchOutcome`, timestamp strings, a `Fault`, a function from attempt number
to `Attempt`, and a sequence of `Turn`s.

Modules, one per file:

- `Text`: Python string operations the tools use. These are slicing, `lower`
  for ASCII letters, `replace`, `split`/`join`, `strip` with Python's full
  whitespace set, `str()` of integers, and `in`.
- `Json`: what `json.dumps` writes for strings, integers and flat objects with
  `indent=2`. Strings follow `ensure_ascii`: short escapes, `\uXXXX`, and
  surrogate pairs above U+FFFF. The module also has a reader for exactly that
  layout, so that "the JSON report has these keys" can be stated as a round
  trip.
- `CompetitorLog`: the log file as a class (`LogFile`) whose fields the append
  updates. It also holds the case-insensitive competitor filter, the
  `logs[-limit:]` slice, and the line-per-entry rendering loop.
- `Web`: the numbered listing of search hits (the two layouts) and the cleaning
  of fetched page text (strip lines, drop blank ones, keep the first N, cut to
  M characters).
- `ResearchAgent` and `ResearchMcpServer`: the two front ends.

Values the server reads from its `arguments` dictionary are `Json.Value`, a
string or an integer. The model therefore keeps the exact error texts Python
produces when an integer arrives where a string is used, and the reverse. The
server catches these errors and returns them as text.

Three behaviours of the code worth knowing:

- A text report is saved with the extension `text`, the format name verbatim,
  not `.txt`. Any format other than `markdown` is used verbatim as the
  extension, including `md`, which gives `md` like markdown does.
- A listing limit of `0` returns every entry, because `logs[-0:]` is
  `logs[0:]`. A negative limit drops that many entries from the front.
- The report slug only replaces spaces with underscores and lower-cases. No
  other character is removed.

## Model

| member | source | states |
|---|---|---|
| Text.Prefix | research_agent.py:174 | `s[:n]` is a prefix of `s` of length `min(n, len(s))` |
| Text.SliceFrom | research_mcp_server.py:309 | `s[k:]`: from index `k` when `k >= 0`; from `len(s) + k` when `k < 0`; clamped to the ends of `s` |
| Text.Lower | research_mcp_server.py:307 | lower-casing keeps the length and lowers each character where it stands |
| Text.ReplaceCharPointwise | research_agent.py:201 | replacing one character by another keeps the length and changes exactly the replaced positions |
| Text.ReplaceRemoves | research_agent.py:259 | after `replace(' ', '%20')` no space is left, since the replacement holds none |
| Text.Split | research_agent.py:98 | `split('\n')` gives at least one part, and no part holds the separator |
| Text.SplitNoSeparator | research_agent.py:98 | a text without the separator splits into itself alone |
| Text.SplitAtSeparator | research_agent.py:98 | a separator ends the first part, and the rest splits on its own |
| Text.SplitJoin | research_agent.py:99 | joining parts that hold no separator, then splitting, gives the parts back |
| Text.JoinSplit | research_mcp_server.py:201 | splitting loses nothing: joining the parts gives the text back |
| Text.JoinLast | research_mcp_server.py:318 | a joined text ends with its last part |
| Text.StripStart | research_agent.py:400 | `lstrip` removes a run of leading whitespace and leaves a text that does not start with whitespace |
| Text.StripEnd | research_agent.py:400 | `rstrip` removes a run of trailing whitespace and leaves a text that does not end with whitespace |
| Text.StripSpec | research_agent.py:98 | `strip` keeps a contiguous piece of the text with no whitespace at either end, and only whitespace comes before and after it; that piece is empty exactly when the text is all whitespace |
| Text.StripAround | research_agent.py:98 | the stripped text starts where the leading whitespace ends, and only whitespace follows it |
| Text.StripStripped | research_agent.py:98 | a text with no whitespace at its ends is its own strip |
| Text.StripIdempotent | research_mcp_server.py:201 | stripping twice is stripping once |
| Text.StripKeepsCharacters | research_agent.py:98 | every character of the stripped text occurs in the original |
| Text.NatToDecimal | research_agent.py:56 | `str(n)` is at least one decimal digit, with no leading zero except for 0 itself |
| Text.DecimalRoundTrip | research_agent.py:56 | reading the digits of `str(n)` gives `n` back |
| Text.NatToDecimalInjective | research_mcp_server.py:171 | different numbers are written differently |
| Text.ContainsOccurrence | research_mcp_server.py:307 | `needle in hay` holds exactly when the needle occurs at some offset of the hay |
| Json.Surrogates | research_mcp_server.py:277-281 | a character above U+FFFF is written as a high and a low surrogate that combine back to it |
| Json.QuoteIsAscii | research_mcp_server.py:277-281 | with `ensure_ascii`, everything written inside a JSON string is printable ASCII |
| Json.Hex4RoundTrip | research_mcp_server.py:277-281 | the four hex digits of a `\uXXXX` escape read back as the number written |
| Json.EscapeCharRoundTrip | research_mcp_server.py:277-281 | every character's escape reads back as that character, whatever follows |
| Json.QuoteRoundTrip | research_mcp_server.py:277-281 | a JSON string literal reads back as the original text, whatever follows it |
| Json.EncodeRoundTrip | research_mcp_server.py:277-281 | a string or integer value reads back as itself, when no digit follows it |
| Json.MembersRoundTrip | research_agent.py:186-191 | the `"key": value` lines of an object read back as the key-value pairs, in order |
| Json.ObjectRoundTrip | research_agent.py:186-191 | `json.dumps(dict, indent=2)` reads back as exactly its pairs, in insertion order |
| CompetitorLog.LogFile.constructor | research_agent.py:132-136 | a log file exists or not; a missing one holds no entries |
| CompetitorLog.LogFile.Append | research_agent.py:131-141 | on success the file exists and holds the old entries followed by the new one; a read failure (only when the file exists) or a write failure is reported, and the file is left unchanged |
| CompetitorLog.Matching | research_mcp_server.py:307 | the filter keeps no more entries than it is given; its only failure is an integer competitor, which has no `lower` |
| CompetitorLog.MatchingSucceeds | research_mcp_server.py:307 | the filter succeeds exactly when every competitor is a string |
| CompetitorLog.MatchingMembers | research_mcp_server.py:307 | an entry is kept exactly when it is in the log and its competitor contains the filter, ignoring case |
| CompetitorLog.MatchingAppend | research_mcp_server.py:307 | filtering works entry by entry: filtering a concatenation concatenates the results, so order is kept |
| CompetitorLog.MatchingSingle | research_mcp_server.py:307 | a single entry is kept exactly when it matches |
| CompetitorLog.MatchingEmptyNeedle | research_mcp_server.py:307 | an empty needle would keep every entry |
| CompetitorLog.MostRecent | research_mcp_server.py:309 | `logs[-limit:]`: the last `min(limit, n)` entries for a positive limit; everything for 0; the list without its first `-limit` entries for a negative limit |
| CompetitorLog.FormatLogs | research_mcp_server.py:314-316 | the rendering loop gives one line per entry, in order, or fails with Python's message once an activity is not a string |
| CompetitorLog.LineShape | research_mcp_server.py:316 | a line starts with the first ten characters of the timestamp in brackets, ends with `...`, and quotes at most 80 characters of the activity |
| Web.HitBlocks | research_agent.py:55-57 | one block per hit |
| Web.FormatHits | research_mcp_server.py:169-171 | the `enumerate(results, 1)` loop builds, for each hit in order, the block numbered by its position from 1 |
| Web.HitBlockShape | research_mcp_server.py:171 | a block starts with its number and a dot, ends with `...`, and quotes a prefix of the body no longer than the layout's limit (200 for the agent, 300 for the server) |
| Web.HitBlocksNumbered | research_agent.py:56-57 | the hit at position `i` is listed under the number `i + 1` |
| Web.KeptLines | research_agent.py:98 | keeps no more lines than it is given; every kept line is non-blank and already stripped |
| Web.KeptLinesNoBreak | research_mcp_server.py:201 | lines that hold no line break still hold none after cleaning |
| Web.KeptLinesSingle | research_agent.py:98 | a single line is kept, stripped, exactly when it is not blank after stripping |
| Web.KeptLinesAppend | research_mcp_server.py:201 | lines are cleaned one by one and in order: cleaning `a + b` gives the cleaned `a` followed by the cleaned `b` |
| Web.KeptLinesOfClean | research_mcp_server.py:201 | lines that are already clean are all kept, unchanged |
| Web.CleanLinesClean | research_mcp_server.py:201 | every cleaned line is non-blank, stripped, and free of line breaks |
| Web.JoinedLinesSplit | research_mcp_server.py:203 | the first cleaned lines joined with `\n` split back into exactly those lines |
| Web.CleanLinesOfEmpty | research_mcp_server.py:201 | empty text cleans to no lines |
| Web.CleanLinesOfJoined | research_mcp_server.py:201-203 | clean lines joined with `\n` clean back to themselves |
| Web.CleanLinesIdempotent | research_agent.py:98-99 | cleaning a cleaned text changes nothing |
| Web.FetchedTextSpec | research_agent.py:98-101 | the reply is the header naming the URL, then at most `maxChars` characters from the start of the first `maxLines` cleaned lines joined; when nothing was cut they split back into those lines |
| ResearchAgent.WebSearch | research_agent.py:45-64 | the reply is the install hint when the library is missing, `Search error:` plus the message on failure, a fixed text for no hits, and otherwise the numbered blocks joined by blank lines |
| ResearchAgent.FetchReplySpec | research_agent.py:78-101 | a page is shown under `Content from {url}:` as at most 5000 characters of its first 100 cleaned lines, which are non-blank, stripped and unbroken, and come back whole when not cut |
| ResearchAgent.TrackCompetitor | research_agent.py:107-146 | on success the log holds the old entries plus one entry stamped with the clock, and the reply confirms; on a file error the log is unchanged and the reply names the error |
| ResearchAgent.TrackReplyShape | research_agent.py:143 | the confirmation quotes the competitor whole and at most the first 50 characters of the activity, then `...` |
| ResearchAgent.Summary | research_agent.py:174 | the summary is a prefix of the findings, of length `min(500, len(findings))` |
| ResearchAgent.ReportFileNameSpec | research_agent.py:201 | the name is `report_`, then the topic character by character with spaces as `_` and lower-cased, then `_{stamp}.{ext}`; nothing else of the topic changes |
| ResearchAgent.SlugHasNoSpace | research_agent.py:201 | the slug holds no space |
| ResearchAgent.ExtensionSpec | research_agent.py:201 | the extension is `md` exactly for `markdown` or `md`, and differs from the format name only for `markdown` |
| ResearchAgent.MarkdownReportSpec | research_agent.py:164-183 | a markdown report opens with `# Research Report: {topic}` and holds the summary and, after it, the full findings unchanged |
| ResearchAgent.JsonReportSpec | research_agent.py:185-191 | a JSON report reads back as exactly `topic`, `timestamp`, `summary`, `findings` with their values, in that order |
| ResearchAgent.TextReportSpec | research_agent.py:193-198 | any other format gives a report that opens with `RESEARCH REPORT: {topic}` and ends with the findings and a newline |
| ResearchAgent.GenerateReportSpec | research_agent.py:200-208 | saved or not, the reply ends with at most the first 1000 characters of the report and `...`; the file is written, with the whole report under the report file name, exactly when the write succeeds |
| ResearchAgent.SummarizePaperReadsPrefix | research_agent.py:225-231 | only the first 200 characters of the paper affect the summary text |
| ResearchAgent.DescriptionLines | research_agent.py:240-242 | one description line per tool |
| ResearchAgent.ToolsDescription | research_agent.py:238-243 | the loop produces the `- name: description` lines of the tools, in order, joined by newlines |
| ResearchAgent.DescriptionLinesAppend | research_agent.py:302 | the description of native plus remote tools is the native lines followed by the remote lines |
| ResearchAgent.DescriptionSplit | research_agent.py:243 | for single-line names and descriptions the text splits back into one line per tool |
| ResearchAgent.DecodeEncode | research_agent.py:259 | the `%20` encoding of a description without `%` decodes back to the description |
| ResearchAgent.WithAgentQuerySpec | research_agent.py:257-259 | the address is the configured URL, then `&` if it already holds `?` and `?` otherwise, then the agent id as given, then the description with every space as `%20` and no space left; a description without `%` decodes back to itself |
| ResearchAgent.DecodeAmbiguousWithPercent | research_agent.py:259 | a description that already holds `%20` does not decode back to itself, so the encoding is reversible only without `%` |
| ResearchAgent.CoralUrlStandalone | research_agent.py:252-257 | without `CORAL_SSE_URL`, or with it empty, there is no address |
| ResearchAgent.FirstLoaded | research_agent.py:287-305 | the first attempt within the budget of five that loads the tools, with every earlier one failing; or none when all five fail |
| ResearchAgent.LastClient | research_agent.py:289-298 | the last attempt that got as far as making a client, with every later one failing to make one |
| ResearchAgent.Connect | research_agent.py:277-314 | no address means no attempt and the native tools; otherwise attempts run up to the first success, at most five; the tools are native then remote on success and native only otherwise; five seconds of sleep separate attempts, none after the last |
| ResearchAgent.KeepRecent | research_agent.py:422-423 | a history over 20 messages is cut to its newest 20; otherwise it is kept as it is |
| ResearchAgent.ChatLoop | research_agent.py:398-431 | the loop stops at the first line that strips and lower-cases to `exit`, `quit` or `q`, and at no earlier line; the history is the replay of the turns before it |
| ResearchAgent.Remember | research_agent.py:418-423 | the history gets the question and the answer appended, then is cut back to 20 messages |
| ResearchAgent.PairedGrow | research_agent.py:418-419 | adding a question and its answer keeps the history in question-answer pairs |
| ResearchAgent.PairedKeepRecent | research_agent.py:422-423 | cutting to 20 messages never splits a pair |
| ResearchAgent.ReplayBounded | research_agent.py:418-423 | at any point the history holds at most 20 messages, alternating question and answer |
| ResearchAgent.ReplayKeepsNewest | research_agent.py:418-419 | after an answered turn, its stripped question and the answer are the two newest messages |
| ResearchMcpServer.CatalogMatchesRoute | research_mcp_server.py:27-152 | five tools with distinct names are advertised; each routes to the handler of that name, and no other name routes anywhere |
| ResearchMcpServer.AdvertisedDefaultsAreUsed | research_mcp_server.py:41-125 | every default the schemas advertise is the value the handler falls back to |
| ResearchMcpServer.HandleWebSearch | research_mcp_server.py:155-176 | the reply is `Search error:` plus the message on any failure (including the missing library), a fixed text for no hits, and otherwise the numbered blocks joined by blank lines |
| ResearchMcpServer.FetchReplySpec | research_mcp_server.py:179-208 | a page is shown under `Content from {url}:` as at most 8000 characters of its first 150 cleaned lines, which are non-blank, stripped and unbroken, and come back whole when not cut |
| ResearchMcpServer.HandleTrackCompetitor | research_mcp_server.py:214-247 | on success the log holds the old entries plus one, with missing arguments read as defaults; a file error leaves the log unchanged; a non-string activity is written and then reported as an error |
| ResearchMcpServer.NewEntryDefaults | research_mcp_server.py:217-226 | a call without arguments logs empty strings for competitor, activity and source |
| ResearchMcpServer.DefaultReportIsMarkdown | research_mcp_server.py:253-274 | without a format the report is markdown and opens with `# Research Report: {topic}` |
| ResearchMcpServer.JsonReportSpec | research_mcp_server.py:276-281 | a JSON report reads back as exactly `topic`, `timestamp`, `findings`, in that order, with no summary |
| ResearchMcpServer.OtherFormatsGiveText | research_mcp_server.py:283-284 | every other format, advertised or not, gives the text report that opens with `RESEARCH REPORT: {topic}` and ends with the findings |
| ResearchMcpServer.HandleGetLogs | research_mcp_server.py:292-321 | a missing file gives `No logs found.`; a read failure or a bad filter or limit gives the error; an empty selection gives `No matching logs found.`; otherwise one rendered line per selected entry |
| ResearchMcpServer.SelectedByFilter | research_mcp_server.py:306-309 | a non-empty filter and positive limit select the last `limit` of the entries whose competitor contains the filter ignoring case, in logged order, and nothing else |
| ResearchMcpServer.SelectedWithoutFilterOrLimit | research_mcp_server.py:306-309 | an empty filter with limit 0 selects every entry |
| ResearchMcpServer.DefaultListing | research_mcp_server.py:295-318 | without arguments the listing renders the last 50 entries, one line each |
| ResearchMcpServer.TrackedEntryListedLast | research_mcp_server.py:236-318 | right after an entry is appended, the default listing ends with that entry's line |
| ResearchMcpServer.CallTool | research_mcp_server.py:132-152 | each of the five names reaches its handler and any other name gives `Unknown tool: {name}`; only tracking changes the log file |

## Left out

- The language model, the prompt, `create_tool_calling_agent` and `AgentExecutor`: these are foreign library calls. An agent answer is an input of each `Turn`.
- The DuckDuckGo search, `requests.get` with its headers and timeout, and BeautifulSoup's tag removal and text extraction: foreign calls. Their results are `SearchOutcome` and `FetchOutcome`. The extracted text is an input, and only what the tools do with it is modelled. `num_results` is passed to the search library, so the number of hits is part of the input.
- The MCP `Server` object, its decorators, the stdio transport, `asyncio`, and the `TextContent` wrapper: plumbing. A reply is the text the wrapper would carry.
- `MultiServerMCPClient`, its timeouts and `asyncio.sleep`: replaced by a function from attempt number to `Attempt` and a count of seconds slept.
- Console I/O in `main`: `input` and `print`, including the connection messages and the `coral_client` clean-up at exit. The session ends when the turns run out, or at an exit word. End of input raises `EOFError`, which the loop catches and then retries forever; that is not modelled. Neither is `KeyboardInterrupt`.
- `os.path.exists`, `open`, `json.load` and `json.dump` of the log file: the file is the `LogFile` object, and failures are a `Fault`. The log file is taken to hold a list of entries written by these tools. A file edited by hand into another shape, a partial write, and the on-disk JSON text of the log are not modelled.
- Two processes appending to the log file at once can lose an update. This is a concurrency matter and is not modelled.
- `datetime.now()`: each clock reading is a string parameter already formatted as the source formats it (`isoformat()`, `%Y-%m-%d %H:%M`, `%Y%m%d_%H%M`).
- `Text.Lower` lower-cases only the letters A to Z; Python's `str.lower` also folds other alphabets and can change the length (`İ`, U+0130, becomes two characters), so "keeps the length" here and the length `7 + |topic| + |tail|` in `ResearchAgent.ReportFileNameSpec` hold for the model only.
- `Json.Value` has strings and integers only. Arguments that are JSON floats, booleans, lists, objects or null are not modelled. Neither is the JSON text of values other than strings, integers and flat objects of them.
- Tool descriptions come from the tool functions' docstrings, and remote tools from the server. Both are inputs (`ToolInfo`); the docstring texts are not modelled.
- `test_tools.py` calls the live tools and prints their output, with no checks. It is not part of this model.
