/**
 * The competitor log: the list of entries kept in `competitor_tracking.json`,
 * how a new entry is appended to it, and how the listing tool filters, limits
 * and renders it.  The file is a `LogFile` object whose fields the appending
 * operation updates; reading and writing it can fail, which is an input here.
 */
module CompetitorLog {
  import opened Wrappers
  import opened Text
  import opened Json

  /** One logged activity. The values are whatever the caller passed in. */
  datatype Entry = Entry(timestamp: string, competitor: Value, activity: Value, source: Value)

  /** What goes wrong with the file during one operation, if anything. */
  datatype Fault = NoFault | ReadFails(message: string) | WriteFails(message: string)

  /** What reading the file gives. */
  datatype Stored = Missing | Unreadable(message: string) | Present(logs: seq<Entry>)

  /** The error an append reports: a read fault only bites when there is a file to read. */
  function AppendError(present: bool, fault: Fault): Option<string>
  {
    match fault
    case NoFault => None
    case ReadFails(m) => if present then Some(m) else None
    case WriteFails(m) => Some(m)
  }

  /** The log file `competitor_tracking.json`: whether it exists, and the entries it holds. */
  class LogFile {
    var present: bool
    var entries: seq<Entry>

    /** A file that does not exist holds nothing. */
    ghost predicate Valid()
      reads this
    {
      present || entries == []
    }

    constructor (present: bool, entries: seq<Entry>)
      requires present || entries == []
      ensures Valid()
      ensures this.present == present && this.entries == entries
    {
      this.present := present;
      this.entries := entries;
    }

    /** What `json.load` of the file gives, `os.path.exists` having been asked first. */
    function Read(fault: Fault): (r: Stored)
      reads this
    {
      if !present then Missing
      else if fault.ReadFails? then Unreadable(fault.message)
      else Present(entries)
    }

    /**
     * Load the list (a missing file is `[]`), append `e`, write the list back.
     * On success the file holds the old entries followed by `e`; on a failure
     * nothing changes.
     */
    method Append(e: Entry, fault: Fault) returns (error: Option<string>)
      requires Valid()
      modifies this
      ensures Valid()
      ensures error == AppendError(old(present), fault)
      ensures error.None? ==> present && entries == old(entries) + [e]
      ensures error.Some? ==> present == old(present) && entries == old(entries)
    {
      error := None;
      var logs: seq<Entry> := [];
      if present {
        if fault.ReadFails? {
          return Some(fault.message);
        }
        logs := entries;
      }
      logs := logs + [e];
      if fault.WriteFails? {
        return Some(fault.message);
      }
      present, entries := true, logs;
    }
  }

  // ---------------------------------------------------------------------
  // Filtering by competitor
  // ---------------------------------------------------------------------

  const NoLower: string := "'int' object has no attribute 'lower'"

  /** An entry the filter keeps: its competitor contains the needle, ignoring case. */
  predicate Keeps(e: Entry, needle: string)
  {
    e.competitor.Str? && Contains(Lower(e.competitor.s), Lower(needle))
  }

  /** One step of the filter: test `e`, then put it in front of what the rest of the list gives. */
  function MatchStep(e: Entry, needle: string, rest: Result<seq<Entry>>): Result<seq<Entry>>
  {
    match e.competitor
    case Int(_) => Err(NoLower)
    case Str(c) =>
      match rest
      case Err(m) => Err(m)
      case Ok(kept) => Ok(if Contains(Lower(c), Lower(needle)) then [e] + kept else kept)
  }

  /**
   * `[l for l in logs if needle.lower() in l["competitor"].lower()]`: a
   * competitor that is not a string has no `lower` and raises.
   */
  function Matching(entries: seq<Entry>, needle: string): (r: Result<seq<Entry>>)
    ensures r.Err? ==> r.error == NoLower
    ensures r.Ok? ==> |r.value| <= |entries|
    decreases |entries|
  {
    if entries == [] then Ok([]) else MatchStep(entries[0], needle, Matching(entries[1..], needle))
  }

  lemma MatchStepAppend(e: Entry, needle: string, xs: seq<Entry>, ys: seq<Entry>)
    requires MatchStep(e, needle, Ok(xs)).Ok?
    ensures MatchStep(e, needle, Ok(xs + ys)) == Ok(MatchStep(e, needle, Ok(xs)).value + ys)
  {
    if Keeps(e, needle) {
      assert [e] + (xs + ys) == ([e] + xs) + ys;
    }
  }

  /** The filter succeeds exactly when every competitor is a string. */
  lemma {:induction false} MatchingSucceeds(entries: seq<Entry>, needle: string)
    ensures Matching(entries, needle).Ok? <==> forall i :: 0 <= i < |entries| ==> entries[i].competitor.Str?
    decreases |entries|
  {
    if entries != [] {
      MatchingSucceeds(entries[1..], needle);
      if entries[0].competitor.Str? && (forall i :: 0 <= i < |entries| - 1 ==> entries[1..][i].competitor.Str?) {
        forall i | 0 <= i < |entries| ensures entries[i].competitor.Str? {
          if i > 0 {
            assert entries[i] == entries[1..][i - 1];
          }
        }
      }
    }
  }

  /** The filter keeps exactly the entries that match, and nothing else. */
  lemma {:induction false} MatchingMembers(entries: seq<Entry>, needle: string, e: Entry)
    requires Matching(entries, needle).Ok?
    ensures e in Matching(entries, needle).value <==> e in entries && Keeps(e, needle)
    decreases |entries|
  {
    if entries != [] {
      MatchingMembers(entries[1..], needle, e);
      assert entries == [entries[0]] + entries[1..];
    }
  }

  /** The filter works entry by entry, so the kept entries stay in their original order. */
  lemma {:induction false} MatchingAppend(a: seq<Entry>, b: seq<Entry>, needle: string)
    requires Matching(a, needle).Ok? && Matching(b, needle).Ok?
    ensures Matching(a + b, needle) == Ok(Matching(a, needle).value + Matching(b, needle).value)
    decreases |a|
  {
    if a == [] {
      assert a + b == b;
      assert Matching(a, needle).value + Matching(b, needle).value == Matching(b, needle).value;
    } else {
      assert (a + b)[0] == a[0] && (a + b)[1..] == a[1..] + b;
      assert Matching(a[1..], needle).Ok?;
      MatchingAppend(a[1..], b, needle);
      MatchStepAppend(a[0], needle, Matching(a[1..], needle).value, Matching(b, needle).value);
    }
  }

  /** One entry is kept exactly when it matches. */
  lemma MatchingSingle(e: Entry, needle: string)
    requires e.competitor.Str?
    ensures Matching([e], needle) == Ok(if Keeps(e, needle) then [e] else [])
  {
    assert [e][0] == e && [e][1..] == [];
    assert [e] + [] == [e];
  }

  /** Every string contains the empty string, so an empty needle would keep every entry. */
  lemma {:induction false} MatchingEmptyNeedle(entries: seq<Entry>)
    requires forall i :: 0 <= i < |entries| ==> entries[i].competitor.Str?
    ensures Matching(entries, "") == Ok(entries)
    decreases |entries|
  {
    if entries != [] {
      MatchingEmptyNeedle(entries[1..]);
      assert Lower("") == [];
      assert [] <= Lower(entries[0].competitor.s);
      assert [entries[0]] + entries[1..] == entries;
    }
  }

  // ---------------------------------------------------------------------
  // Keeping the most recent entries
  // ---------------------------------------------------------------------

  /**
   * `logs[-limit:]`: the last `limit` entries for a positive limit; a limit of
   * zero slices from index zero and so keeps everything; a negative limit drops
   * that many entries from the front.
   */
  function MostRecent<T>(logs: seq<T>, limit: int): (r: seq<T>)
    ensures limit > 0 ==> |r| == (if limit < |logs| then limit else |logs|) && r == logs[|logs| - |r|..]
    ensures limit == 0 ==> r == logs
    ensures limit < 0 ==> r == logs[(if -limit < |logs| then -limit else |logs|)..]
  {
    SliceFrom(logs, -limit)
  }

  // ---------------------------------------------------------------------
  // Rendering
  // ---------------------------------------------------------------------

  const NotSubscriptable: string := "'int' object is not subscriptable"

  /** `f"[{timestamp[:10]}] {competitor}: {activity[:80]}..."` for an entry whose activity is a string. */
  function LineText(e: Entry): string
    requires e.activity.Str?
  {
    "[" + Prefix(e.timestamp, 10) + "] " + Display(e.competitor) + ": " + Prefix(e.activity.s, 80) + "..."
  }

  predicate ActivitiesAreStrings(logs: seq<Entry>)
  {
    forall i :: 0 <= i < |logs| ==> logs[i].activity.Str?
  }

  /** One line per entry, in order; an activity that is not a string cannot be sliced and raises. */
  function LogLines(logs: seq<Entry>): Result<seq<string>>
  {
    if ActivitiesAreStrings(logs) then Ok(seq(|logs|, i requires 0 <= i < |logs| && logs[i].activity.Str? => LineText(logs[i])))
    else Err(NotSubscriptable)
  }

  /** The formatting loop of the listing tool: it stops at the first entry it cannot render. */
  method FormatLogs(logs: seq<Entry>) returns (r: Result<seq<string>>)
    ensures r == LogLines(logs)
  {
    var formatted: seq<string> := [];
    var i := 0;
    while i < |logs|
      invariant 0 <= i <= |logs|
      invariant forall j :: 0 <= j < i ==> logs[j].activity.Str?
      invariant |formatted| == i
      invariant forall j :: 0 <= j < i ==> formatted[j] == LineText(logs[j])
    {
      if logs[i].activity.Int? {
        return Err(NotSubscriptable);
      }
      formatted := formatted + [LineText(logs[i])];
      i := i + 1;
    }
    assert ActivitiesAreStrings(logs);
    assert formatted == seq(|logs|, i requires 0 <= i < |logs| && logs[i].activity.Str? => LineText(logs[i]));
    return Ok(formatted);
  }

  /** What a rendered line shows: the date part of the timestamp in brackets, and a closing ellipsis. */
  lemma LineShape(e: Entry)
    requires e.activity.Str?
    ensures LineText(e)[..|Prefix(e.timestamp, 10)| + 3] == "[" + Prefix(e.timestamp, 10) + "] "
    ensures |LineText(e)| >= 3 && LineText(e)[|LineText(e)| - 3..] == "..."
    ensures |LineText(e)| <= 10 + |Display(e.competitor)| + 80 + 8
  {
    var head := "[" + Prefix(e.timestamp, 10) + "] ";
    var t := LineText(e);
    assert t == head + (Display(e.competitor) + ": " + Prefix(e.activity.s, 80) + "...");
  }
}
