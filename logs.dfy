/** The activity-log screen: the type and text filters, and the badge style
    of each log type. */
module Logs {
  import opened Collections
  import opened Text
  import opened Types

  /** The type filter is the string "ALL" or a type tag; the search text is
      matched, ignoring case, against the message or the action. */
  predicate LogMatches(log: LogEntry, filter: string, search: string)
  {
    (filter == "ALL" || log.kind.Name() == filter) &&
    (Contains(Lower(log.message), Lower(search)) || Contains(Lower(log.action), Lower(search)))
  }

  /** The entries shown, in log order. */
  function FilteredLogs(logs: seq<LogEntry>, filter: string, search: string): (r: seq<LogEntry>)
    ensures forall i :: 0 <= i < |r| ==> r[i] in logs && LogMatches(r[i], filter, search)
    ensures forall i :: 0 <= i < |logs| ==> (logs[i] in r <==> LogMatches(logs[i], filter, search))
    ensures Subsequence(r, logs)
    ensures |r| <= |logs|
    ensures filter == "ALL" && search == "" ==> r == logs
    ensures forall x {:trigger multiset(r)[x]} :: multiset(r)[x] == if LogMatches(x, filter, search) then multiset(logs)[x] else 0
  {
    Filter(logs, (log: LogEntry) => LogMatches(log, filter, search))
  }

  /** A type filter that is neither "ALL" nor a type tag hides every entry. */
  lemma UnknownFilterHidesAll(logs: seq<LogEntry>, filter: string, search: string)
    requires filter !in ["ALL", "SUCCESS", "WARNING", "ERROR", "INFO"]
    ensures FilteredLogs(logs, filter, search) == []
  {
  }

  /** Filtering by a type keeps exactly the entries of that type that match
      the search. */
  lemma TypeFilterKeepsThatType(logs: seq<LogEntry>, kind: LogType, search: string)
    ensures forall i :: 0 <= i < |logs| ==>
              (logs[i] in FilteredLogs(logs, kind.Name(), search) <==>
                 logs[i].kind == kind && LogMatches(logs[i], "ALL", search))
  {
    forall i | 0 <= i < |logs|
      ensures logs[i] in FilteredLogs(logs, kind.Name(), search) <==>
                logs[i].kind == kind && LogMatches(logs[i], "ALL", search)
    {
      NameInjective(logs[i].kind, kind);
    }
  }

  lemma NameInjective(a: LogType, b: LogType)
    ensures a.Name() == b.Name() <==> a == b
  {
  }

  const DefaultStyle := "bg-blue-100 text-blue-700 border-blue-200"

  /** The badge classes for a type tag; anything but the three named tags
      gets the blue default. */
  function LogTypeStyles(kind: string): (r: string)
    ensures r == DefaultStyle <==> kind !in ["SUCCESS", "WARNING", "ERROR"]
  {
    match kind
    case "SUCCESS" => "bg-emerald-100 text-emerald-700 border-emerald-200"
    case "WARNING" => "bg-amber-100 text-amber-700 border-amber-200"
    case "ERROR" => "bg-red-100 text-red-700 border-red-200"
    case _ => DefaultStyle
  }

  /** Each of the four log types has its own badge, and only an INFO entry
      shows the default one. */
  lemma EachTypeItsOwnStyle(a: LogType, b: LogType)
    ensures LogTypeStyles(a.Name()) == LogTypeStyles(b.Name()) <==> a == b
    ensures LogTypeStyles(a.Name()) == DefaultStyle <==> a == Info
  {
  }
}
