/**
 * The management dashboard (src/pages/Management.tsx): four tabs over demo gate logs and
 * visitor entries, a search-and-date filter for each kind of table, the IN/OUT status badge,
 * and the names of the exported PDF files.
 */
module Management {
  import opened Wrappers
  import opened Text
  import opened Seqs

  /** A gate log row; `inTime`/`outTime` are the `in`/`out` fields, absent or empty when unset. */
  datatype LogRow = LogRow(id: string, name: Option<string>, year: Option<string>, dept: string,
                           inTime: Option<string>, outTime: Option<string>)

  /** A visitor row. */
  datatype Visitor = Visitor(name: string, mobile: string, reason: string, timestamp: Option<string>)

  /** The sidebar tabs (`all`, `student`, `staff`, `visitors`); the page opens on `all`. */
  datatype Tab = AllTab | StudentTab | StaffTab | VisitorsTab

  const InitialTab: Tab := AllTab

  /** The badge of a log row. */
  datatype Status = StatusIn | StatusOut | NoStatus

  /** `getStatusBadge`: IN while only an entry time is set, OUT once both are, `-` otherwise. */
  function StatusBadge(inTime: Option<string>, outTime: Option<string>): (r: Status)
    ensures r == StatusIn <==> Truthy(inTime) && !Truthy(outTime)
    ensures r == StatusOut <==> Truthy(inTime) && Truthy(outTime)
    ensures r == NoStatus <==> !Truthy(inTime)
  {
    if Truthy(inTime) && !Truthy(outTime) then StatusIn
    else if Truthy(inTime) && Truthy(outTime) then StatusOut
    else NoStatus
  }

  /** The search box and the date picker of one table; the empty string means "no filter". */
  datatype Filters = Filters(search: string, date: string)

  /** "Clear Filters" empties both inputs. */
  function ClearFilters(): (f: Filters)
    ensures f.search == "" && f.date == ""
  {
    Filters("", "")
  }

  /** Row test of `filterLogs`: ID or name contains the search (ignoring case), entry time starts with the date. */
  predicate LogMatches(f: Filters, log: LogRow) {
    && (f.search == "" || IncludesIgnoringCase(log.id, f.search)
        || (Truthy(log.name) && IncludesIgnoringCase(log.name.value, f.search)))
    && (f.date == "" || (Truthy(log.inTime) && StartsWith(log.inTime.value, f.date)))
  }

  function LogTest(f: Filters): LogRow -> bool {
    log => LogMatches(f, log)
  }

  /** `filterLogs`: the rows that pass the filters, in their order and with their multiplicities. */
  function FilterLogs(logs: seq<LogRow>, f: Filters): (r: seq<LogRow>)
    ensures forall x :: x in r <==> x in logs && LogMatches(f, x)
    ensures forall x :: multiset(r)[x] == if LogMatches(f, x) then multiset(logs)[x] else 0
    ensures IsSubsequence(r, logs)
  {
    FilterCharacterized(logs, LogTest(f));
    Filter(logs, LogTest(f))
  }

  /** With both inputs cleared every log row is shown. */
  lemma ClearedLogFiltersShowAll(logs: seq<LogRow>)
    ensures FilterLogs(logs, ClearFilters()) == logs
  {
    FilterKeepsAll(logs, LogTest(ClearFilters()));
  }

  /** Applying the same filters to already filtered rows changes nothing. */
  lemma LogFilterIdempotent(logs: seq<LogRow>, f: Filters)
    ensures FilterLogs(FilterLogs(logs, f), f) == FilterLogs(logs, f)
  {
    FilterIdempotent(logs, LogTest(f));
  }

  /** The two inputs act independently: filtering by both is filtering by the search, then by the date. */
  lemma LogFiltersCompose(logs: seq<LogRow>, f: Filters)
    ensures FilterLogs(logs, f) == FilterLogs(FilterLogs(logs, Filters(f.search, "")), Filters("", f.date))
  {
    FilterConjunction(logs, LogTest(Filters(f.search, "")), LogTest(Filters("", f.date)), LogTest(f));
  }

  /** Row test of `filterVisitors`: name contains the search ignoring case, or mobile contains it as is. */
  predicate VisitorMatches(f: Filters, v: Visitor) {
    && (f.search == "" || IncludesIgnoringCase(v.name, f.search) || Contains(v.mobile, f.search))
    && (f.date == "" || (Truthy(v.timestamp) && StartsWith(v.timestamp.value, f.date)))
  }

  function VisitorTest(f: Filters): Visitor -> bool {
    v => VisitorMatches(f, v)
  }

  /** `filterVisitors`. */
  function FilterVisitors(visitors: seq<Visitor>, f: Filters): (r: seq<Visitor>)
    ensures forall x :: x in r <==> x in visitors && VisitorMatches(f, x)
    ensures forall x :: multiset(r)[x] == if VisitorMatches(f, x) then multiset(visitors)[x] else 0
    ensures IsSubsequence(r, visitors)
  {
    FilterCharacterized(visitors, VisitorTest(f));
    Filter(visitors, VisitorTest(f))
  }

  /** The visitors' "Clear Filters" shows every visitor. */
  lemma ClearedVisitorFiltersShowAll(visitors: seq<Visitor>)
    ensures FilterVisitors(visitors, ClearFilters()) == visitors
  {
    FilterKeepsAll(visitors, VisitorTest(ClearFilters()));
  }

  lemma VisitorFilterIdempotent(visitors: seq<Visitor>, f: Filters)
    ensures FilterVisitors(FilterVisitors(visitors, f), f) == FilterVisitors(visitors, f)
  {
    FilterIdempotent(visitors, VisitorTest(f));
  }

  /** The log rows each tab shows ("Visitors Details" shows none: it renders the visitor table). */
  function ShownLogs(active: Tab, f: Filters, allLogs: seq<LogRow>, studentLogs: seq<LogRow>, staffLogs: seq<LogRow>): (r: seq<LogRow>)
    ensures active == VisitorsTab ==> r == []
    ensures active == AllTab ==> r == FilterLogs(allLogs, f)
    ensures active == StudentTab ==> r == FilterLogs(studentLogs, f)
    ensures active == StaffTab ==> r == FilterLogs(staffLogs, f)
  {
    match active
    case AllTab => FilterLogs(allLogs, f)
    case StudentTab => FilterLogs(studentLogs, f)
    case StaffTab => FilterLogs(staffLogs, f)
    case VisitorsTab => []
  }

  /** The report name used by the logs' "Download as PDF": `StudentLogs`, `StaffLogs`, else `AllLogs`. */
  function LogType(active: Tab): (r: string)
    ensures active == StudentTab <==> r == "StudentLogs"
    ensures active == StaffTab <==> r == "StaffLogs"
    ensures (active == AllTab || active == VisitorsTab) <==> r == "AllLogs"
  {
    match active
    case StudentTab => "StudentLogs"
    case StaffTab => "StaffLogs"
    case AllTab => "AllLogs"
    case VisitorsTab => "AllLogs"
  }

  /** `${prefix}_${dateStr}.pdf` with every `/` of the locale date replaced by `-`. */
  function PdfFileName(prefix: string, localeDate: string): (r: string)
    ensures |r| == |prefix| + 1 + |localeDate| + 4
    ensures r[..|prefix| + 1] == prefix + "_"
    ensures r[|r| - 4..] == ".pdf"
    ensures forall i :: 0 <= i < |localeDate| ==>
              r[|prefix| + 1 + i] == if localeDate[i] == '/' then '-' else localeDate[i]
  {
    prefix + "_" + ReplaceAll(localeDate, '/', '-') + ".pdf"
  }

  /** The file name of a logs download. */
  function LogsPdfName(active: Tab, localeDate: string): string {
    PdfFileName(LogType(active), localeDate)
  }

  /** The file name of a visitors download. */
  function VisitorsPdfName(localeDate: string): string {
    PdfFileName("Visitors", localeDate)
  }

  /** No exported file name contains a `/`, so the date never introduces a path separator. */
  lemma PdfNamesHaveNoSlash(active: Tab, localeDate: string)
    ensures '/' !in LogsPdfName(active, localeDate)
    ensures '/' !in VisitorsPdfName(localeDate)
  {
    NoSlashInFileName(LogType(active), localeDate);
    NoSlashInFileName("Visitors", localeDate);
  }

  lemma NoSlashInFileName(prefix: string, localeDate: string)
    requires '/' !in prefix
    ensures '/' !in PdfFileName(prefix, localeDate)
  {
  }

  /** Two tabs share a download name only when both fall back to `AllLogs`. */
  lemma DistinctTabsDistinctNames(a: Tab, b: Tab, localeDate: string)
    requires LogsPdfName(a, localeDate) == LogsPdfName(b, localeDate)
    ensures a == b || ((a == AllTab || a == VisitorsTab) && (b == AllTab || b == VisitorsTab))
  {
  }
}
