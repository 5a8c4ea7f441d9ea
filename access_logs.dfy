/**
 * The access-log page (src/pages/AccessLogs.tsx): a search over the recorded gate events and
 * three counters shown above the table — granted entries, denied attempts, and the number of
 * events whose user's last granted event (in array order) is an entry.
 */
module AccessLogs {
  import opened Wrappers
  import opened Text
  import opened Seqs

  datatype Direction = In | Out
  datatype AccessStatus = Granted | Denied

  /** One recorded gate event. */
  datatype AccessLog = AccessLog(id: string, name: string, userId: string, department: string,
                                 role: string, direction: Direction, timestamp: string,
                                 status: AccessStatus, confidence: real)

  /** Row test of `filteredLogs`: name, user id or department contains the term, ignoring case. */
  predicate SearchMatches(term: string, log: AccessLog) {
    || IncludesIgnoringCase(log.name, term)
    || IncludesIgnoringCase(log.userId, term)
    || IncludesIgnoringCase(log.department, term)
  }

  function SearchTest(term: string): AccessLog -> bool {
    log => SearchMatches(term, log)
  }

  /** `filteredLogs`. */
  function FilteredLogs(logs: seq<AccessLog>, term: string): (r: seq<AccessLog>)
    ensures forall x :: x in r <==> x in logs && SearchMatches(term, x)
    ensures forall x :: multiset(r)[x] == if SearchMatches(term, x) then multiset(logs)[x] else 0
    ensures IsSubsequence(r, logs)
  {
    FilterCharacterized(logs, SearchTest(term));
    Filter(logs, SearchTest(term))
  }

  /** The initial empty search term shows every event. */
  lemma EmptySearchShowsAll(logs: seq<AccessLog>)
    ensures FilteredLogs(logs, "") == logs
  {
    forall i | 0 <= i < |logs|
      ensures SearchTest("")(logs[i])
    {
      EmptyTermMatchesEverything(logs[i].name);
    }
    FilterKeepsAll(logs, SearchTest(""));
  }

  predicate IsGrantedEntry(log: AccessLog) {
    log.direction == In && log.status == Granted
  }

  predicate IsDenied(log: AccessLog) {
    log.status == Denied
  }

  /** `todayEntries`: the number of granted entries. */
  function TodayEntries(logs: seq<AccessLog>): (n: nat)
    ensures n <= |logs|
    ensures n == 0 <==> forall i :: 0 <= i < |logs| ==> !IsGrantedEntry(logs[i])
  {
    FilterEmptyIff(logs, IsGrantedEntry);
    |Filter(logs, IsGrantedEntry)|
  }

  /** `deniedAttempts`: the number of denied events. */
  function DeniedAttempts(logs: seq<AccessLog>): (n: nat)
    ensures n <= |logs|
    ensures n == 0 <==> forall i :: 0 <= i < |logs| ==> !IsDenied(logs[i])
  {
    FilterEmptyIff(logs, IsDenied);
    |Filter(logs, IsDenied)|
  }

  /** A denied attempt is never a granted entry, so the two counters never exceed the log together. */
  lemma EntriesAndDeniedBounded(logs: seq<AccessLog>)
    ensures TodayEntries(logs) + DeniedAttempts(logs) <= |logs|
  {
    DisjointFiltersBounded(logs, IsGrantedEntry, IsDenied);
  }

  function GrantedFor(userId: string): AccessLog -> bool {
    (l: AccessLog) => l.userId == userId && l.status == Granted
  }

  /** `lastEntry`: the last granted event of a user in array order, if there is one. */
  function LastGranted(logs: seq<AccessLog>, userId: string): (r: Option<AccessLog>)
    ensures r.None? <==> forall i :: 0 <= i < |logs| ==> !(logs[i].userId == userId && logs[i].status == Granted)
    ensures r.Some? ==> exists i :: && 0 <= i < |logs| && logs[i] == r.value
                                   && r.value.userId == userId && r.value.status == Granted
                                   && forall j :: i < j < |logs| ==> !(logs[j].userId == userId && logs[j].status == Granted)
  {
    var own := Filter(logs, GrantedFor(userId));
    FilterEmptyIff(logs, GrantedFor(userId));
    if own == [] then None
    else
      FilterLast(logs, GrantedFor(userId));
      Some(own[|own| - 1])
  }

  /** The test inside `currentlyInside`: the event's user last passed the gate inwards. */
  predicate UserInside(logs: seq<AccessLog>, userId: string) {
    var last := LastGranted(logs, userId);
    last.Some? && last.value.direction == In
  }

  function InsideTest(logs: seq<AccessLog>): AccessLog -> bool {
    (log: AccessLog) => UserInside(logs, log.userId)
  }

  /**
   * `currentlyInside`: the number of events (not of distinct users) whose user is inside.
   * It never exceeds the number of events, and it is zero exactly when nobody's last granted
   * event is an entry.
   */
  function CurrentlyInside(logs: seq<AccessLog>): (n: nat)
    ensures n <= |logs|
    ensures n == 0 <==> forall i :: 0 <= i < |logs| ==> !UserInside(logs, logs[i].userId)
  {
    FilterEmptyIff(logs, InsideTest(logs));
    |Filter(logs, InsideTest(logs))|
  }

  /** A user with no granted event, such as the unrecognised person, never counts as inside. */
  lemma NoGrantedEventNotInside(logs: seq<AccessLog>, userId: string)
    requires forall i :: 0 <= i < |logs| ==> logs[i].userId != userId || logs[i].status == Denied
    ensures !UserInside(logs, userId)
  {
  }

  /** Every event of an inside user is counted, so one user entering twice counts twice. */
  lemma CountsEventsNotUsers(logs: seq<AccessLog>)
    requires forall i :: 0 <= i < |logs| ==> UserInside(logs, logs[i].userId)
    ensures CurrentlyInside(logs) == |logs|
  {
    FilterKeepsAll(logs, InsideTest(logs));
  }

  /** Appending a granted exit for a user takes that user out. */
  lemma GrantedExitTakesUserOut(logs: seq<AccessLog>, exit: AccessLog)
    requires exit.direction == Out && exit.status == Granted
    ensures !UserInside(logs + [exit], exit.userId)
  {
    var all := logs + [exit];
    assert all[|all| - 1] == exit;
    var last := LastGranted(all, exit.userId);
    var i :| 0 <= i < |all| && all[i] == last.value && last.value.userId == exit.userId
             && last.value.status == Granted
             && forall j :: i < j < |all| ==> !(all[j].userId == exit.userId && all[j].status == Granted);
    assert i == |all| - 1;
  }

  /** Appending a granted entry for a user puts that user inside. */
  lemma GrantedEntryPutsUserInside(logs: seq<AccessLog>, entry: AccessLog)
    requires entry.direction == In && entry.status == Granted
    ensures UserInside(logs + [entry], entry.userId)
  {
    var all := logs + [entry];
    assert all[|all| - 1] == entry;
    var last := LastGranted(all, entry.userId);
    var i :| 0 <= i < |all| && all[i] == last.value && last.value.userId == entry.userId
             && last.value.status == Granted
             && forall j :: i < j < |all| ==> !(all[j].userId == entry.userId && all[j].status == Granted);
    assert i == |all| - 1;
  }

  /** Denied events never change who is inside. */
  lemma DeniedEventChangesNothing(logs: seq<AccessLog>, denied: AccessLog, userId: string)
    requires denied.status == Denied
    ensures LastGranted(logs + [denied], userId) == LastGranted(logs, userId)
  {
    FilterAppend(logs, [denied], GrantedFor(userId));
    assert Filter([denied], GrantedFor(userId)) == [];
    assert Filter(logs + [denied], GrantedFor(userId)) == Filter(logs, GrantedFor(userId));
  }

  /** The page's two inputs; `selectedDate` is bound to the date picker. */
  datatype PageInputs = PageInputs(searchTerm: string, selectedDate: string)

  /** Everything the page derives from the events: the table rows and the three counters. */
  datatype Summary = Summary(rows: seq<AccessLog>, todayEntries: nat, deniedAttempts: nat, currentlyInside: nat)

  function Summarize(inputs: PageInputs, logs: seq<AccessLog>): (r: Summary)
    ensures r.rows == FilteredLogs(logs, inputs.searchTerm)
    ensures r.todayEntries == TodayEntries(logs)
    ensures r.deniedAttempts == DeniedAttempts(logs)
    ensures r.currentlyInside == CurrentlyInside(logs)
    ensures r.todayEntries + r.deniedAttempts <= |logs| && r.currentlyInside <= |logs|
  {
    EntriesAndDeniedBounded(logs);
    Summary(FilteredLogs(logs, inputs.searchTerm), TodayEntries(logs), DeniedAttempts(logs), CurrentlyInside(logs))
  }

  /** The date picker changes neither the table nor any counter; the search changes only the table. */
  lemma SelectedDateIgnored(inputs: PageInputs, logs: seq<AccessLog>, date: string, term: string)
    ensures Summarize(inputs.(selectedDate := date), logs) == Summarize(inputs, logs)
    ensures Summarize(inputs.(searchTerm := term), logs).(rows := []) == Summarize(inputs, logs).(rows := [])
  {
  }
}
