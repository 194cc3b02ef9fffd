/**
  The logic of the applications page: the filter, the per-application
  columns (assigned staff, message count, last activity, stalled flag) and
  the counts above the table.
 */
module ApplicationsPage {
  import opened Wrappers
  import opened Seqs
  import opened Types
  import opened Store
  import opened Labels
  import SendPage

  /** `getStaffName(staffId)`: "Unassigned" for a missing or empty id,
      "Unknown" for an id no staff member (with a name) has. */
  function GetStaffName(staff: seq<StaffMember>, staffId: Option<string>): (r: string)
    ensures staffId.None? || staffId.value == "" ==> r == "Unassigned"
    ensures staffId.Some? && staffId.value != "" && (forall i :: 0 <= i < |staff| ==> staff[i].id != staffId.value) ==>
              r == "Unknown"
    ensures forall i :: staffId.Some? && staffId.value != "" && 0 <= i < |staff| &&
                        staff[i].id == staffId.value &&
                        (forall j :: 0 <= j < i ==> staff[j].id != staffId.value)
                        ==> r == if staff[i].name != "" then staff[i].name else "Unknown"
  {
    if staffId.None? || staffId.value == "" then "Unassigned"
    else FirstLabel(staff, StaffIdIs(staffId.value), (s: StaffMember) => s.name, "Unknown")
  }

  /** `getMessageCountForApp(appId)`: zero exactly when no log belongs to the application. */
  function GetMessageCountForApp(logs: seq<MessageLog>, appId: string): (r: nat)
    ensures r == |set i | 0 <= i < |logs| && logs[i].applicationId == appId|
    ensures r <= |logs|
    ensures r == 0 <==> forall m :: m in logs ==> m.applicationId != appId
  {
    CountIndices(logs, LogForApplication(appId));
    assert Indices(logs, LogForApplication(appId)) == set i | 0 <= i < |logs| && logs[i].applicationId == appId;
    CountZero(logs, LogForApplication(appId));
    Count(logs, LogForApplication(appId))
  }

  /** `getLastMessageDate(appId)`: the latest send time of the application's
      logs, or nothing when it has none. */
  function GetLastMessageDate(logs: seq<MessageLog>, appId: string): (r: Option<Timestamp>)
    ensures r.None? <==> forall m :: m in logs ==> m.applicationId != appId
    ensures r.Some? ==> exists m :: m in logs && m.applicationId == appId && m.sentAt == r.value
    ensures r.Some? ==> forall m :: m in logs && m.applicationId == appId ==> m.sentAt <= r.value
  {
    var appLogs := Filter(logs, LogForApplication(appId));
    FilterMembers(logs, LogForApplication(appId));
    if |appLogs| == 0 then
      None
    else
      var sorted := SortBy(appLogs, NewestFirst);
      LatestFirst(appLogs);
      Some(sorted[0].sentAt)
  }

  /** After sorting newest first, the head is a latest element. */
  lemma {:induction false} LatestFirst(s: seq<MessageLog>)
    requires s != []
    ensures |SortBy(s, NewestFirst)| == |s|
    ensures SortBy(s, NewestFirst)[0] in s
    ensures forall m :: m in s ==> m.sentAt <= SortBy(s, NewestFirst)[0].sentAt
  {
    var sorted := SortBy(s, NewestFirst);
    SortBySpec(s, NewestFirst);
    assert sorted[0] in multiset(s);
    forall m | m in s ensures m.sentAt <= sorted[0].sentAt {
      assert m in multiset(sorted);
      var j :| 0 <= j < |sorted| && sorted[j] == m;
      if j > 0 {
        assert NewestFirst(sorted[0]) <= NewestFirst(sorted[j]);
      }
    }
  }

  // ---------------------------------------------------------------------------
  // stalled applications
  // ---------------------------------------------------------------------------

  const MsPerDay := 86400000

  /** `differenceInDays(now, since)`: whole days between the two, truncated
      toward zero. */
  function DaysBetween(now: Timestamp, since: Timestamp): int {
    var d := now - since;
    if d >= 0 then d / MsPerDay else -((-d) / MsPerDay)
  }

  /** An application no one needs to act on any more. */
  predicate IsFinal(s: ApplicationStatus) {
    s == Approved || s == Completed || s == Rejected
  }

  /** Over five days since the last update, and not in a final state. */
  predicate IsStalled(a: Application, now: Timestamp) {
    DaysBetween(now, a.lastUpdatedAt) > 5 && !IsFinal(a.status)
  }

  /** Stalled means at least six full days of silence on an open application. */
  lemma {:induction false} StalledSpec(a: Application, now: Timestamp)
    ensures IsStalled(a, now) <==> now - a.lastUpdatedAt >= 6 * MsPerDay && !IsFinal(a.status)
  {
    var d := now - a.lastUpdatedAt;
    if d >= 6 * MsPerDay {
      assert d / MsPerDay >= 6;
    } else if d >= 0 {
      assert d / MsPerDay <= 5;
    }
  }

  function StalledAt(now: Timestamp): Application -> bool { (a: Application) => IsStalled(a, now) }

  // ---------------------------------------------------------------------------
  // filter and stats
  // ---------------------------------------------------------------------------

  predicate ApplicationShown(query: string, statusFilter: string, a: Application) {
    SendPage.ApplicationMatches(a, query) && (statusFilter == "all" || ApplicationStatusName(a.status) == statusFilter)
  }

  function ShownBy(query: string, statusFilter: string): Application -> bool {
    (a: Application) => ApplicationShown(query, statusFilter, a)
  }

  /** `filteredApplications`: search over name, email and id, and the status select. */
  function FilteredApplications(applications: seq<Application>, query: string, statusFilter: string): (r: seq<Application>)
    ensures forall a :: a in r <==> a in applications && ApplicationShown(query, statusFilter, a)
    ensures SubsequenceOf(r, applications)
    ensures forall a :: multiset(r)[a] ==
                        if ApplicationShown(query, statusFilter, a) then multiset(applications)[a] else 0
  {
    FilterMultiset(applications, ShownBy(query, statusFilter));
    FilterMembers(applications, ShownBy(query, statusFilter));
    FilterIsSubsequence(applications, ShownBy(query, statusFilter));
    Filter(applications, ShownBy(query, statusFilter))
  }

  datatype ApplicationStats = ApplicationStats(total: nat, pending: nat, completed: nat, stalled: nat)

  /** The four counts over all applications. Pending and completed never
      overlap, and neither do completed and stalled. */
  function Stats(applications: seq<Application>, now: Timestamp): (r: ApplicationStats)
    ensures r.total == |applications|
    ensures r.pending == |set i | 0 <= i < |applications| &&
                                  applications[i].status in {Submitted, DocumentsPending, UnderReview, AdditionalInfoRequired}|
    ensures r.completed == |set i | 0 <= i < |applications| && applications[i].status in {Approved, Completed}|
    ensures r.stalled == |set i | 0 <= i < |applications| && IsStalled(applications[i], now)|
    ensures r.pending + r.completed <= r.total
    ensures r.stalled + r.completed <= r.total
  {
    PendingPositions(applications);
    CompletedPositions(applications);
    StalledPositions(applications, now);
    CountDisjoint(applications, ApplicationPending, ApplicationCompleted);
    CountDisjoint(applications, StalledAt(now), ApplicationCompleted);
    ApplicationStats(|applications|, Count(applications, ApplicationPending),
                     Count(applications, ApplicationCompleted), Count(applications, StalledAt(now)))
  }

  lemma {:induction false} PendingPositions(applications: seq<Application>)
    ensures Count(applications, ApplicationPending) ==
            |set i | 0 <= i < |applications| &&
                     applications[i].status in {Submitted, DocumentsPending, UnderReview, AdditionalInfoRequired}|
  {
    CountIndices(applications, ApplicationPending);
    assert Indices(applications, ApplicationPending) ==
           set i | 0 <= i < |applications| &&
                   applications[i].status in {Submitted, DocumentsPending, UnderReview, AdditionalInfoRequired};
  }

  lemma {:induction false} CompletedPositions(applications: seq<Application>)
    ensures Count(applications, ApplicationCompleted) ==
            |set i | 0 <= i < |applications| && applications[i].status in {Approved, Completed}|
  {
    CountIndices(applications, ApplicationCompleted);
    assert Indices(applications, ApplicationCompleted) ==
           set i | 0 <= i < |applications| && applications[i].status in {Approved, Completed};
  }

  lemma {:induction false} StalledPositions(applications: seq<Application>, now: Timestamp)
    ensures Count(applications, StalledAt(now)) == |set i | 0 <= i < |applications| && IsStalled(applications[i], now)|
  {
    CountIndices(applications, StalledAt(now));
    assert Indices(applications, StalledAt(now)) == set i | 0 <= i < |applications| && IsStalled(applications[i], now);
  }

  function Untracked(a: Application): bool { a.status == DocumentsReceived || a.status == Rejected }

  /** Pending, completed and the two remaining statuses (documents_received,
      rejected) split the applications: the three counts add up to the total. */
  lemma {:induction false} StatsPartition(applications: seq<Application>, now: Timestamp)
    ensures Stats(applications, now).pending + Stats(applications, now).completed + Count(applications, Untracked) ==
            |applications|
  {
    if applications != [] {
      StatsPartition(applications[1..], now);
      var a := applications[0];
      assert ApplicationPending(a) || ApplicationCompleted(a) || Untracked(a) by {
        match a.status
        case Submitted => case DocumentsPending => case DocumentsReceived => case UnderReview =>
        case AdditionalInfoRequired => case Approved => case Rejected => case Completed =>
      }
    }
  }
}
