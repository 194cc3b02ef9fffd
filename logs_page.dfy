/**
  The logic of the message-log page: the filter over the log list and the
  counts above it.
 */
module LogsPage {
  import opened Seqs
  import opened Text
  import opened Types
  import opened Store

  /** The status filter's options: every message status, in declaration order. */
  const StatusOptions: seq<MessageStatus> := [Queued, Sent, Delivered, Opened, Clicked, Replied, Failed, Bounced]

  /** Each status is offered exactly once. */
  lemma {:induction false} StatusOptionsComplete(s: MessageStatus)
    ensures s in StatusOptions
    ensures NoDuplicates(StatusOptions)
  {
  }

  /** The page's four filters; "all" switches a select filter off. */
  datatype LogFilter = LogFilter(query: string, status: string, channel: string, recipient: string)

  const NoFilter := LogFilter("", "all", "all", "all")

  /** The search box matches recipient name, contact or application id. */
  predicate MatchesSearch(log: MessageLog, query: string) {
    || ContainsIgnoreCase(log.recipientName, query)
    || ContainsIgnoreCase(log.recipientContact, query)
    || ContainsIgnoreCase(log.applicationId, query)
  }

  predicate LogShown(f: LogFilter, log: MessageLog) {
    && MatchesSearch(log, f.query)
    && (f.status == "all" || MessageStatusName(log.status) == f.status)
    && (f.channel == "all" || log.channelId == f.channel)
    && (f.recipient == "all" || RecipientTypeName(log.recipientType) == f.recipient)
  }

  function ShownBy(f: LogFilter): MessageLog -> bool { (log: MessageLog) => LogShown(f, log) }

  /** `filteredLogs`: the logs every filter accepts, in list order. */
  function FilteredLogs(logs: seq<MessageLog>, f: LogFilter): (r: seq<MessageLog>)
    ensures forall x :: x in r <==> x in logs && LogShown(f, x)
    ensures SubsequenceOf(r, logs)
    ensures forall x :: multiset(r)[x] == if LogShown(f, x) then multiset(logs)[x] else 0
  {
    FilterMultiset(logs, ShownBy(f));
    FilterMembers(logs, ShownBy(f));
    FilterIsSubsequence(logs, ShownBy(f));
    Filter(logs, ShownBy(f))
  }

  /** With the search empty and every select on "all" the whole list shows. */
  lemma {:induction false} NoFilterShowsAll(logs: seq<MessageLog>)
    ensures FilteredLogs(logs, NoFilter) == logs
  {
    forall x | x in logs ensures LogShown(NoFilter, x) {
      EmptyQueryMatches(x.recipientName);
    }
    FilterAll(logs, ShownBy(NoFilter));
  }

  /** Choosing a status shows exactly the logs with that status. */
  lemma {:induction false} StatusFilterExact(logs: seq<MessageLog>, s: MessageStatus, x: MessageLog)
    requires x in logs
    ensures x in FilteredLogs(logs, NoFilter.(status := MessageStatusName(s))) <==> x.status == s
  {
    var f := NoFilter.(status := MessageStatusName(s));
    EmptyQueryMatches(x.recipientName);
    StatusNameInjective(x.status, s);
    assert LogShown(f, x) <==> x.status == s;
  }

  /** Distinct statuses have distinct names. */
  lemma {:induction false} StatusNameInjective(a: MessageStatus, b: MessageStatus)
    ensures MessageStatusName(a) == MessageStatusName(b) ==> a == b
  {
    match a
    case Queued => case Sent => case Delivered => case Opened =>
    case Clicked => case Replied => case Failed => case Bounced =>
  }

  // ---------------------------------------------------------------------------
  // stats
  // ---------------------------------------------------------------------------

  datatype LogStats = LogStats(total: nat, delivered: nat, failed: nat, escalated: nat)

  function Escalated(m: MessageLog): bool { m.escalationAttempt > 0 }
  function Unsettled(m: MessageLog): bool { m.status == Queued || m.status == Sent }

  /** The four counts over the whole log list (not the filtered one). */
  function Stats(logs: seq<MessageLog>): (r: LogStats)
    ensures r.total == |logs|
    ensures r.delivered == |set i | 0 <= i < |logs| && logs[i].status in {Delivered, Opened, Clicked, Replied}|
    ensures r.failed == |set i | 0 <= i < |logs| && logs[i].status in {Failed, Bounced}|
    ensures r.escalated == |set i | 0 <= i < |logs| && logs[i].escalationAttempt > 0|
    ensures r.delivered + r.failed <= r.total
    ensures r.escalated <= r.total
  {
    DeliveredPositions(logs);
    FailedPositions(logs);
    EscalatedPositions(logs);
    CountDisjoint(logs, LogDelivered, LogFailed);
    FilterLength(logs, Escalated);
    LogStats(|logs|, Count(logs, LogDelivered), Count(logs, LogFailed), Count(logs, Escalated))
  }

  lemma {:induction false} DeliveredPositions(logs: seq<MessageLog>)
    ensures Count(logs, LogDelivered) ==
            |set i | 0 <= i < |logs| && logs[i].status in {Delivered, Opened, Clicked, Replied}|
  {
    CountIndices(logs, LogDelivered);
    assert Indices(logs, LogDelivered) ==
           set i | 0 <= i < |logs| && logs[i].status in {Delivered, Opened, Clicked, Replied};
  }

  lemma {:induction false} FailedPositions(logs: seq<MessageLog>)
    ensures Count(logs, LogFailed) == |set i | 0 <= i < |logs| && logs[i].status in {Failed, Bounced}|
  {
    CountIndices(logs, LogFailed);
    assert Indices(logs, LogFailed) == set i | 0 <= i < |logs| && logs[i].status in {Failed, Bounced};
  }

  lemma {:induction false} EscalatedPositions(logs: seq<MessageLog>)
    ensures Count(logs, Escalated) == |set i | 0 <= i < |logs| && logs[i].escalationAttempt > 0|
  {
    CountIndices(logs, Escalated);
    assert Indices(logs, Escalated) == set i | 0 <= i < |logs| && logs[i].escalationAttempt > 0;
  }

  /** Every log is delivered, failed or still queued or sent: the three counts
      add up to the total. */
  lemma {:induction false} StatsPartition(logs: seq<MessageLog>)
    ensures Stats(logs).delivered + Stats(logs).failed + Count(logs, Unsettled) == |logs|
  {
    if logs != [] {
      StatsPartition(logs[1..]);
      assert LogDelivered(logs[0]) || LogFailed(logs[0]) || Unsettled(logs[0]) by {
        match logs[0].status
        case Queued => case Sent => case Delivered => case Opened =>
        case Clicked => case Replied => case Failed => case Bounced =>
      }
    }
  }
}
