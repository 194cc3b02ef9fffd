/**
  The in-memory messaging store: ten tables held in arrays that the store's
  methods append to (`push`), overwrite at the first index with a given id
  (index assignment of a merged record) and splice at that index, plus the
  lookups and the count-based analytics computed over them.
 */
module Store {
  import opened Wrappers
  import opened Seqs
  import opened Text
  import opened Types

  // ---------------------------------------------------------------------------
  // the callbacks handed to find / findIndex / filter
  // ---------------------------------------------------------------------------

  function ChannelIdIs(id: string): Channel -> bool { (c: Channel) => c.id == id }
  function EventIdIs(id: string): OnboardingEvent -> bool { (e: OnboardingEvent) => e.id == id }
  function RoutingRuleIdIs(id: string): RoutingRule -> bool { (r: RoutingRule) => r.id == id }
  function TemplateIdIs(id: string): MessageTemplate -> bool { (t: MessageTemplate) => t.id == id }
  function RoleIdIs(id: string): StaffRole -> bool { (r: StaffRole) => r.id == id }
  function StaffIdIs(id: string): StaffMember -> bool { (s: StaffMember) => s.id == id }
  function ApplicationIdIs(id: string): Application -> bool { (a: Application) => a.id == id }
  function LogIdIs(id: string): MessageLog -> bool { (m: MessageLog) => m.id == id }
  function EscalationRuleIdIs(id: string): EscalationRule -> bool { (e: EscalationRule) => e.id == id }

  function RoutingRuleForEvent(eventId: string): RoutingRule -> bool { (r: RoutingRule) => r.eventId == eventId }
  function TemplateForEvent(eventId: string): MessageTemplate -> bool { (t: MessageTemplate) => t.eventId == eventId }
  function EscalationRuleForEvent(eventId: string): EscalationRule -> bool { (e: EscalationRule) => e.eventId == eventId }
  function HasRole(roleId: string): StaffMember -> bool { (s: StaffMember) => roleId in s.roleIds }
  function ConfigFor(roleId: string, eventId: string): RoleNotificationConfig -> bool {
    (c: RoleNotificationConfig) => c.roleId == roleId && c.eventId == eventId
  }
  function LogForApplication(applicationId: string): MessageLog -> bool { (m: MessageLog) => m.applicationId == applicationId }
  function LogOnChannel(channelId: string): MessageLog -> bool { (m: MessageLog) => m.channelId == channelId }
  function LogForEvent(eventId: string): MessageLog -> bool { (m: MessageLog) => m.eventId == eventId }

  /** The key getTemplateForEventAndChannel matches on; `isActive` plays no part. */
  function TemplateMatches(eventId: string, channelId: string, recipientType: RecipientType): MessageTemplate -> bool {
    (t: MessageTemplate) => t.eventId == eventId && t.channelId == channelId && t.recipientType == recipientType
  }

  function LogDelivered(m: MessageLog): bool { IsDeliveredStatus(m.status) }
  function LogOpened(m: MessageLog): bool { IsOpenedStatus(m.status) }
  function LogReplied(m: MessageLog): bool { m.status == Replied }
  function LogFailed(m: MessageLog): bool { IsFailedStatus(m.status) }
  function ChannelActive(c: Channel): bool { c.isActive }
  function EventActive(e: OnboardingEvent): bool { e.isActive }
  function ApplicationPending(a: Application): bool { IsPendingStatus(a.status) }
  function ApplicationCompleted(a: Application): bool { IsCompletedStatus(a.status) }

  /** The comparator `(a, b) => b.sentAt - a.sentAt` sorts ascending on this key,
      that is newest first. */
  function NewestFirst(m: MessageLog): int { -m.sentAt }

  // ---------------------------------------------------------------------------
  // the merges the update methods write back
  // ---------------------------------------------------------------------------

  function ChannelMerger(p: ChannelPatch): Channel -> Channel { (c: Channel) => MergeChannel(c, p) }
  function EventMerger(p: EventPatch): OnboardingEvent -> OnboardingEvent { (e: OnboardingEvent) => MergeEvent(e, p) }
  function RoutingRuleMerger(p: RoutingRulePatch): RoutingRule -> RoutingRule { (r: RoutingRule) => MergeRoutingRule(r, p) }
  /** updateTemplate stamps `updatedAt` after the merge. */
  function TemplateMerger(p: TemplatePatch, now: Timestamp): MessageTemplate -> MessageTemplate {
    (t: MessageTemplate) => MergeTemplate(t, p).(updatedAt := now)
  }
  function RoleMerger(p: RolePatch): StaffRole -> StaffRole { (r: StaffRole) => MergeRole(r, p) }
  function StaffMerger(p: StaffPatch): StaffMember -> StaffMember { (s: StaffMember) => MergeStaff(s, p) }
  /** updateApplication stamps `lastUpdatedAt` after the merge. */
  function ApplicationMerger(p: ApplicationPatch, now: Timestamp): Application -> Application {
    (a: Application) => MergeApplication(a, p).(lastUpdatedAt := now)
  }
  function MessageLogMerger(p: MessageLogPatch): MessageLog -> MessageLog { (m: MessageLog) => MergeMessageLog(m, p) }
  function EscalationRuleMerger(p: EscalationRulePatch): EscalationRule -> EscalationRule {
    (r: EscalationRule) => MergeEscalationRule(r, p)
  }

  /** The record an update returns: the merged record at the first index with
      the id, or undefined. */
  function Updated<T>(s: seq<T>, p: T -> bool, f: T -> T): Option<T> {
    match FindIndex(s, p)
    case None => None
    case Some(i) => Some(f(s[i]))
  }

  // ---------------------------------------------------------------------------
  // the notification-config upsert
  // ---------------------------------------------------------------------------

  /** The id `rnc_${Date.now()}` of a config entry created at time now. */
  function ConfigId(now: nat): string {
    "rnc_" + NatToString(now)
  }

  /** The config table after `updateRoleNotificationConfig(roleId, eventId, isEnabled)`
      at time now: the first entry for the pair gets the flag, or a new entry
      is appended when there is none. */
  function UpsertConfig(configs: seq<RoleNotificationConfig>, roleId: string, eventId: string,
                        isEnabled: bool, now: nat): seq<RoleNotificationConfig> {
    match FindIndex(configs, ConfigFor(roleId, eventId))
    case Some(i) => configs[i := configs[i].(isEnabled := isEnabled)]
    case None => configs + [RoleNotificationConfig(ConfigId(now), roleId, eventId, isEnabled)]
  }

  function Enabler(isEnabled: bool): RoleNotificationConfig -> RoleNotificationConfig {
    (c: RoleNotificationConfig) => c.(isEnabled := isEnabled)
  }

  /** The flag a lookup for (roleId, eventId) sees: the first matching entry's,
      and false when there is none. */
  function ConfigEnabled(configs: seq<RoleNotificationConfig>, roleId: string, eventId: string): bool {
    match Find(configs, ConfigFor(roleId, eventId))
    case Some(c) => c.isEnabled
    case None => false
  }

  /** After the upsert the pair reads back the flag just written; the table grows
      only when the pair was new; every other pair reads back what it did before. */
  lemma {:induction false} UpsertConfigSpec(configs: seq<RoleNotificationConfig>, roleId: string, eventId: string,
                         isEnabled: bool, now: nat)
    ensures ConfigEnabled(UpsertConfig(configs, roleId, eventId, isEnabled, now), roleId, eventId) == isEnabled
    ensures |UpsertConfig(configs, roleId, eventId, isEnabled, now)| ==
            |configs| + (if FindIndex(configs, ConfigFor(roleId, eventId)).None? then 1 else 0)
    ensures forall r, e :: (r != roleId || e != eventId) ==>
              Find(UpsertConfig(configs, roleId, eventId, isEnabled, now), ConfigFor(r, e)) ==
              Find(configs, ConfigFor(r, e))
  {
    var after := UpsertConfig(configs, roleId, eventId, isEnabled, now);
    var p := ConfigFor(roleId, eventId);
    match FindIndex(configs, p)
    case Some(i) =>
      UpdateFirstFound(configs, p, Enabler(isEnabled));
      assert after == UpdateFirst(configs, p, Enabler(isEnabled));
      forall r, e | r != roleId || e != eventId
        ensures Find(after, ConfigFor(r, e)) == Find(configs, ConfigFor(r, e))
      {
        var q := ConfigFor(r, e);
        assert forall j :: 0 <= j < |configs| ==> q(after[j]) == q(configs[j]);
        assert !q(after[i]) && !q(configs[i]);
        SameLookupOffOne(configs, after, i, q);
      }
    case None =>
      FindAfterAppend(configs, after[|configs|], p);
      assert after == configs + [after[|configs|]];
      forall r, e | r != roleId || e != eventId
        ensures Find(after, ConfigFor(r, e)) == Find(configs, ConfigFor(r, e))
      {
        FindAfterAppend(configs, after[|configs|], ConfigFor(r, e));
      }
  }

  /** Two tables that agree everywhere except at a position where neither
      element matches give the same lookup result. */
  lemma {:induction false} SameLookupOffOne<T>(s: seq<T>, t: seq<T>, i: nat, q: T -> bool)
    requires |s| == |t| && i < |s|
    requires forall j :: 0 <= j < |s| && j != i ==> s[j] == t[j]
    requires !q(s[i]) && !q(t[i])
    ensures Find(t, q) == Find(s, q)
  {
    match FindIndex(s, q)
    case None =>
      assert forall j :: 0 <= j < |t| ==> !q(t[j]);
    case Some(k) =>
      assert t[k] == s[k];
      assert forall j :: 0 <= j < k ==> !q(t[j]);
  }

  // ---------------------------------------------------------------------------
  // analytics
  // ---------------------------------------------------------------------------

  /** `Math.round((part / whole) * 100)` in exact arithmetic: the nearest whole
      percentage, halves rounded up. */
  function RoundPercent(part: nat, whole: nat): int
    requires whole > 0
  {
    (200 * part + whole) / (2 * whole)
  }

  lemma {:induction false} RoundPercentSpec(part: nat, whole: nat)
    requires whole > 0
    ensures 2 * whole * RoundPercent(part, whole) <= 200 * part + whole
    ensures 200 * part + whole < 2 * whole * (RoundPercent(part, whole) + 1)
    ensures part <= whole ==> 0 <= RoundPercent(part, whole) <= 100
  {
    var n, d := 200 * part + whole, 2 * whole;
    DivBounds(n, d);
    if part <= whole {
      QuotientAtMost(n, d, 100);
    }
  }

  lemma {:induction false} DivBounds(n: nat, d: nat)
    requires d > 0
    ensures 0 <= n / d
    ensures d * (n / d) <= n < d * (n / d) + d
  {
  }

  lemma {:induction false} QuotientAtMost(n: nat, d: nat, k: nat)
    requires d > 0 && n < d * (k + 1)
    ensures n / d <= k
  {
    DivBounds(n, d);
    if n / d > k {
      MulMonotone(d, k + 1, n / d);
    }
  }

  lemma {:induction false} MulMonotone(d: nat, a: int, b: int)
    requires a <= b
    ensures d * a <= d * b
  {
  }

  /** One entry of getChannelMetrics: counts over the channel's logs. */
  function MetricsFor(logs: seq<MessageLog>, channelId: string): ChannelMetrics {
    var mine := Filter(logs, LogOnChannel(channelId));
    ChannelMetrics(channelId, |mine|, Count(mine, LogDelivered), Count(mine, LogOpened),
                   Count(mine, LogReplied), Count(mine, LogFailed))
  }

  /** The status groups are nested (replied within opened within delivered) and
      failures are disjoint from deliveries, so the counts are ordered. */
  lemma {:induction false} MetricsBounds(logs: seq<MessageLog>, channelId: string)
    ensures var m := MetricsFor(logs, channelId);
            m.replied <= m.openedCount <= m.delivered <= m.totalSent &&
            m.delivered + m.failed <= m.totalSent &&
            m.totalSent == Count(logs, LogOnChannel(channelId))
  {
    var mine := Filter(logs, LogOnChannel(channelId));
    CountMonotone(mine, LogReplied, LogOpened);
    CountMonotone(mine, LogOpened, LogDelivered);
    FilterLength(mine, LogDelivered);
    CountDisjoint(mine, LogDelivered, LogFailed);
  }

  /** Each count of a channel's entry is the number of positions in the whole
      log table that are on the channel and in the status group. */
  lemma {:induction false} MetricsCounts(logs: seq<MessageLog>, c: string)
    ensures var m := MetricsFor(logs, c);
            && m.totalSent == |set i | 0 <= i < |logs| && logs[i].channelId == c|
            && m.delivered == |set i | 0 <= i < |logs| && logs[i].channelId == c &&
                                      logs[i].status in {Delivered, Opened, Clicked, Replied}|
            && m.openedCount == |set i | 0 <= i < |logs| && logs[i].channelId == c &&
                                        logs[i].status in {Opened, Clicked, Replied}|
            && m.replied == |set i | 0 <= i < |logs| && logs[i].channelId == c && logs[i].status == Replied|
            && m.failed == |set i | 0 <= i < |logs| && logs[i].channelId == c &&
                                   logs[i].status in {Failed, Bounced}|
  {
    SentCount(logs, c);
    DeliveredCount(logs, c);
    OpenedCount(logs, c);
    RepliedCount(logs, c);
    FailedCount(logs, c);
  }

  lemma {:induction false} SentCount(logs: seq<MessageLog>, c: string)
    ensures Count(logs, LogOnChannel(c)) == |set i | 0 <= i < |logs| && logs[i].channelId == c|
  {
    CountIndices(logs, LogOnChannel(c));
    assert Indices(logs, LogOnChannel(c)) == set i | 0 <= i < |logs| && logs[i].channelId == c;
  }

  lemma {:induction false} DeliveredCount(logs: seq<MessageLog>, c: string)
    ensures Count(Filter(logs, LogOnChannel(c)), LogDelivered) ==
            |set i | 0 <= i < |logs| && logs[i].channelId == c && logs[i].status in {Delivered, Opened, Clicked, Replied}|
  {
    CountWithin(logs, LogOnChannel(c), LogDelivered);
    assert Indices(logs, Both(LogOnChannel(c), LogDelivered)) ==
           set i | 0 <= i < |logs| && logs[i].channelId == c && logs[i].status in {Delivered, Opened, Clicked, Replied};
  }

  lemma {:induction false} OpenedCount(logs: seq<MessageLog>, c: string)
    ensures Count(Filter(logs, LogOnChannel(c)), LogOpened) ==
            |set i | 0 <= i < |logs| && logs[i].channelId == c && logs[i].status in {Opened, Clicked, Replied}|
  {
    CountWithin(logs, LogOnChannel(c), LogOpened);
    assert Indices(logs, Both(LogOnChannel(c), LogOpened)) ==
           set i | 0 <= i < |logs| && logs[i].channelId == c && logs[i].status in {Opened, Clicked, Replied};
  }

  lemma {:induction false} RepliedCount(logs: seq<MessageLog>, c: string)
    ensures Count(Filter(logs, LogOnChannel(c)), LogReplied) ==
            |set i | 0 <= i < |logs| && logs[i].channelId == c && logs[i].status == Replied|
  {
    CountWithin(logs, LogOnChannel(c), LogReplied);
    assert Indices(logs, Both(LogOnChannel(c), LogReplied)) ==
           set i | 0 <= i < |logs| && logs[i].channelId == c && logs[i].status == Replied;
  }

  lemma {:induction false} FailedCount(logs: seq<MessageLog>, c: string)
    ensures Count(Filter(logs, LogOnChannel(c)), LogFailed) ==
            |set i | 0 <= i < |logs| && logs[i].channelId == c && logs[i].status in {Failed, Bounced}|
  {
    CountWithin(logs, LogOnChannel(c), LogFailed);
    assert Indices(logs, Both(LogOnChannel(c), LogFailed)) ==
           set i | 0 <= i < |logs| && logs[i].channelId == c && logs[i].status in {Failed, Bounced};
  }

  /** One entry of getEventMetrics; `avgTimeToAction` is random and left out. */
  function EventMetricsFor(logs: seq<MessageLog>, eventId: string): EventMetrics {
    var mine := Filter(logs, LogForEvent(eventId));
    var replied := Count(mine, LogReplied);
    EventMetrics(eventId, |mine|, Count(mine, LogDelivered),
                 if |mine| > 0 then RoundPercent(replied, |mine|) else 0)
  }

  lemma {:induction false} EventMetricsBounds(logs: seq<MessageLog>, eventId: string)
    ensures var m := EventMetricsFor(logs, eventId);
            m.successfulDelivery <= m.totalTriggered &&
            0 <= m.responseRate <= 100 &&
            (m.totalTriggered == 0 ==> m.responseRate == 0)
  {
    var mine := Filter(logs, LogForEvent(eventId));
    FilterLength(mine, LogDelivered);
    FilterLength(mine, LogReplied);
    if |mine| > 0 {
      RoundPercentSpec(Count(mine, LogReplied), |mine|);
    }
  }

  /** The event entry's counts, as positions of the whole log table. */
  lemma {:induction false} EventMetricsCounts(logs: seq<MessageLog>, e: string)
    ensures var m := EventMetricsFor(logs, e);
            var replied := |set i | 0 <= i < |logs| && logs[i].eventId == e && logs[i].status == Replied|;
            && m.totalTriggered == |set i | 0 <= i < |logs| && logs[i].eventId == e|
            && m.successfulDelivery == |set i | 0 <= i < |logs| && logs[i].eventId == e &&
                                               logs[i].status in {Delivered, Opened, Clicked, Replied}|
            && m.responseRate == if m.totalTriggered > 0 then RoundPercent(replied, m.totalTriggered) else 0
  {
    var on := LogForEvent(e);
    CountIndices(logs, on);
    assert Indices(logs, on) == set i | 0 <= i < |logs| && logs[i].eventId == e;
    CountWithin(logs, on, LogDelivered);
    assert Indices(logs, Both(on, LogDelivered)) ==
           set i | 0 <= i < |logs| && logs[i].eventId == e && logs[i].status in {Delivered, Opened, Clicked, Replied};
    CountWithin(logs, on, LogReplied);
    assert Indices(logs, Both(on, LogReplied)) ==
           set i | 0 <= i < |logs| && logs[i].eventId == e && logs[i].status == Replied;
  }

  /** getDashboardStats over the four tables it reads. */
  function DashboardFor(applications: seq<Application>, logs: seq<MessageLog>,
                        channels: seq<Channel>, events: seq<OnboardingEvent>): DashboardStats {
    var total := |logs|;
    var delivered := Count(logs, LogDelivered);
    var replied := Count(logs, LogReplied);
    DashboardStats(
      |applications|, Count(applications, ApplicationPending), Count(applications, ApplicationCompleted),
      total, delivered, replied,
      if total > 0 then RoundPercent(delivered, total) else 0,
      if total > 0 then RoundPercent(replied, total) else 0,
      Count(channels, ChannelActive), Count(events, EventActive))
  }

  /** Pending and completed applications are disjoint groups; replies are
      deliveries; both rates are percentages. */
  lemma {:induction false} DashboardBounds(applications: seq<Application>, logs: seq<MessageLog>,
                        channels: seq<Channel>, events: seq<OnboardingEvent>)
    ensures var d := DashboardFor(applications, logs, channels, events);
            d.pendingApplications + d.completedApplications <= d.totalApplications &&
            d.messagesReplied <= d.messagesDelivered <= d.totalMessagesSent &&
            0 <= d.deliveryRate <= 100 && 0 <= d.responseRate <= 100 &&
            d.responseRate <= d.deliveryRate &&
            d.activeChannels <= |channels| && d.activeEvents <= |events|
  {
    CountDisjoint(applications, ApplicationPending, ApplicationCompleted);
    CountMonotone(logs, LogReplied, LogDelivered);
    FilterLength(logs, LogDelivered);
    FilterLength(channels, ChannelActive);
    FilterLength(events, EventActive);
    if |logs| > 0 {
      RatesOrdered(Count(logs, LogReplied), Count(logs, LogDelivered), |logs|);
    }
  }

  /** Percentages of the same whole keep the order of their parts. */
  lemma {:induction false} RatesOrdered(smaller: nat, larger: nat, whole: nat)
    requires smaller <= larger <= whole && whole > 0
    ensures 0 <= RoundPercent(smaller, whole) <= RoundPercent(larger, whole) <= 100
  {
    RoundPercentSpec(smaller, whole);
    RoundPercentSpec(larger, whole);
    DivMonotone(200 * smaller + whole, 200 * larger + whole, 2 * whole);
  }

  /** The dashboard's application counts, as positions of the table. */
  lemma {:induction false} DashboardApplicationCounts(applications: seq<Application>, logs: seq<MessageLog>,
                                                    channels: seq<Channel>, events: seq<OnboardingEvent>)
    ensures var d := DashboardFor(applications, logs, channels, events);
            && d.pendingApplications ==
               |set i | 0 <= i < |applications| &&
                        applications[i].status in {Submitted, DocumentsPending, UnderReview, AdditionalInfoRequired}|
            && d.completedApplications == |set i | 0 <= i < |applications| && applications[i].status in {Approved, Completed}|
  {
    CountIndices(applications, ApplicationPending);
    assert Indices(applications, ApplicationPending) ==
           set i | 0 <= i < |applications| &&
                   applications[i].status in {Submitted, DocumentsPending, UnderReview, AdditionalInfoRequired};
    CountIndices(applications, ApplicationCompleted);
    assert Indices(applications, ApplicationCompleted) ==
           set i | 0 <= i < |applications| && applications[i].status in {Approved, Completed};
  }

  /** The dashboard's message and activity counts, as positions of the tables,
      and the two rates computed from them. */
  lemma {:induction false} DashboardMessageCounts(applications: seq<Application>, logs: seq<MessageLog>,
                                                channels: seq<Channel>, events: seq<OnboardingEvent>)
    ensures var d := DashboardFor(applications, logs, channels, events);
            && d.messagesDelivered ==
               |set i | 0 <= i < |logs| && logs[i].status in {Delivered, Opened, Clicked, Replied}|
            && d.messagesReplied == |set i | 0 <= i < |logs| && logs[i].status == Replied|
            && d.deliveryRate == (if |logs| > 0 then RoundPercent(d.messagesDelivered, |logs|) else 0)
            && d.responseRate == (if |logs| > 0 then RoundPercent(d.messagesReplied, |logs|) else 0)
            && d.activeChannels == |set i | 0 <= i < |channels| && channels[i].isActive|
            && d.activeEvents == |set i | 0 <= i < |events| && events[i].isActive|
  {
    CountIndices(logs, LogDelivered);
    assert Indices(logs, LogDelivered) ==
           set i | 0 <= i < |logs| && logs[i].status in {Delivered, Opened, Clicked, Replied};
    CountIndices(logs, LogReplied);
    assert Indices(logs, LogReplied) == set i | 0 <= i < |logs| && logs[i].status == Replied;
    CountIndices(channels, ChannelActive);
    assert Indices(channels, ChannelActive) == set i | 0 <= i < |channels| && channels[i].isActive;
    CountIndices(events, EventActive);
    assert Indices(events, EventActive) == set i | 0 <= i < |events| && events[i].isActive;
  }

  lemma {:induction false} DivMonotone(a: nat, b: nat, d: nat)
    requires a <= b && d > 0
    ensures a / d <= b / d
  {
    assert a == d * (a / d) + a % d;
    assert b == d * (b / d) + b % d;
    if a / d > b / d {
      MulMonotone(d, b / d + 1, a / d);
    }
  }

  /** Filtering the logs to one application and sorting them newest first
      gives the same rows, in the same order, as sorting the whole table and
      then filtering. */
  lemma {:induction false} LogsForApplicationSpec(logs: seq<MessageLog>, applicationId: string)
    ensures var r := SortBy(Filter(logs, LogForApplication(applicationId)), NewestFirst);
            && r == Filter(SortBy(logs, NewestFirst), LogForApplication(applicationId))
            && multiset(r) == multiset(Filter(logs, LogForApplication(applicationId)))
            && (forall i :: 0 <= i < |r| ==> r[i].applicationId == applicationId)
            && (forall i, j :: 0 <= i < j < |r| ==> r[i].sentAt >= r[j].sentAt)
  {
    var p := LogForApplication(applicationId);
    var mine := Filter(logs, p);
    var r := SortBy(mine, NewestFirst);
    FilterSortBy(logs, NewestFirst, p);
    SortBySpec(mine, NewestFirst);
    FilterMembers(logs, p);
    forall i | 0 <= i < |r| ensures r[i].applicationId == applicationId {
      assert r[i] in multiset(mine);
      assert r[i] in mine;
      assert p(r[i]);
    }
  }

  // ---------------------------------------------------------------------------
  // the store
  // ---------------------------------------------------------------------------

  class MessagingStore {
    var channels: seq<Channel>
    var events: seq<OnboardingEvent>
    var routingRules: seq<RoutingRule>
    var templates: seq<MessageTemplate>
    var roles: seq<StaffRole>
    var staff: seq<StaffMember>
    var roleNotificationConfig: seq<RoleNotificationConfig>
    var applications: seq<Application>
    var messageLogs: seq<MessageLog>
    var escalationRules: seq<EscalationRule>

    /** Each table starts as a copy of its seed data. */
    constructor(channels0: seq<Channel>, events0: seq<OnboardingEvent>,
                routingRules0: seq<RoutingRule>, templates0: seq<MessageTemplate>,
                roles0: seq<StaffRole>, staff0: seq<StaffMember>,
                configs0: seq<RoleNotificationConfig>, applications0: seq<Application>,
                logs0: seq<MessageLog>, escalationRules0: seq<EscalationRule>)
      ensures channels == channels0 && events == events0 && routingRules == routingRules0
      ensures templates == templates0 && roles == roles0 && staff == staff0
      ensures roleNotificationConfig == configs0 && applications == applications0
      ensures messageLogs == logs0 && escalationRules == escalationRules0
    {
      channels, events, routingRules, templates := channels0, events0, routingRules0, templates0;
      roles, staff, roleNotificationConfig := roles0, staff0, configs0;
      applications, messageLogs, escalationRules := applications0, logs0, escalationRules0;
    }

    // --- channels --------------------------------------------------------------

    function GetChannel(id: string): (r: Option<Channel>)
      reads this
      ensures r.Some? ==> r.value in channels && r.value.id == id
      ensures r.Some? ==> exists i :: 0 <= i < |channels| && channels[i] == r.value &&
                                     forall j :: 0 <= j < i ==> channels[j].id != id
      ensures r.None? <==> forall i :: 0 <= i < |channels| ==> channels[i].id != id
    {
      Find(channels, ChannelIdIs(id))
    }

    method UpdateChannel(id: string, data: ChannelPatch) returns (r: Option<Channel>)
      modifies this`channels
      ensures channels == UpdateFirst(old(channels), ChannelIdIs(id), ChannelMerger(data))
      ensures r == Updated(old(channels), ChannelIdIs(id), ChannelMerger(data))
    {
      var index := FindIndex(channels, ChannelIdIs(id));
      if index.Some? {
        var i := index.value;
        channels := channels[i := MergeChannel(channels[i], data)];
        r := Some(channels[i]);
      } else {
        r := None;
      }
    }

    // --- events ----------------------------------------------------------------

    function GetEvent(id: string): (r: Option<OnboardingEvent>)
      reads this
      ensures r.Some? ==> r.value in events && r.value.id == id
      ensures r.Some? ==> exists i :: 0 <= i < |events| && events[i] == r.value &&
                                     forall j :: 0 <= j < i ==> events[j].id != id
      ensures r.None? <==> forall i :: 0 <= i < |events| ==> events[i].id != id
    {
      Find(events, EventIdIs(id))
    }

    method CreateEvent(event: OnboardingEvent) returns (r: OnboardingEvent)
      modifies this`events
      ensures events == old(events) + [event] && r == event
    {
      events := events + [event];
      r := event;
    }

    method UpdateEvent(id: string, data: EventPatch) returns (r: Option<OnboardingEvent>)
      modifies this`events
      ensures events == UpdateFirst(old(events), EventIdIs(id), EventMerger(data))
      ensures r == Updated(old(events), EventIdIs(id), EventMerger(data))
    {
      var index := FindIndex(events, EventIdIs(id));
      if index.Some? {
        var i := index.value;
        events := events[i := MergeEvent(events[i], data)];
        r := Some(events[i]);
      } else {
        r := None;
      }
    }

    method DeleteEvent(id: string) returns (r: bool)
      modifies this`events
      ensures events == RemoveFirst(old(events), EventIdIs(id))
      ensures r == FindIndex(old(events), EventIdIs(id)).Some?
    {
      var index := FindIndex(events, EventIdIs(id));
      if index.Some? {
        var i := index.value;
        events := events[..i] + events[i + 1..];
        r := true;
      } else {
        r := false;
      }
    }

    // --- routing rules ---------------------------------------------------------

    function GetRoutingRulesForEvent(eventId: string): (r: seq<RoutingRule>)
      reads this
      ensures forall x :: x in r ==> x in routingRules && x.eventId == eventId
      ensures forall x :: x in routingRules && x.eventId == eventId ==> x in r
      ensures SubsequenceOf(r, routingRules)
      ensures forall x :: multiset(r)[x] == if x.eventId == eventId then multiset(routingRules)[x] else 0
    {
      FilterMultiset(routingRules, RoutingRuleForEvent(eventId));
      FilterMembers(routingRules, RoutingRuleForEvent(eventId));
      FilterIsSubsequence(routingRules, RoutingRuleForEvent(eventId));
      Filter(routingRules, RoutingRuleForEvent(eventId))
    }

    method CreateRoutingRule(rule: RoutingRule) returns (r: RoutingRule)
      modifies this`routingRules
      ensures routingRules == old(routingRules) + [rule] && r == rule
    {
      routingRules := routingRules + [rule];
      r := rule;
    }

    method UpdateRoutingRule(id: string, data: RoutingRulePatch) returns (r: Option<RoutingRule>)
      modifies this`routingRules
      ensures routingRules == UpdateFirst(old(routingRules), RoutingRuleIdIs(id), RoutingRuleMerger(data))
      ensures r == Updated(old(routingRules), RoutingRuleIdIs(id), RoutingRuleMerger(data))
    {
      var index := FindIndex(routingRules, RoutingRuleIdIs(id));
      if index.Some? {
        var i := index.value;
        routingRules := routingRules[i := MergeRoutingRule(routingRules[i], data)];
        r := Some(routingRules[i]);
      } else {
        r := None;
      }
    }

    method DeleteRoutingRule(id: string) returns (r: bool)
      modifies this`routingRules
      ensures routingRules == RemoveFirst(old(routingRules), RoutingRuleIdIs(id))
      ensures r == FindIndex(old(routingRules), RoutingRuleIdIs(id)).Some?
    {
      var index := FindIndex(routingRules, RoutingRuleIdIs(id));
      if index.Some? {
        var i := index.value;
        routingRules := routingRules[..i] + routingRules[i + 1..];
        r := true;
      } else {
        r := false;
      }
    }

    // --- templates -------------------------------------------------------------

    function GetTemplate(id: string): (r: Option<MessageTemplate>)
      reads this
      ensures r.Some? ==> r.value in templates && r.value.id == id
      ensures r.Some? ==> exists i :: 0 <= i < |templates| && templates[i] == r.value &&
                                     forall j :: 0 <= j < i ==> templates[j].id != id
      ensures r.None? <==> forall i :: 0 <= i < |templates| ==> templates[i].id != id
    {
      Find(templates, TemplateIdIs(id))
    }

    function GetTemplatesForEvent(eventId: string): (r: seq<MessageTemplate>)
      reads this
      ensures forall x :: x in r ==> x in templates && x.eventId == eventId
      ensures forall x :: x in templates && x.eventId == eventId ==> x in r
      ensures SubsequenceOf(r, templates)
      ensures forall x :: multiset(r)[x] == if x.eventId == eventId then multiset(templates)[x] else 0
    {
      FilterMultiset(templates, TemplateForEvent(eventId));
      FilterMembers(templates, TemplateForEvent(eventId));
      FilterIsSubsequence(templates, TemplateForEvent(eventId));
      Filter(templates, TemplateForEvent(eventId))
    }

    /** The first template, in table order and whether active or not, for the
        event, channel and recipient type. */
    function GetTemplateForEventAndChannel(eventId: string, channelId: string,
                                          recipientType: RecipientType): (r: Option<MessageTemplate>)
      reads this
      ensures r.None? <==>
              forall j :: 0 <= j < |templates| ==>
                !(templates[j].eventId == eventId && templates[j].channelId == channelId &&
                  templates[j].recipientType == recipientType)
      ensures r.Some? ==>
              exists i :: 0 <= i < |templates| && templates[i] == r.value &&
                r.value.eventId == eventId && r.value.channelId == channelId &&
                r.value.recipientType == recipientType &&
                forall j :: 0 <= j < i ==>
                  !(templates[j].eventId == eventId && templates[j].channelId == channelId &&
                    templates[j].recipientType == recipientType)
    {
      Find(templates, TemplateMatches(eventId, channelId, recipientType))
    }

    method CreateTemplate(template: MessageTemplate) returns (r: MessageTemplate)
      modifies this`templates
      ensures templates == old(templates) + [template] && r == template
    {
      templates := templates + [template];
      r := template;
    }

    /** The merge is stamped with the current time `now` as `updatedAt`. */
    method UpdateTemplate(id: string, data: TemplatePatch, now: Timestamp) returns (r: Option<MessageTemplate>)
      modifies this`templates
      ensures templates == UpdateFirst(old(templates), TemplateIdIs(id), TemplateMerger(data, now))
      ensures r == Updated(old(templates), TemplateIdIs(id), TemplateMerger(data, now))
      ensures r.Some? ==> r.value.updatedAt == now
    {
      var index := FindIndex(templates, TemplateIdIs(id));
      if index.Some? {
        var i := index.value;
        templates := templates[i := MergeTemplate(templates[i], data).(updatedAt := now)];
        r := Some(templates[i]);
      } else {
        r := None;
      }
    }

    method DeleteTemplate(id: string) returns (r: bool)
      modifies this`templates
      ensures templates == RemoveFirst(old(templates), TemplateIdIs(id))
      ensures r == FindIndex(old(templates), TemplateIdIs(id)).Some?
    {
      var index := FindIndex(templates, TemplateIdIs(id));
      if index.Some? {
        var i := index.value;
        templates := templates[..i] + templates[i + 1..];
        r := true;
      } else {
        r := false;
      }
    }

    // --- roles -----------------------------------------------------------------

    function GetRole(id: string): (r: Option<StaffRole>)
      reads this
      ensures r.Some? ==> r.value in roles && r.value.id == id
      ensures r.Some? ==> exists i :: 0 <= i < |roles| && roles[i] == r.value &&
                                     forall j :: 0 <= j < i ==> roles[j].id != id
      ensures r.None? <==> forall i :: 0 <= i < |roles| ==> roles[i].id != id
    {
      Find(roles, RoleIdIs(id))
    }

    method CreateRole(role: StaffRole) returns (r: StaffRole)
      modifies this`roles
      ensures roles == old(roles) + [role] && r == role
    {
      roles := roles + [role];
      r := role;
    }

    method UpdateRole(id: string, data: RolePatch) returns (r: Option<StaffRole>)
      modifies this`roles
      ensures roles == UpdateFirst(old(roles), RoleIdIs(id), RoleMerger(data))
      ensures r == Updated(old(roles), RoleIdIs(id), RoleMerger(data))
    {
      var index := FindIndex(roles, RoleIdIs(id));
      if index.Some? {
        var i := index.value;
        roles := roles[i := MergeRole(roles[i], data)];
        r := Some(roles[i]);
      } else {
        r := None;
      }
    }

    // --- staff -----------------------------------------------------------------

    function GetStaffMember(id: string): (r: Option<StaffMember>)
      reads this
      ensures r.Some? ==> r.value in staff && r.value.id == id
      ensures r.Some? ==> exists i :: 0 <= i < |staff| && staff[i] == r.value &&
                                     forall j :: 0 <= j < i ==> staff[j].id != id
      ensures r.None? <==> forall i :: 0 <= i < |staff| ==> staff[i].id != id
    {
      Find(staff, StaffIdIs(id))
    }

    /** Every member holding the role, active or not, in table order. */
    function GetStaffByRole(roleId: string): (r: seq<StaffMember>)
      reads this
      ensures forall x :: x in r ==> x in staff && roleId in x.roleIds
      ensures forall x :: x in staff && roleId in x.roleIds ==> x in r
      ensures SubsequenceOf(r, staff)
      ensures forall x :: multiset(r)[x] == if roleId in x.roleIds then multiset(staff)[x] else 0
    {
      FilterMultiset(staff, HasRole(roleId));
      FilterMembers(staff, HasRole(roleId));
      FilterIsSubsequence(staff, HasRole(roleId));
      Filter(staff, HasRole(roleId))
    }

    method CreateStaffMember(member: StaffMember) returns (r: StaffMember)
      modifies this`staff
      ensures staff == old(staff) + [member] && r == member
    {
      staff := staff + [member];
      r := member;
    }

    method UpdateStaffMember(id: string, data: StaffPatch) returns (r: Option<StaffMember>)
      modifies this`staff
      ensures staff == UpdateFirst(old(staff), StaffIdIs(id), StaffMerger(data))
      ensures r == Updated(old(staff), StaffIdIs(id), StaffMerger(data))
    {
      var index := FindIndex(staff, StaffIdIs(id));
      if index.Some? {
        var i := index.value;
        staff := staff[i := MergeStaff(staff[i], data)];
        r := Some(staff[i]);
      } else {
        r := None;
      }
    }

    // --- role notification config ----------------------------------------------

    /** `now` is the value of `Date.now()` used for a new entry's id. */
    method UpdateRoleNotificationConfig(roleId: string, eventId: string, isEnabled: bool, now: nat)
      modifies this`roleNotificationConfig
      ensures roleNotificationConfig == UpsertConfig(old(roleNotificationConfig), roleId, eventId, isEnabled, now)
      ensures ConfigEnabled(roleNotificationConfig, roleId, eventId) == isEnabled
    {
      var existing := FindIndex(roleNotificationConfig, ConfigFor(roleId, eventId));
      if existing.Some? {
        var i := existing.value;
        roleNotificationConfig := roleNotificationConfig[i := roleNotificationConfig[i].(isEnabled := isEnabled)];
      } else {
        roleNotificationConfig := roleNotificationConfig +
          [RoleNotificationConfig("rnc_" + NatToString(now), roleId, eventId, isEnabled)];
      }
      UpsertConfigSpec(old(roleNotificationConfig), roleId, eventId, isEnabled, now);
    }

    // --- applications ----------------------------------------------------------

    function GetApplication(id: string): (r: Option<Application>)
      reads this
      ensures r.Some? ==> r.value in applications && r.value.id == id
      ensures r.Some? ==> exists i :: 0 <= i < |applications| && applications[i] == r.value &&
                                     forall j :: 0 <= j < i ==> applications[j].id != id
      ensures r.None? <==> forall i :: 0 <= i < |applications| ==> applications[i].id != id
    {
      Find(applications, ApplicationIdIs(id))
    }

    /** The merge is stamped with the current time `now` as `lastUpdatedAt`. */
    method UpdateApplication(id: string, data: ApplicationPatch, now: Timestamp) returns (r: Option<Application>)
      modifies this`applications
      ensures applications == UpdateFirst(old(applications), ApplicationIdIs(id), ApplicationMerger(data, now))
      ensures r == Updated(old(applications), ApplicationIdIs(id), ApplicationMerger(data, now))
      ensures r.Some? ==> r.value.lastUpdatedAt == now
    {
      var index := FindIndex(applications, ApplicationIdIs(id));
      if index.Some? {
        var i := index.value;
        applications := applications[i := MergeApplication(applications[i], data).(lastUpdatedAt := now)];
        r := Some(applications[i]);
      } else {
        r := None;
      }
    }

    // --- message logs ----------------------------------------------------------

    /** Sorts the stored table itself, newest first, and returns it. */
    method GetMessageLogs() returns (r: seq<MessageLog>)
      modifies this`messageLogs
      ensures messageLogs == SortBy(old(messageLogs), NewestFirst) && r == messageLogs
      ensures multiset(r) == multiset(old(messageLogs))
      ensures forall i, j :: 0 <= i < j < |r| ==> r[i].sentAt >= r[j].sentAt
    {
      SortBySpec(messageLogs, NewestFirst);
      messageLogs := SortBy(messageLogs, NewestFirst);
      r := messageLogs;
    }

    /** The application's logs, newest first: the same rows in the same order as
        getMessageLogs would list them, while the table is left as it is. */
    function GetMessageLogsForApplication(applicationId: string): (r: seq<MessageLog>)
      reads this
      ensures r == Filter(SortBy(messageLogs, NewestFirst), LogForApplication(applicationId))
      ensures multiset(r) == multiset(Filter(messageLogs, LogForApplication(applicationId)))
      ensures forall i :: 0 <= i < |r| ==> r[i].applicationId == applicationId
      ensures forall i, j :: 0 <= i < j < |r| ==> r[i].sentAt >= r[j].sentAt
    {
      LogsForApplicationSpec(messageLogs, applicationId);
      SortBy(Filter(messageLogs, LogForApplication(applicationId)), NewestFirst)
    }

    method CreateMessageLog(log: MessageLog) returns (r: MessageLog)
      modifies this`messageLogs
      ensures messageLogs == old(messageLogs) + [log] && r == log
    {
      messageLogs := messageLogs + [log];
      r := log;
    }

    /** Any patch is accepted: the status may move in any direction. */
    method UpdateMessageLog(id: string, data: MessageLogPatch) returns (r: Option<MessageLog>)
      modifies this`messageLogs
      ensures messageLogs == UpdateFirst(old(messageLogs), LogIdIs(id), MessageLogMerger(data))
      ensures r == Updated(old(messageLogs), LogIdIs(id), MessageLogMerger(data))
    {
      var index := FindIndex(messageLogs, LogIdIs(id));
      if index.Some? {
        var i := index.value;
        messageLogs := messageLogs[i := MergeMessageLog(messageLogs[i], data)];
        r := Some(messageLogs[i]);
      } else {
        r := None;
      }
    }

    // --- escalation rules ------------------------------------------------------

    function GetEscalationRulesForEvent(eventId: string): (r: seq<EscalationRule>)
      reads this
      ensures forall x :: x in r ==> x in escalationRules && x.eventId == eventId
      ensures forall x :: x in escalationRules && x.eventId == eventId ==> x in r
      ensures SubsequenceOf(r, escalationRules)
      ensures forall x :: multiset(r)[x] == if x.eventId == eventId then multiset(escalationRules)[x] else 0
    {
      FilterMultiset(escalationRules, EscalationRuleForEvent(eventId));
      FilterMembers(escalationRules, EscalationRuleForEvent(eventId));
      FilterIsSubsequence(escalationRules, EscalationRuleForEvent(eventId));
      Filter(escalationRules, EscalationRuleForEvent(eventId))
    }

    method CreateEscalationRule(rule: EscalationRule) returns (r: EscalationRule)
      modifies this`escalationRules
      ensures escalationRules == old(escalationRules) + [rule] && r == rule
    {
      escalationRules := escalationRules + [rule];
      r := rule;
    }

    method UpdateEscalationRule(id: string, data: EscalationRulePatch) returns (r: Option<EscalationRule>)
      modifies this`escalationRules
      ensures escalationRules == UpdateFirst(old(escalationRules), EscalationRuleIdIs(id), EscalationRuleMerger(data))
      ensures r == Updated(old(escalationRules), EscalationRuleIdIs(id), EscalationRuleMerger(data))
    {
      var index := FindIndex(escalationRules, EscalationRuleIdIs(id));
      if index.Some? {
        var i := index.value;
        escalationRules := escalationRules[i := MergeEscalationRule(escalationRules[i], data)];
        r := Some(escalationRules[i]);
      } else {
        r := None;
      }
    }

    method DeleteEscalationRule(id: string) returns (r: bool)
      modifies this`escalationRules
      ensures escalationRules == RemoveFirst(old(escalationRules), EscalationRuleIdIs(id))
      ensures r == FindIndex(old(escalationRules), EscalationRuleIdIs(id)).Some?
    {
      var index := FindIndex(escalationRules, EscalationRuleIdIs(id));
      if index.Some? {
        var i := index.value;
        escalationRules := escalationRules[..i] + escalationRules[i + 1..];
        r := true;
      } else {
        r := false;
      }
    }

    // --- analytics -------------------------------------------------------------

    /** One entry per channel, in channel order, each with ordered counts. */
    function GetChannelMetrics(): (r: seq<ChannelMetrics>)
      reads this
      ensures |r| == |channels|
      ensures forall i :: 0 <= i < |r| ==> r[i] == MetricsFor(messageLogs, channels[i].id)
      ensures forall i :: 0 <= i < |r| ==>
                r[i].channelId == channels[i].id &&
                r[i].totalSent == Count(messageLogs, LogOnChannel(channels[i].id)) &&
                r[i].replied <= r[i].openedCount <= r[i].delivered <= r[i].totalSent &&
                r[i].delivered + r[i].failed <= r[i].totalSent
    {
      assert forall id :: MetricsFor(messageLogs, id).channelId == id;
      ChannelMetricsFor(messageLogs, channels)
    }

    /** One entry per event, in event order. */
    function GetEventMetrics(): (r: seq<EventMetrics>)
      reads this
      ensures |r| == |events|
      ensures forall i :: 0 <= i < |r| ==> r[i] == EventMetricsFor(messageLogs, events[i].id)
      ensures forall i :: 0 <= i < |r| ==>
                r[i].eventId == events[i].id &&
                r[i].totalTriggered == Count(messageLogs, LogForEvent(events[i].id)) &&
                r[i].successfulDelivery <= r[i].totalTriggered &&
                0 <= r[i].responseRate <= 100
    {
      EventMetricsForAll(messageLogs, events)
    }

    function GetDashboardStats(): (r: DashboardStats)
      reads this
      ensures r == DashboardFor(applications, messageLogs, channels, events)
      ensures r.totalApplications == |applications| && r.totalMessagesSent == |messageLogs|
      ensures r.pendingApplications + r.completedApplications <= r.totalApplications
      ensures r.messagesReplied <= r.messagesDelivered <= r.totalMessagesSent
      ensures 0 <= r.responseRate <= r.deliveryRate <= 100
    {
      DashboardBounds(applications, messageLogs, channels, events);
      DashboardFor(applications, messageLogs, channels, events)
    }
  }

  /** `channels.map(...)`, proved entry by entry. */
  function ChannelMetricsFor(logs: seq<MessageLog>, channels: seq<Channel>): (r: seq<ChannelMetrics>)
    ensures |r| == |channels|
    ensures forall i :: 0 <= i < |r| ==> r[i] == MetricsFor(logs, channels[i].id)
    ensures forall i :: 0 <= i < |r| ==>
              r[i].channelId == channels[i].id &&
              r[i].totalSent == Count(logs, LogOnChannel(channels[i].id)) &&
              r[i].replied <= r[i].openedCount <= r[i].delivered <= r[i].totalSent &&
              r[i].delivered + r[i].failed <= r[i].totalSent
  {
    if channels == [] then []
    else
      MetricsBounds(logs, channels[0].id);
      [MetricsFor(logs, channels[0].id)] + ChannelMetricsFor(logs, channels[1..])
  }

  /** `events.map(...)`, proved entry by entry. */
  function EventMetricsForAll(logs: seq<MessageLog>, events: seq<OnboardingEvent>): (r: seq<EventMetrics>)
    ensures |r| == |events|
    ensures forall i :: 0 <= i < |r| ==> r[i] == EventMetricsFor(logs, events[i].id)
    ensures forall i :: 0 <= i < |r| ==>
              r[i].eventId == events[i].id &&
              r[i].totalTriggered == Count(logs, LogForEvent(events[i].id)) &&
              r[i].successfulDelivery <= r[i].totalTriggered &&
              0 <= r[i].responseRate <= 100
  {
    if events == [] then []
    else
      EventMetricsBounds(logs, events[0].id);
      [EventMetricsFor(logs, events[0].id)] + EventMetricsForAll(logs, events[1..])
  }

  // ---------------------------------------------------------------------------
  // what the mutators promise beyond their own call
  // ---------------------------------------------------------------------------

  /** createX performs no duplicate-id check: after appending a record whose id
      is already taken, lookups by that id still return the earlier record. */
  lemma {:induction false} CreateKeepsEarlierRecord(events: seq<OnboardingEvent>, event: OnboardingEvent)
    requires exists i :: 0 <= i < |events| && events[i].id == event.id
    ensures Find(events + [event], EventIdIs(event.id)) == Find(events, EventIdIs(event.id))
    ensures |Filter(events + [event], EventIdIs(event.id))| == |Filter(events, EventIdIs(event.id))| + 1
  {
    FindAfterAppend(events, event, EventIdIs(event.id));
    FilterSnoc(events, event, EventIdIs(event.id));
  }

  /** After an update whose patch leaves the id alone, looking the id up returns
      exactly the record the update returned, and the table keeps its length. */
  lemma {:induction false} UpdateThenGet(events: seq<OnboardingEvent>, id: string, data: EventPatch)
    requires data.id.None? || data.id == Some(id)
    ensures |UpdateFirst(events, EventIdIs(id), EventMerger(data))| == |events|
    ensures Find(UpdateFirst(events, EventIdIs(id), EventMerger(data)), EventIdIs(id)) ==
            Updated(events, EventIdIs(id), EventMerger(data))
  {
    UpdateFirstShape(events, EventIdIs(id), EventMerger(data));
    if FindIndex(events, EventIdIs(id)).Some? {
      UpdateFirstFound(events, EventIdIs(id), EventMerger(data));
    }
  }

  /** A delete removes one record with the id, when there is one, and keeps
      every record with another id, in order. */
  lemma {:induction false} DeleteRemovesOne(events: seq<OnboardingEvent>, id: string)
    ensures FindIndex(events, EventIdIs(id)).Some? ==>
              Count(RemoveFirst(events, EventIdIs(id)), EventIdIs(id)) == Count(events, EventIdIs(id)) - 1
    ensures FindIndex(events, EventIdIs(id)).None? ==> RemoveFirst(events, EventIdIs(id)) == events
    ensures Filter(RemoveFirst(events, EventIdIs(id)), Not(EventIdIs(id))) == Filter(events, Not(EventIdIs(id)))
  {
    RemoveFirstCounts(events, EventIdIs(id));
  }
}
