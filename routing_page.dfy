/**
  The logic of the routing-rules page: the rule form and what saving it
  writes to the store, the grouping of rules under their events, the
  priority order inside a group, and the labels the table shows.
 */
module RoutingPage {
  import opened Wrappers
  import opened Seqs
  import opened Text
  import opened Types
  import opened Store
  import opened Labels

  // ---------------------------------------------------------------------------
  // the form
  // ---------------------------------------------------------------------------

  datatype RuleForm = RuleForm(
    eventId: string, channelId: string, recipientType: RecipientType, priority: int,
    staffRoleIds: seq<string>, waitDaysBeforeEscalation: int, escalationChannelId: string,
    isActive: bool)

  /** The form's initial and reset state. */
  const BlankForm := RuleForm("", "", Customer, 1, [], 0, "", true)

  /** `parseInt(text) || 1`, the priority field. */
  function PriorityInput(text: string): int {
    var n := ParseInt(text);
    if n.Truthy() then n.value else 1
  }

  /** `parseInt(text) || 0`, the escalation-wait field. */
  function WaitDaysInput(text: string): int {
    var n := ParseInt(text);
    if n.Truthy() then n.value else 0
  }

  /** A typed number is taken as it is, except that a priority of 0 (or no
      number at all) becomes 1. */
  lemma {:induction false} NumberInputs(n: nat, rest: string)
    requires rest == [] || !IsDigit(rest[0])
    ensures PriorityInput(NatToString(n) + rest) == if n == 0 then 1 else n
    ensures WaitDaysInput(NatToString(n) + rest) == n
    ensures PriorityInput("-" + NatToString(n) + rest) == if n == 0 then 1 else -(n as int)
  {
    ParseIntRoundTrip(n, rest);
  }

  /** Text with no number at its head (after an optional sign) parses to NaN,
      which is falsy: the priority falls back to 1 and the wait to 0. */
  lemma {:induction false} NumberInputsNaN(text: string)
    requires text == [] || !IsWhite(text[0])
    requires var rest := if text != [] && (text[0] == '-' || text[0] == '+') then text[1..] else text;
             rest == [] || !IsDigit(rest[0])
    ensures ParseInt(text) == NaN
    ensures PriorityInput(text) == 1
    ensures WaitDaysInput(text) == 0
  {
    assert TrimStart(text) == text;
  }

  /** Choosing a role in the staff-role select: the list becomes that one id. */
  function SelectStaffRole(f: RuleForm, roleId: string): (r: RuleForm)
    ensures r.staffRoleIds == [roleId]
    ensures r.(staffRoleIds := f.staffRoleIds) == f
  {
    f.(staffRoleIds := [roleId])
  }

  /** The rule the form describes, under the given id, with no conditions. */
  function RuleFromForm(id: string, f: RuleForm): RoutingRule {
    RoutingRule(id, f.eventId, f.channelId, f.recipientType, f.priority, [], f.staffRoleIds,
                f.isActive, f.waitDaysBeforeEscalation, Some(f.escalationChannelId))
  }

  /** `openEditDialog(rule)`: the form filled from a rule. */
  function EditForm(rule: RoutingRule): RuleForm {
    RuleForm(rule.eventId, rule.channelId, rule.recipientType, rule.priority, rule.staffRoleIds,
             rule.waitDaysBeforeEscalation, rule.escalationChannelId.GetOr(""), rule.isActive)
  }

  /** `{ ...formData, conditions: [] }`: every field but the id is written. */
  function FormPatch(f: RuleForm): (p: RoutingRulePatch)
    ensures forall r :: MergeRoutingRule(r, p) == RuleFromForm(r.id, f)
  {
    RoutingRulePatch(None, Some(f.eventId), Some(f.channelId), Some(f.recipientType), Some(f.priority),
                     Some([]), Some(f.staffRoleIds), Some(f.isActive), Some(f.waitDaysBeforeEscalation),
                     Some(Some(f.escalationChannelId)))
  }

  /** `{ isActive }`: only the flag is written. */
  function ActivePatch(isActive: bool): (p: RoutingRulePatch)
    ensures forall r :: MergeRoutingRule(r, p) == r.(isActive := isActive)
  {
    RoutingRulePatch(None, None, None, None, None, None, None, Some(isActive), None, None)
  }

  /** Opening a rule for editing and saving it unchanged keeps the rule,
      except that its conditions are cleared and a missing escalation channel
      becomes the empty string. */
  lemma {:induction false} EditAndSaveUnchanged(rule: RoutingRule)
    ensures MergeRoutingRule(rule, FormPatch(EditForm(rule))) ==
            rule.(conditions := [], escalationChannelId := Some(rule.escalationChannelId.GetOr("")))
    ensures rule.conditions == [] && rule.escalationChannelId.Some? ==>
              MergeRoutingRule(rule, FormPatch(EditForm(rule))) == rule
  {
  }

  /** `handleCreateRule()` at time now: the store gains the form's rule under
      the id `rr_<now>`; the form is reset. */
  method HandleCreateRule(store: MessagingStore, form: RuleForm, now: nat) returns (rules: seq<RoutingRule>, form': RuleForm)
    modifies store`routingRules
    ensures store.routingRules == old(store.routingRules) + [RuleFromForm("rr_" + NatToString(now), form)]
    ensures rules == store.routingRules && form' == BlankForm
  {
    var created := store.CreateRoutingRule(RuleFromForm("rr_" + NatToString(now), form));
    rules := store.routingRules;
    form' := BlankForm;
  }

  /** `handleUpdateRule()`: with no rule being edited nothing happens;
      otherwise the edited rule is overwritten by the form. */
  method HandleUpdateRule(store: MessagingStore, editing: Option<RoutingRule>, form: RuleForm)
    returns (rules: seq<RoutingRule>, form': RuleForm)
    modifies store`routingRules
    ensures editing.None? ==> store.routingRules == old(store.routingRules) && form' == form
    ensures editing.Some? ==>
              store.routingRules ==
                UpdateFirst(old(store.routingRules), RoutingRuleIdIs(editing.value.id), RoutingRuleMerger(FormPatch(form))) &&
              form' == BlankForm
    ensures rules == store.routingRules
  {
    if editing.None? {
      rules, form' := store.routingRules, form;
      return;
    }
    var updated := store.UpdateRoutingRule(editing.value.id, FormPatch(form));
    rules, form' := store.routingRules, BlankForm;
  }

  /** `handleToggleActive(id, isActive)` */
  method HandleToggleActive(store: MessagingStore, id: string, isActive: bool) returns (rules: seq<RoutingRule>)
    modifies store`routingRules
    ensures store.routingRules == UpdateFirst(old(store.routingRules), RoutingRuleIdIs(id), RoutingRuleMerger(ActivePatch(isActive)))
    ensures rules == store.routingRules
  {
    var updated := store.UpdateRoutingRule(id, ActivePatch(isActive));
    rules := store.routingRules;
  }

  /** `handleDeleteRule(id)` */
  method HandleDeleteRule(store: MessagingStore, id: string) returns (rules: seq<RoutingRule>)
    modifies store`routingRules
    ensures store.routingRules == RemoveFirst(old(store.routingRules), RoutingRuleIdIs(id))
    ensures rules == store.routingRules
  {
    var deleted := store.DeleteRoutingRule(id);
    rules := store.routingRules;
  }

  /** Toggling a rule changes its flag and nothing else: the rule is still
      found under its id, with the new flag and its other fields as before. */
  lemma {:induction false} ToggleActiveSpec(rules: seq<RoutingRule>, id: string, isActive: bool)
    ensures var r := UpdateFirst(rules, RoutingRuleIdIs(id), RoutingRuleMerger(ActivePatch(isActive)));
            |r| == |rules| &&
            Find(r, RoutingRuleIdIs(id)) ==
              (match Find(rules, RoutingRuleIdIs(id))
               case None => None
               case Some(x) => Some(x.(isActive := isActive)))
  {
    var p := RoutingRuleIdIs(id);
    var f := RoutingRuleMerger(ActivePatch(isActive));
    UpdateFirstShape(rules, p, f);
    if FindIndex(rules, p).Some? {
      UpdateFirstFound(rules, p, f);
    }
  }

  // ---------------------------------------------------------------------------
  // grouping and ordering
  // ---------------------------------------------------------------------------

  datatype EventGroup = EventGroup(event: OnboardingEvent, rules: seq<RoutingRule>)

  /** `events.map(event => ({ event, rules: rules.filter(...) }))` */
  function GroupsOf(events: seq<OnboardingEvent>, rules: seq<RoutingRule>): seq<EventGroup> {
    seq(|events|, i requires 0 <= i < |events| =>
      EventGroup(events[i], Filter(rules, RoutingRuleForEvent(events[i].id))))
  }

  function HasRules(g: EventGroup): bool { |g.rules| > 0 }

  /** `rulesByEvent`: one group per event that has rules, in the store's event order. */
  function RulesByEvent(events: seq<OnboardingEvent>, rules: seq<RoutingRule>): (r: seq<EventGroup>)
    ensures forall g :: g in r ==>
              g.event in events && g.rules != [] && g.rules == Filter(rules, RoutingRuleForEvent(g.event.id))
    ensures forall e :: e in events && Filter(rules, RoutingRuleForEvent(e.id)) != [] ==>
              EventGroup(e, Filter(rules, RoutingRuleForEvent(e.id))) in r
    ensures SubsequenceOf(r, GroupsOf(events, rules))
    ensures forall g :: multiset(r)[g] == if g.rules != [] then multiset(GroupsOf(events, rules))[g] else 0
  {
    var all := GroupsOf(events, rules);
    GroupsMembers(events, rules);
    GroupsOrder(all);
    Filter(all, HasRules)
  }

  /** Dropping the empty groups keeps the order and the copies of the rest. */
  lemma {:induction false} GroupsOrder(all: seq<EventGroup>)
    ensures SubsequenceOf(Filter(all, HasRules), all)
    ensures forall g :: multiset(Filter(all, HasRules))[g] == if g.rules != [] then multiset(all)[g] else 0
  {
    FilterIsSubsequence(all, HasRules);
    FilterMultiset(all, HasRules);
  }

  /** The groups with rules are exactly the events' non-empty filters. */
  lemma {:induction false} GroupsMembers(events: seq<OnboardingEvent>, rules: seq<RoutingRule>)
    ensures var r := Filter(GroupsOf(events, rules), HasRules);
            && (forall g :: g in r ==>
                  g.event in events && g.rules != [] && g.rules == Filter(rules, RoutingRuleForEvent(g.event.id)))
            && (forall e :: e in events && Filter(rules, RoutingRuleForEvent(e.id)) != [] ==>
                  EventGroup(e, Filter(rules, RoutingRuleForEvent(e.id))) in r)
  {
    var all := GroupsOf(events, rules);
    FilterMembers(all, HasRules);
    forall g | g in all ensures g.event in events && g.rules == Filter(rules, RoutingRuleForEvent(g.event.id)) {
      var i :| 0 <= i < |all| && all[i] == g;
      assert g.event == events[i];
    }
    forall e | e in events ensures EventGroup(e, Filter(rules, RoutingRuleForEvent(e.id))) in all {
      var i :| 0 <= i < |events| && events[i] == e;
      assert all[i] == EventGroup(e, Filter(rules, RoutingRuleForEvent(e.id)));
    }
  }

  /** Each shown group holds every copy of its event's rules and nothing else. */
  lemma {:induction false} GroupRulesMultiset(events: seq<OnboardingEvent>, rules: seq<RoutingRule>,
                                              g: EventGroup, x: RoutingRule)
    requires g in RulesByEvent(events, rules)
    ensures multiset(g.rules)[x] == if x.eventId == g.event.id then multiset(rules)[x] else 0
  {
    FilterMultiset(rules, RoutingRuleForEvent(g.event.id));
  }

  /** A rule is shown exactly when some event has its event id: rules of an
      unknown event are never listed. */
  lemma {:induction false} ShownRules(events: seq<OnboardingEvent>, rules: seq<RoutingRule>, x: RoutingRule)
    requires x in rules
    ensures (exists g :: g in RulesByEvent(events, rules) && x in g.rules) <==>
            (exists e :: e in events && e.id == x.eventId)
  {
    var r := RulesByEvent(events, rules);
    if exists e :: e in events && e.id == x.eventId {
      var e :| e in events && e.id == x.eventId;
      FilterMembers(rules, RoutingRuleForEvent(e.id));
      assert x in Filter(rules, RoutingRuleForEvent(e.id));
      assert EventGroup(e, Filter(rules, RoutingRuleForEvent(e.id))) in r;
    }
    if exists g :: g in r && x in g.rules {
      var g :| g in r && x in g.rules;
      FilterMembers(rules, RoutingRuleForEvent(g.event.id));
    }
  }

  function Priority(r: RoutingRule): int { r.priority }

  /** `eventRules.sort((a, b) => a.priority - b.priority)`: ascending priority,
      a permutation of the group. */
  function ByPriority(rules: seq<RoutingRule>): (r: seq<RoutingRule>)
    ensures SortedBy(r, Priority)
    ensures multiset(r) == multiset(rules)
  {
    SortBySpec(rules, Priority);
    SortBy(rules, Priority)
  }

  function PriorityIs(k: int): RoutingRule -> bool { (x: RoutingRule) => x.priority == k }

  /** The sort is stable: rules of equal priority keep their store order. */
  lemma {:induction false} ByPriorityStable(rules: seq<RoutingRule>, k: int)
    ensures Filter(ByPriority(rules), PriorityIs(k)) == Filter(rules, PriorityIs(k))
  {
    var f := Filter(rules, PriorityIs(k));
    FilterSortBy(rules, Priority, PriorityIs(k));
    FilterMembers(rules, PriorityIs(k));
    forall i | 0 <= i < |f| ensures Priority(f[i]) == k {
      assert f[i] in f;
    }
    SortByConstant(f, Priority, k);
  }

  // ---------------------------------------------------------------------------
  // labels
  // ---------------------------------------------------------------------------

  /** `getRoleNames(roleIds)`: the labels joined with ", ". */
  function RoleNames(roles: seq<StaffRole>, ids: seq<string>): string {
    Join(RoleLabels(roles, ids), ", ")
  }

  /** The names read left to right: one more id adds ", " and its label. */
  lemma {:induction false} RoleNamesSnoc(roles: seq<StaffRole>, ids: seq<string>, id: string)
    ensures RoleNames(roles, [id]) == RoleLabel(roles, id)
    ensures ids != [] ==> RoleNames(roles, ids + [id]) == RoleNames(roles, ids) + ", " + RoleLabel(roles, id)
  {
    if ids != [] {
      assert RoleLabels(roles, ids + [id]) == RoleLabels(roles, ids) + [RoleLabel(roles, id)];
      JoinSnoc(RoleLabels(roles, ids), RoleLabel(roles, id), ", ");
    }
  }

  lemma {:induction false} JoinSnoc(pieces: seq<string>, last: string, sep: string)
    requires pieces != []
    ensures Join(pieces + [last], sep) == Join(pieces, sep) + sep + last
    decreases |pieces|
  {
    if |pieces| == 1 {
      assert (pieces + [last])[1..] == [last];
    } else {
      assert (pieces + [last])[1..] == pieces[1..] + [last];
      JoinSnoc(pieces[1..], last, sep);
    }
  }

  /** The escalation cell shows a channel only for a positive wait and a
      non-empty escalation channel; otherwise it reads "None". */
  predicate EscalationShown(rule: RoutingRule) {
    rule.waitDaysBeforeEscalation > 0 && rule.escalationChannelId.Some? && rule.escalationChannelId.value != ""
  }

  /** A rule saved from the blank form never shows an escalation; one saved
      with a typed wait and a chosen channel does. */
  lemma {:induction false} EscalationFromForm(id: string, f: RuleForm, days: nat, channelId: string)
    requires days > 0 && channelId != ""
    ensures !EscalationShown(RuleFromForm(id, BlankForm))
    ensures EscalationShown(RuleFromForm(id, f.(waitDaysBeforeEscalation := WaitDaysInput(NatToString(days)),
                                                  escalationChannelId := channelId)))
  {
    NumberInputs(days, "");
    assert NatToString(days) + "" == NatToString(days);
  }
}
