/**
  The logic of the escalation-rules page. The page keeps its own copy of the
  rule list: saving, toggling and deleting change that copy only, never the
  store.
 */
module EscalationPage {
  import opened Wrappers
  import opened Seqs
  import opened Text
  import opened Types
  import opened Store

  // ---------------------------------------------------------------------------
  // handleSave
  // ---------------------------------------------------------------------------

  /** The `Partial<EscalationRule>` the dialog edits; the number fields hold
      what `Number.parseInt` made of the input. */
  datatype RuleDraft = RuleDraft(
    eventId: Option<string>, fromChannelId: Option<string>, toChannelId: Option<string>,
    waitDays: Option<JsInt>, maxAttempts: Option<JsInt>, isActive: Option<bool>)

  /** The dialog's initial and reset state. */
  const BlankDraft := RuleDraft(Some(""), Some(""), Some(""), Some(Num(3)), Some(Num(2)), Some(true))

  /** A truthy string: present and non-empty. */
  predicate Filled(v: Option<string>) {
    v.Some? && v.value != ""
  }

  /** `v || fallback` on a number field: a missing, NaN or zero value falls back. */
  function NumberOr(v: Option<JsInt>, fallback: int): int {
    if v.Some? && v.value.Truthy() then v.value.value else fallback
  }

  /** The three choices a rule needs before it can be saved. */
  predicate CanSave(d: RuleDraft) {
    Filled(d.eventId) && Filled(d.fromChannelId) && Filled(d.toChannelId)
  }

  datatype SaveResult = SaveResult(rules: seq<EscalationRule>, draft: RuleDraft)

  /** `handleSave()` at time now (`Date.now()` gives the id). */
  function HandleSave(rules: seq<EscalationRule>, d: RuleDraft, now: nat): (r: SaveResult)
    ensures !CanSave(d) ==> r == SaveResult(rules, d)
    ensures CanSave(d) ==>
              && |r.rules| == |rules| + 1
              && r.rules[..|rules|] == rules
              && r.draft == BlankDraft
              && var added := r.rules[|rules|];
                 && added.id == "esc_" + NatToString(now)
                 && added.eventId == d.eventId.value
                 && added.fromChannelId == d.fromChannelId.value
                 && added.toChannelId == d.toChannelId.value
                 && added.waitDays != 0 && added.maxAttempts != 0
                 && added.waitDays == (if d.waitDays.Some? && d.waitDays.value.Truthy() then d.waitDays.value.value else 3)
                 && added.maxAttempts == (if d.maxAttempts.Some? && d.maxAttempts.value.Truthy() then d.maxAttempts.value.value else 2)
                 && added.isActive == (d.isActive.None? || d.isActive.value)
  {
    if CanSave(d) then
      var rule := EscalationRule("esc_" + NatToString(now), d.eventId.value, d.fromChannelId.value,
                                 d.toChannelId.value, NumberOr(d.waitDays, 3), NumberOr(d.maxAttempts, 2),
                                 d.isActive.GetOr(true));
      SaveResult(rules + [rule], BlankDraft)
    else
      SaveResult(rules, d)
  }

  /** Nothing beyond non-empty choices is checked: a rule escalating from a
      channel to that same channel is saved, and so is a negative wait typed
      into the field. */
  lemma {:induction false} SaveChecksNothingElse(rules: seq<EscalationRule>, eventId: string, channelId: string, days: nat, now: nat)
    requires eventId != "" && channelId != "" && days > 0
    ensures var d := RuleDraft(Some(eventId), Some(channelId), Some(channelId),
                               Some(ParseInt("-" + NatToString(days))), None, None);
            var r := HandleSave(rules, d, now).rules;
            |r| == |rules| + 1 &&
            r[|rules|].fromChannelId == r[|rules|].toChannelId &&
            r[|rules|].waitDays == -(days as int) && r[|rules|].maxAttempts == 2 && r[|rules|].isActive
  {
    ParseIntRoundTrip(days, "");
    assert "-" + NatToString(days) + "" == "-" + NatToString(days);
  }

  // ---------------------------------------------------------------------------
  // toggleRuleActive and deleteRule
  // ---------------------------------------------------------------------------

  /** `toggleRuleActive(ruleId)`: every rule with the id has its flag flipped. */
  function ToggleRuleActive(rules: seq<EscalationRule>, ruleId: string): (r: seq<EscalationRule>)
    ensures |r| == |rules|
    ensures forall i :: 0 <= i < |r| ==>
              r[i].isActive == (if rules[i].id == ruleId then !rules[i].isActive else rules[i].isActive) &&
              r[i].(isActive := rules[i].isActive) == rules[i]
  {
    seq(|rules|, i requires 0 <= i < |rules| =>
      if rules[i].id == ruleId then rules[i].(isActive := !rules[i].isActive) else rules[i])
  }

  /** Toggling twice restores the list. */
  lemma {:induction false} ToggleTwice(rules: seq<EscalationRule>, ruleId: string)
    ensures ToggleRuleActive(ToggleRuleActive(rules, ruleId), ruleId) == rules
  {
    var once := ToggleRuleActive(rules, ruleId);
    var twice := ToggleRuleActive(once, ruleId);
    forall i | 0 <= i < |rules| ensures twice[i] == rules[i] {
      assert once[i].id == rules[i].id;
    }
  }

  /** `deleteRule(ruleId)`: every rule with the id goes, the rest stay in order. */
  function DeleteRule(rules: seq<EscalationRule>, ruleId: string): (r: seq<EscalationRule>)
    ensures forall x :: x in r ==> x in rules && x.id != ruleId
    ensures forall x :: x in rules && x.id != ruleId ==> x in r
    ensures SubsequenceOf(r, rules)
    ensures forall x :: multiset(r)[x] == if x.id != ruleId then multiset(rules)[x] else 0
  {
    FilterMultiset(rules, Not(EscalationRuleIdIs(ruleId)));
    FilterMembers(rules, Not(EscalationRuleIdIs(ruleId)));
    FilterIsSubsequence(rules, Not(EscalationRuleIdIs(ruleId)));
    Filter(rules, Not(EscalationRuleIdIs(ruleId)))
  }

  /** Where ids are unique the page's delete agrees with the store's, which
      removes only the first rule with the id. */
  lemma {:induction false} DeleteAgreesWithStore(rules: seq<EscalationRule>, ruleId: string)
    requires forall i, j :: 0 <= i < j < |rules| && rules[i].id == ruleId ==> rules[j].id != ruleId
    ensures DeleteRule(rules, ruleId) == RemoveFirst(rules, EscalationRuleIdIs(ruleId))
  {
    RemoveFirstOfUnique(rules, EscalationRuleIdIs(ruleId));
  }

  // ---------------------------------------------------------------------------
  // getChannelType
  // ---------------------------------------------------------------------------

  /** The type of the first channel with the id; "email" for an unknown id. */
  function GetChannelType(channels: seq<Channel>, channelId: string): (r: ChannelType)
    ensures (forall i :: 0 <= i < |channels| ==> channels[i].id != channelId) ==> r == Email
    ensures (exists i :: 0 <= i < |channels| && channels[i].id == channelId) ==>
              exists i :: 0 <= i < |channels| && channels[i].id == channelId && r == channels[i].kind &&
                forall j :: 0 <= j < i ==> channels[j].id != channelId
  {
    match Find(channels, ChannelIdIs(channelId))
    case Some(c) => c.kind
    case None => Email
  }

  // ---------------------------------------------------------------------------
  // rulesByEvent
  // ---------------------------------------------------------------------------

  function EventIds(rules: seq<EscalationRule>): (ids: seq<string>)
    ensures |ids| == |rules|
    ensures forall i :: 0 <= i < |rules| ==> ids[i] == rules[i].eventId
  {
    seq(|rules|, i requires 0 <= i < |rules| => rules[i].eventId)
  }

  /** `keys` and `groups` are the grouping of `done`. */
  ghost predicate GroupedAs(done: seq<EscalationRule>, keys: seq<string>, groups: map<string, seq<EscalationRule>>) {
    && keys == Dedupe(EventIds(done))
    && (forall k :: k in groups <==> k in keys)
    && (forall k :: k in groups ==> groups[k] == Filter(done, EscalationRuleForEvent(k)))
  }

  /** The `reduce` that groups the rules under their event id. `keys` is the
      order in which `Object.entries` lists the groups: the order the ids were
      first added. */
  method RulesByEvent(rules: seq<EscalationRule>) returns (keys: seq<string>, groups: map<string, seq<EscalationRule>>)
    ensures keys == Dedupe(EventIds(rules))
    ensures forall k :: k in groups <==> k in keys
    ensures forall k :: k in groups ==> groups[k] == Filter(rules, EscalationRuleForEvent(k))
  {
    keys := [];
    groups := map[];
    var i := 0;
    while i < |rules|
      invariant 0 <= i <= |rules|
      invariant GroupedAs(rules[..i], keys, groups)
    {
      var rule := rules[i];
      GroupStep(rules[..i], rule, keys, groups);
      assert rules[..i + 1] == rules[..i] + [rule];
      if rule.eventId !in groups {
        keys := keys + [rule.eventId];
        groups := groups[rule.eventId := []];
      }
      groups := groups[rule.eventId := groups[rule.eventId] + [rule]];
      i := i + 1;
    }
    assert rules[..i] == rules;
  }

  /** One step of the reduce: adding a rule to the grouping of `done`. */
  lemma {:induction false} GroupStep(done: seq<EscalationRule>, rule: EscalationRule, keys: seq<string>, groups: map<string, seq<EscalationRule>>)
    requires GroupedAs(done, keys, groups)
    ensures var keys' := if rule.eventId in groups then keys else keys + [rule.eventId];
            var start := if rule.eventId in groups then groups else groups[rule.eventId := []];
            GroupedAs(done + [rule], keys', start[rule.eventId := start[rule.eventId] + [rule]])
  {
    var e := rule.eventId;
    EventIdsStep(done, rule);
    var start := if e in groups then groups else groups[e := []];
    assert forall k :: k in start ==> start[k] == Filter(done, EscalationRuleForEvent(k)) by {
      if e !in groups {
        UnseenEventNoRules(done, e);
      }
    }
    forall k | k in start
      ensures (start[e := start[e] + [rule]])[k] == Filter(done + [rule], EscalationRuleForEvent(k))
    {
      FilterSnoc(done, rule, EscalationRuleForEvent(k));
    }
  }

  /** The ids of one more rule, and their first appearances. */
  lemma {:induction false} EventIdsStep(done: seq<EscalationRule>, rule: EscalationRule)
    ensures Dedupe(EventIds(done + [rule])) ==
            Dedupe(EventIds(done)) + (if rule.eventId in Dedupe(EventIds(done)) then [] else [rule.eventId])
  {
    var ids := EventIds(done + [rule]);
    assert ids[..|ids| - 1] == EventIds(done);
    DedupeSpec(EventIds(done));
  }

  /** An event with no id among the rules has an empty group. */
  lemma {:induction false} UnseenEventNoRules(done: seq<EscalationRule>, e: string)
    requires e !in Dedupe(EventIds(done))
    ensures Filter(done, EscalationRuleForEvent(e)) == []
  {
    DedupeSpec(EventIds(done));
    forall x | x in done ensures !EscalationRuleForEvent(e)(x) {
      var j :| 0 <= j < |done| && done[j] == x;
      assert EventIds(done)[j] == x.eventId;
    }
    FilterNone(done, EscalationRuleForEvent(e));
  }

  /** The groups partition the rules: each rule lies in the group of its own
      event and in no other, groups follow first appearance, and each group
      keeps the rules' order. */
  lemma {:induction false} RulesByEventPartition(rules: seq<EscalationRule>)
    ensures forall i :: 0 <= i < |rules| ==>
              rules[i].eventId in Dedupe(EventIds(rules)) &&
              rules[i] in Filter(rules, EscalationRuleForEvent(rules[i].eventId))
    ensures forall k, x :: x in Filter(rules, EscalationRuleForEvent(k)) ==> x.eventId == k
    ensures forall k :: SubsequenceOf(Filter(rules, EscalationRuleForEvent(k)), rules)
    ensures NoDuplicates(Dedupe(EventIds(rules)))
  {
    DedupeSpec(EventIds(rules));
    forall k ensures (forall x :: x in Filter(rules, EscalationRuleForEvent(k)) ==> x.eventId == k) &&
                     (forall x :: x in rules && x.eventId == k ==> x in Filter(rules, EscalationRuleForEvent(k))) &&
                     SubsequenceOf(Filter(rules, EscalationRuleForEvent(k)), rules)
    {
      FilterMembers(rules, EscalationRuleForEvent(k));
      FilterIsSubsequence(rules, EscalationRuleForEvent(k));
    }
    forall i | 0 <= i < |rules|
      ensures rules[i].eventId in Dedupe(EventIds(rules))
    {
      assert EventIds(rules)[i] == rules[i].eventId;
    }
  }
}
