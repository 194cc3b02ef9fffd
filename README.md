# Onboarding nudge agent — a Dafny model

The onboarding nudge agent is a Next.js admin console. Operators use it to
configure how an onboarding team messages applicants and staff. Everything
it keeps lives in one in-memory object, `MessagingStore`. The store holds ten
tables: channels, onboarding events, routing rules, message templates, staff
roles, staff members, role-by-event notification switches, applications,
message logs and escalation rules. The pages read and write these tables and
add their own list logic: searches, groupings, sort orders, counts, template
variable extraction and placeholder substitution.

This project models:

* **The store** (`store.dfy`, module `Store`). `MessagingStore` is a class with
  one `seq` field per table.
  * Every create method appends.
  * Every update merges a patch into the first record with the id.
  * Every delete splices out the first record with the id.
  * The notification switch is an upsert.
  * `GetMessageLogs` sorts the stored table in place.
  * Each method names the one field it may change, and its contract gives
    that field's new value in terms of the old one.
  * The analytics queries are functions over the tables.
* **Template variables** (`templates_page.dfy`):
  * `{{…}}` token extraction, with de-duplication in first-occurrence order;
  * the edit handlers that keep a template's variable list in step with its
    text;
  * the preview renderer, a loop of global replacements.
* **The send page** (`send_page.dfy`): the substitution loop over the
  eight-entry placeholder table, the application and template filters, and
  the guard and record of the send action.
* **The list logic of the other pages.** Each page has its own module:
  * escalation rules: validation and defaults on save, toggle, delete, and the
    grouping `reduce`;
  * routing rules: grouping under events, stable priority order, the form and
    its numeric inputs;
  * message logs: filter and counts;
  * applications: staff name, message count, last activity, stalled test, and
    status counts;
  * staff: search, checkbox lists, role cards, and notification switches.

Shared pieces:

* `seqs.dfy`: `Array.prototype` behaviour (find, filter, count, first-index
  update and removal, de-duplication, stable sort).
* `text.dfy`: string behaviour (`toLowerCase`, `includes`, `trim`, `join`,
  global `replace`, `parseInt`, decimal rendering). The pages never call
  `split`: `Text.Split` only describes the global replace, as the pieces
  between the matches of the pattern.
* `labels.dfy`: the `find(...)?.name || id` lookups the pages share.
* `types.dfy`: the records, enumerations and `Partial<T>` patches.
* `wrappers.dfy`: `Option`.

The clock is a parameter wherever the code reads it: `now` in milliseconds,
which also gives the `prefix_${Date.now()}` ids. Timestamps are modelled as
their millisecond values.

Facts about the code that shape the model:

* **No rule engine.** Nothing in the code resolves routing rules, schedules
  escalations or moves a message through delivery states. Routing and
  escalation rules are stored data that the pages list and edit, and nothing
  more. `Store.MessagingStore.UpdateMessageLog` merges any patch, status
  included, without checking any order of states.
* **Send page recipient type.** The send page records the recipient type as
  "customer" or "staff". The declared type says "internal_staff". The model
  records what the page writes.
* **Send page channel.** The send page's selected channel holds a channel id,
  even though it is typed as a channel type.

## Model

| member | source | states |
|---|---|---|
| Store.MessagingStore.constructor | lib/messaging/store.ts:32-41 | each of the ten tables starts as its seed data |
| Store.MessagingStore.GetChannel | lib/messaging/store.ts:48-50 | a found channel is the first in table order with the id; nothing is found exactly when no channel has the id |
| Store.MessagingStore.UpdateChannel | lib/messaging/store.ts:52-59 | only the first channel with the id is replaced by its merge with the patch, and the merged record is returned; with no such channel the table is unchanged and nothing is returned |
| Store.MessagingStore.GetEvent | lib/messaging/store.ts:66-68 | a found event is the first in table order with the id; nothing is found exactly when no event has the id |
| Store.MessagingStore.CreateEvent | lib/messaging/store.ts:70-73 | the event is appended after the unchanged old table and returned |
| Store.MessagingStore.UpdateEvent | lib/messaging/store.ts:75-82 | only the first event with the id is merged with the patch and returned; an absent id leaves the table unchanged and returns nothing |
| Store.MessagingStore.DeleteEvent | lib/messaging/store.ts:84-91 | the first event with the id is spliced out and true is returned; an absent id leaves the table unchanged and returns false |
| Store.MessagingStore.GetRoutingRulesForEvent | lib/messaging/store.ts:98-100 | exactly the rules of the event, in table order, each as many times as the table holds it |
| Store.MessagingStore.CreateRoutingRule | lib/messaging/store.ts:102-105 | the rule is appended and returned |
| Store.MessagingStore.UpdateRoutingRule | lib/messaging/store.ts:107-114 | only the first rule with the id is merged and returned; an absent id changes nothing |
| Store.MessagingStore.DeleteRoutingRule | lib/messaging/store.ts:116-123 | the first rule with the id is removed and true returned; otherwise false and no change |
| Store.MessagingStore.GetTemplate | lib/messaging/store.ts:130-132 | a found template is the first in table order with the id; nothing is found exactly when no template has it |
| Store.MessagingStore.GetTemplatesForEvent | lib/messaging/store.ts:134-136 | exactly the templates of the event, in table order, each as many times as the table holds it |
| Store.MessagingStore.GetTemplateForEventAndChannel | lib/messaging/store.ts:138-142 | the first template in table order matching event, channel and recipient type, active or not; nothing exactly when none matches |
| Store.MessagingStore.CreateTemplate | lib/messaging/store.ts:144-147 | the template is appended and returned |
| Store.MessagingStore.UpdateTemplate | lib/messaging/store.ts:149-156 | the first template with the id is merged, stamped with the current time as `updatedAt`, and returned; an absent id changes nothing |
| Store.MessagingStore.DeleteTemplate | lib/messaging/store.ts:158-165 | the first template with the id is removed and true returned; otherwise false and no change |
| Store.MessagingStore.GetRole | lib/messaging/store.ts:172-174 | a found role is the first in table order with the id; nothing is found exactly when no role has it |
| Store.MessagingStore.CreateRole | lib/messaging/store.ts:176-179 | the role is appended and returned |
| Store.MessagingStore.UpdateRole | lib/messaging/store.ts:181-188 | only the first role with the id is merged and returned; an absent id changes nothing |
| Store.MessagingStore.GetStaffMember | lib/messaging/store.ts:195-197 | a found member is the first in table order with the id; nothing is found exactly when no member has it |
| Store.MessagingStore.GetStaffByRole | lib/messaging/store.ts:199-201 | exactly the members whose role list contains the role, active or not, in table order, each as many times as the table holds it |
| Store.MessagingStore.CreateStaffMember | lib/messaging/store.ts:203-206 | the member is appended and returned |
| Store.MessagingStore.UpdateStaffMember | lib/messaging/store.ts:208-215 | only the first member with the id is merged and returned; an absent id changes nothing |
| Store.MessagingStore.UpdateRoleNotificationConfig | lib/messaging/store.ts:222-234 | the table becomes the upsert of the pair, and the pair then reads back the flag just written |
| Store.UpsertConfigSpec | lib/messaging/store.ts:222-234 | after the upsert the first entry for the pair has the new flag; the table grows by one exactly when the pair had no entry; every other pair looks up the same entry as before |
| Store.MessagingStore.GetApplication | lib/messaging/store.ts:241-243 | a found application is the first in table order with the id; nothing is found exactly when none has it |
| Store.MessagingStore.UpdateApplication | lib/messaging/store.ts:245-252 | the first application with the id is merged, stamped with the current time as `lastUpdatedAt`, and returned; an absent id changes nothing |
| Store.MessagingStore.GetMessageLogs | lib/messaging/store.ts:255-257 | the stored table itself is permuted into newest-first order (a stable sort) and returned |
| Store.MessagingStore.GetMessageLogsForApplication | lib/messaging/store.ts:259-263 | only that application's logs, newest first, a permutation of its logs, the same rows in the same order as filtering the sorted table; the table is not reordered |
| Store.LogsForApplicationSpec | lib/messaging/store.ts:259-263 | filtering then sorting equals sorting then filtering, and the result holds only the application's logs in non-increasing send time |
| Store.MessagingStore.CreateMessageLog | lib/messaging/store.ts:265-268 | the log is appended and returned |
| Store.MessagingStore.UpdateMessageLog | lib/messaging/store.ts:270-277 | the first log with the id is merged with any patch, status included, and returned; an absent id changes nothing |
| Store.MessagingStore.GetEscalationRulesForEvent | lib/messaging/store.ts:284-286 | exactly the escalation rules of the event, in order, each as many times as the table holds it |
| Store.MessagingStore.CreateEscalationRule | lib/messaging/store.ts:288-291 | the rule is appended and returned |
| Store.MessagingStore.UpdateEscalationRule | lib/messaging/store.ts:293-300 | only the first rule with the id is merged and returned; an absent id changes nothing |
| Store.MessagingStore.DeleteEscalationRule | lib/messaging/store.ts:302-309 | the first rule with the id is removed and true returned; otherwise false and no change |
| Store.CreateKeepsEarlierRecord | lib/messaging/store.ts:70-73 | create makes no duplicate-id check: after appending a record with a taken id, a lookup still finds the earlier record, and the id occurs once more |
| Store.UpdateThenGet | lib/messaging/store.ts:75-82 | after an update that keeps the id, the table keeps its length and a lookup by the id returns exactly the record the update returned |
| Store.DeleteRemovesOne | lib/messaging/store.ts:84-91 | a delete lowers the number of records with the id by one when there is one, changes nothing otherwise, and keeps every record with another id in order |
| Store.MetricsBounds | lib/messaging/store.ts:313-318 | per channel, replied ≤ opened ≤ delivered ≤ sent and delivered + failed ≤ sent, where sent counts the channel's logs |
| Store.MetricsCounts | lib/messaging/store.ts:313-318 | per channel: sent counts its logs; delivered its delivered, opened, clicked and replied logs; opened its opened, clicked and replied logs; replied its replied logs; failed its failed and bounced logs |
| Store.ChannelMetricsFor | lib/messaging/store.ts:312-341 | one entry per channel, in channel order, each the metrics of that channel id over the logs |
| Store.MessagingStore.GetChannelMetrics | lib/messaging/store.ts:312-341 | entry i is the metrics of the i-th channel over the store's logs, whose counts are given by Store.MetricsCounts |
| Store.RoundPercentSpec | lib/messaging/store.ts:353 | the percentage is the nearest whole number to 100·part/whole, with halves rounded up, and lies in 0..100 when part ≤ whole |
| Store.EventMetricsBounds | lib/messaging/store.ts:343-357 | per event, delivered ≤ triggered, the response rate lies in 0..100, and it is 0 for an event with no logs |
| Store.EventMetricsCounts | lib/messaging/store.ts:345-353 | per event: triggered counts its logs, successful delivery its delivered, opened, clicked and replied logs, and the response rate is the rounded percentage of replied logs, 0 with no logs |
| Store.EventMetricsForAll | lib/messaging/store.ts:343-357 | one entry per event, in event order, each the metrics of that event id over the logs |
| Store.MessagingStore.GetEventMetrics | lib/messaging/store.ts:343-357 | entry i is the metrics of the i-th event over the store's logs, whose counts are given by Store.EventMetricsCounts |
| Store.DashboardBounds | lib/messaging/store.ts:359-387 | pending + completed ≤ applications; replied ≤ delivered ≤ sent; both rates in 0..100 with the response rate never above the delivery rate; active counts bounded by their tables |
| Store.DashboardApplicationCounts | lib/messaging/store.ts:361-366 | pending counts the submitted, documents-pending, under-review and additional-info applications; completed the approved and completed ones |
| Store.DashboardMessageCounts | lib/messaging/store.ts:367-385 | delivered and replied count the matching logs, the rates are their rounded percentages of all logs (0 with no logs), and the active counts count active channels and events |
| Store.MessagingStore.GetDashboardStats | lib/messaging/store.ts:359-387 | the dashboard over the store's applications, logs, channels and events, whose counts are given by Store.DashboardApplicationCounts and Store.DashboardMessageCounts |
| Seqs.FindIndex | lib/messaging/store.ts:53 | `findIndex`: the first index whose element satisfies the test, or none exactly when no element does |
| Seqs.UpdateFirstShape | lib/messaging/store.ts:54-55 | an update at the first match keeps the length and changes only that index |
| Seqs.RemoveFirstCounts | lib/messaging/store.ts:86-88 | splicing out the first match removes exactly one matching element and keeps the others in order |
| Seqs.FilterMultiset | lib/messaging/store.ts:98-100 | `filter` keeps every element the test accepts as many times as the list holds it, and drops every other |
| Seqs.CountIndices | lib/messaging/store.ts:314-318 | `filter(...).length` is the number of positions whose element the test accepts |
| Seqs.CountWithin | lib/messaging/store.ts:314-318 | counting within a filtered list counts the positions that pass both tests |
| Seqs.FilterFilter | lib/messaging/store.ts:314-318 | filtering a filtered list is one filter by both tests |
| Seqs.DedupeSpec | app/templates/page.tsx:133 | `[...new Set(xs)]` has no duplicates, keeps exactly the elements of xs, and orders them by first occurrence |
| Seqs.SortBySpec | lib/messaging/store.ts:256 | the stable sort yields a non-decreasing permutation of its input |
| Seqs.FilterSortBy | lib/messaging/store.ts:259-262 | filtering commutes with the stable sort |
| Seqs.SortByIdempotent | lib/messaging/store.ts:256 | sorting an already sorted table changes nothing |
| Text.ToLower | app/logs/page.tsx:64-66 | lower-casing keeps the length and lowers each letter |
| Text.ContainsAt | app/logs/page.tsx:64-66 | `includes` holds exactly when the needle occurs at some position |
| Text.EmptyQueryMatches | app/logs/page.tsx:64-66 | an empty search matches every string |
| Text.NatToString | lib/messaging/store.ts:228 | the id suffix of `Date.now()` is a non-empty run of digits without a leading zero |
| Text.ParseIntRoundTrip | app/escalation/page.tsx:255 | `parseInt` reads back a rendered number, signed or not, whatever non-digit text follows |
| Text.SplitJoin | app/send/page.tsx:141 | about the auxiliary split behind the global replace: joining the pieces with the pattern gives the text again |
| Text.SplitLeftmost | app/send/page.tsx:141 | the pieces of a split hold no match and end at the leftmost matches |
| Text.ReplaceAllIsSplitJoin | app/send/page.tsx:141 | a global replace puts the value between the pieces split at the pattern: every occurrence, left to right, without overlap |
| Text.ReplaceAllAbsent | app/send/page.tsx:141 | text without the pattern is left unchanged |
| Text.ReplaceEachUntouched | app/send/page.tsx:140-143 | text holding none of a table's patterns comes through the whole table unchanged |
| Text.ReplaceEachFront | app/send/page.tsx:140-143 | the table is applied entry by entry, first entry first |
| Text.TrimSpec | app/templates/page.tsx:133 | `trim` returns a slice of the text whose dropped ends are all white space and whose own ends are not |
| TemplatesPage.FilteredTemplates | app/templates/page.tsx:64-71 | a template is listed exactly when its body or subject contains the search, ignoring case, and the event and channel filters are "all" or equal; table order and multiplicity kept |
| TemplatesPage.UnfilteredShowsAll | app/templates/page.tsx:64-71 | an empty search with both filters on "all" lists every template |
| TemplatesPage.RunLength | app/templates/page.tsx:131 | `[^}]+` consumes the longest run of characters other than '}' |
| TemplatesPage.TokensSpec | app/templates/page.tsx:131 | every matched token is a non-empty run free of '}' that occurs braced in the text |
| TemplatesPage.NameOfSpec | app/templates/page.tsx:133 | a variable name is the captured run with its braces stripped and white space trimmed, and never contains '}' |
| TemplatesPage.ExtractVariablesSpec | app/templates/page.tsx:130-134 | the variables have no duplicates; each is the name of a token in the text; every token's name is among them; order is by first occurrence |
| TemplatesPage.NoTokensNoVariables | app/templates/page.tsx:131-132 | text without "{{" has no variables |
| TemplatesPage.EmptyBracesNoVariable | app/templates/page.tsx:131 | "{{}}" yields no variable |
| TemplatesPage.SpacedDuplicatesCollapse | app/templates/page.tsx:133 | `{{ v }}` and `{{v}}` give the single variable v |
| TemplatesPage.TokenAcrossBodyAndSubject | app/templates/page.tsx:136-144 | body and subject are joined with no separator, so a token split between them yields a variable neither holds alone |
| TemplatesPage.EditsKeepVariablesInStep | app/templates/page.tsx:136-144 | after either edit handler the variables are those of body followed by subject, and the other text field is unchanged |
| TemplatesPage.PreviewTable | app/templates/page.tsx:174-177 | one replacement per listed variable, in list order: `{{name}}` is replaced by the sample value, or by `[name]` when the sample has no value or an empty one |
| TemplatesPage.RenderPreview | app/templates/page.tsx:170-181 | the preview body and subject (a missing subject being "") are the texts with each listed variable's placeholder replaced in list order by its sample, or by `[v]` when the sample is missing or empty |
| TemplatesPage.PreviewLeavesUnlisted | app/templates/page.tsx:171-178 | text holding no listed placeholder, such as a spaced token, is left verbatim, and an empty subject stays empty |
| TemplatesPage.PreviewOneVariable | app/templates/page.tsx:174-177 | with one variable every occurrence of its placeholder is replaced by the sample value |
| SendPage.FilteredApplications | app/send/page.tsx:104-114 | an empty search lists all applications; otherwise exactly those whose name, email or id contains it, ignoring case, in order and with their multiplicity |
| SendPage.FilteredTemplates | app/send/page.tsx:117-120 | nothing before a channel is chosen; afterwards exactly the channel's templates, in order and with their multiplicity |
| SendPage.ReplacementTable | app/send/page.tsx:126-135 | eight entries with non-empty patterns, in the table's own order |
| SendPage.ProcessTemplate | app/send/page.tsx:123-146 | with no application content and subject come back unchanged; otherwise both go through every table entry in order, a missing subject becoming "" |
| SendPage.ProcessInTableOrder | app/send/page.tsx:140-143 | the applicant's name goes in first and is then subject to the seven later entries |
| SendPage.UnknownPlaceholdersSurvive | app/send/page.tsx:126-135 | text with none of the eight placeholders, such as `{{document_list}}`, survives verbatim |
| SendPage.ApplicantNameReplacedEverywhere | app/send/page.tsx:141 | every occurrence of the applicant-name placeholder is replaced |
| SendPage.SendMessage | app/send/page.tsx:158-189 | a record is built exactly when an application, a channel and content are present; it names the application, channel and content, status sent at the current time; the recipient type is "customer" or "staff" as chosen; the recipient is the application for a customer and the chosen staff member otherwise; the event is the template's event id when a template with a non-empty one is chosen, else "manual" |
| EscalationPage.HandleSave | app/escalation/page.tsx:83-105 | without event, source and target channel nothing changes; otherwise one rule is appended after the unchanged list, with zero or NaN waits and attempts replaced by 3 and 2, `isActive` defaulting to true, and the draft reset |
| EscalationPage.SaveChecksNothingElse | app/escalation/page.tsx:84-93 | a rule escalating to its own channel and one with a negative wait are both saved |
| EscalationPage.ToggleRuleActive | app/escalation/page.tsx:107-113 | the flag flips on exactly the rules with the id; length, order and all other fields are kept |
| EscalationPage.ToggleTwice | app/escalation/page.tsx:107-113 | toggling twice restores the list |
| EscalationPage.DeleteRule | app/escalation/page.tsx:115-117 | every rule with the id goes; every other rule stays, in order and with its multiplicity |
| EscalationPage.DeleteAgreesWithStore | app/escalation/page.tsx:115-117 | with unique ids the page's delete equals the store's first-match removal |
| EscalationPage.GetChannelType | app/escalation/page.tsx:123-125 | the first channel's type for a known id, "email" for an unknown one |
| EscalationPage.RulesByEvent | app/escalation/page.tsx:132-142 | the groups are listed in first-appearance order of their event ids, and each holds exactly its event's rules in list order |
| EscalationPage.RulesByEventPartition | app/escalation/page.tsx:132-142 | each rule lies in its own event's group and in no other; group keys are distinct; each group is an ordered sub-list |
| RoutingPage.NumberInputs | app/routing/page.tsx:179-211 | a typed number is taken as it is, except that a priority of 0 or a non-number becomes 1; a wait that is not a number becomes 0 |
| RoutingPage.NumberInputsNaN | app/routing/page.tsx:179-211 | text with no digit at its head, after an optional sign, parses to NaN: the priority becomes 1 and the wait 0 |
| RoutingPage.SelectStaffRole | app/routing/page.tsx:188 | choosing a role makes the role list that single id and changes nothing else |
| RoutingPage.FormPatch | app/routing/page.tsx:79-85 | saving the form overwrites every field but the id and clears the conditions |
| RoutingPage.EditAndSaveUnchanged | app/routing/page.tsx:110-122 | opening a rule and saving it unchanged keeps it, except that conditions are cleared and a missing escalation channel becomes "" |
| RoutingPage.HandleCreateRule | app/routing/page.tsx:67-77 | the store gains the form's rule with no conditions under the id `rr_<now>`, and the form is reset |
| RoutingPage.HandleUpdateRule | app/routing/page.tsx:79-85 | with no rule being edited nothing happens; otherwise the store's rule is overwritten by the form and the form reset |
| RoutingPage.HandleToggleActive | app/routing/page.tsx:92-95 | the store's rule gets the new flag |
| RoutingPage.HandleDeleteRule | app/routing/page.tsx:87-90 | the store's first rule with the id is removed |
| RoutingPage.ActivePatch | app/routing/page.tsx:92-95 | the toggle patch changes only the flag |
| RoutingPage.ToggleActiveSpec | app/routing/page.tsx:92-95 | after the toggle the rule is still found under its id, with the new flag and its other fields as before |
| RoutingPage.RulesByEvent | app/routing/page.tsx:246-249 | one group per event that has rules, in event order (a sub-list of the groups of all events, each kept as often as it occurs there), each holding exactly that event's rules |
| RoutingPage.GroupRulesMultiset | app/routing/page.tsx:246-249 | a shown group holds each rule of its event as many times as the table holds it, and no rule of another event |
| RoutingPage.ShownRules | app/routing/page.tsx:246-249 | a rule is shown exactly when some event has its event id |
| RoutingPage.ByPriority | app/routing/page.tsx:313-314 | rows are in ascending priority and are a permutation of the group |
| RoutingPage.ByPriorityStable | app/routing/page.tsx:313-314 | rules of equal priority keep their store order |
| RoutingPage.RoleNamesSnoc | app/routing/page.tsx:64-65 | the role names read left to right, separated by ", " |
| RoutingPage.EscalationFromForm | app/routing/page.tsx:345-354 | a rule saved from the blank form shows no escalation; one with a typed positive wait and a chosen channel does |
| Labels.FirstLabel | app/routing/page.tsx:61-63 | the field of the first element with the id, or the id itself when there is none or the field is empty |
| Labels.RoleLabels | app/staff/page.tsx:90-91 | one label per id, in order: the first role's name, or the id when no role has it or that name is empty |
| Labels.ChannelTypeLabelOfKnown | app/routing/page.tsx:62 | a known channel always shows its type |
| LogsPage.StatusOptionsComplete | app/logs/page.tsx:40 | each message status is offered exactly once |
| LogsPage.FilteredLogs | app/logs/page.tsx:62-71 | a log is listed exactly when recipient name, contact or application id contains the search, ignoring case, and the status, channel and recipient filters are "all" or equal; order and multiplicity kept |
| LogsPage.NoFilterShowsAll | app/logs/page.tsx:62-71 | an empty search with every filter on "all" lists every log |
| LogsPage.StatusFilterExact | app/logs/page.tsx:68 | choosing a status lists exactly the logs with that status |
| LogsPage.Stats | app/logs/page.tsx:74-77 | total is the number of logs; delivered counts the delivered, opened, clicked and replied logs, failed the failed and bounced ones, escalated those with an escalation attempt above 0; delivered + failed ≤ total and escalated ≤ total |
| LogsPage.StatsPartition | app/logs/page.tsx:74-76 | delivered, failed and still queued or sent add up to the total |
| ApplicationsPage.GetStaffName | app/applications/page.tsx:55-58 | "Unassigned" for no id, "Unknown" for an unmatched id or a first match with an empty name, else the first matching member's name |
| ApplicationsPage.GetMessageCountForApp | app/applications/page.tsx:60-62 | the number of logs of the application; zero exactly when no log belongs to it |
| ApplicationsPage.GetLastMessageDate | app/applications/page.tsx:64-68 | nothing exactly when the application has no logs; otherwise the greatest send time among them |
| ApplicationsPage.LatestFirst | app/applications/page.tsx:67 | after sorting newest first, the head is a latest log |
| ApplicationsPage.StalledSpec | app/applications/page.tsx:89-92 | stalled exactly when at least six whole days have passed since the last update and the status is not approved, completed or rejected |
| ApplicationsPage.FilteredApplications | app/applications/page.tsx:74-81 | exactly the applications whose name, email or id contains the search, ignoring case, and whose status matches the filter or the filter is "all"; order and multiplicity kept |
| ApplicationsPage.Stats | app/applications/page.tsx:84-92 | total is the number of applications; pending counts submitted, documents-pending, under-review and additional-info applications, completed the approved and completed ones, stalled those the stalled test accepts; pending + completed ≤ total and stalled + completed ≤ total |
| ApplicationsPage.StatsPartition | app/applications/page.tsx:85-88 | pending, completed, and documents_received or rejected add up to the total |
| StaffPage.FilteredStaff | app/staff/page.tsx:93-97 | exactly the members whose name or email contains the search, ignoring case, in order and with their multiplicity; an empty search lists all |
| StaffPage.StaffFormPatch | app/staff/page.tsx:111-117 | saving the staff form overwrites every field but the id |
| StaffPage.EditStaffUnchanged | app/staff/page.tsx:135-145 | opening a member and saving unchanged keeps the member, except that a missing phone becomes "" |
| StaffPage.HandleCreateStaff | app/staff/page.tsx:100-109 | the store gains the form's member under `staff_<now>`, and the form is reset |
| StaffPage.HandleUpdateStaff | app/staff/page.tsx:111-117 | with no member being edited nothing happens; otherwise the store's member is overwritten by the form |
| StaffPage.HandleToggleStaffActive | app/staff/page.tsx:119-122 | the store's first member with the id gets the patch that sets only its flag; see StaffPage.ToggleStaffActiveSpec |
| StaffPage.ToggleStaffActiveSpec | app/staff/page.tsx:119-122 | after the toggle the member is found under its id with the new flag and all other fields as before; the table keeps its length |
| Types.StaffActivePatch | app/staff/page.tsx:120 | merging `{ isActive }` into a member sets its flag and leaves every other field as it was |
| StaffPage.SetChecked | app/staff/page.tsx:233-244 | checking appends the value; unchecking removes every copy of it and keeps every other value, in order and with its multiplicity |
| StaffPage.CheckThenUncheck | app/staff/page.tsx:262-273 | checking a clear box and clearing it again restores the list |
| StaffPage.RoleFormPatch | app/staff/page.tsx:159-165 | saving the role form overwrites every field but the id |
| StaffPage.EditRoleUnchanged | app/staff/page.tsx:176-184 | opening a role and saving it unchanged keeps the role |
| StaffPage.HandleCreateRole | app/staff/page.tsx:148-157 | the store gains the form's role under `role_<now>`, and the form is reset |
| StaffPage.HandleUpdateRole | app/staff/page.tsx:159-165 | with no role being edited nothing happens; otherwise the store's role is overwritten by the form |
| StaffPage.MemberCount | app/staff/page.tsx:568 | the number of members, active or not, whose role list contains the role; zero exactly when there is none |
| StaffPage.PermissionLabel | app/staff/page.tsx:562 | every underscore becomes a space and every other character stays |
| StaffPage.IsNotificationEnabled | app/staff/page.tsx:187-189 | off when the pair has no entry, else the first entry's flag |
| StaffPage.ToggleNotification | app/staff/page.tsx:191-194 | the store writes the negation of the current setting |
| StaffPage.ToggleSpec | app/staff/page.tsx:191-194 | the switch flips its own pair and no other, adds at most one entry, and flipping it twice restores the setting |

## Left out

- React rendering is not modelled: JSX, dialogs, hooks, `Suspense`, timed resets and the clipboard. Page state appears only as the values the handlers read and return.
- Plain getters that return a whole table are not modelled; they are the class's fields.
- Clock and randomness are not modelled: `Date.now()` and `new Date()` are a `now` parameter; the send page's deadline text is a parameter; `avgTimeToAction` (`Math.random()`) is left out.
- Floating point is not modelled: `avgResponseTimeHours` is left out. The `Math.round` percentages are modelled as exact rational rounding, which agrees with the floating-point value except where that value lands within rounding error of a half.
- Lower-casing and white space are not fully modelled: `toLowerCase` is modelled on ASCII letters only. `trim` removes ASCII white space plus U+00A0, U+2028, U+2029 and U+FEFF, not every Unicode space separator.
- Regular-expression corner cases are not modelled. Variable names and placeholder keys are taken literally, with no metacharacters, and replacement values are taken free of `$` patterns.
- `parseInt` is modelled on decimal input only: the `0x` prefix and other radices are left out, and numbers of any size are exact.
- `differenceInDays` is modelled as whole 24-hour days, truncated toward zero; calendar-day and daylight-saving effects are left out.
- Application `metadata` is not modelled, nor the `companyName`, `currentStage` and `content` fields the send page reads: the types do not declare them, so the page sees them as missing.
- The send page's store write is not modelled: it calls `addMessageLog`, which the store does not have, so the model stops at the record the page builds.
- The send page's recipient contact lookup is not modelled, because the page computes it and never uses it.
- Object key order is modelled as insertion order. This holds for the non-numeric event ids the data uses. Integer-like keys, which `Object.entries` lists first, are not modelled. Ids that collide with `Object.prototype` members such as "constructor" are not modelled either; the escalation grouping would fail on them.
- Aliasing is not modelled: records are values, so a page holding a record does not see later in-place edits to it. `updateRoleNotificationConfig` flips the entry in place, and the model replaces it at its index.
- The analytics page, the events and channels pages, the presentation components and the mock data are not part of this model. They are display code, hard-coded figures, or thin wrappers over single store calls.
- Store.MessagingStore.GetMessageLogs: invalid dates (NaN times) are not modelled, since every timestamp is an integer.
