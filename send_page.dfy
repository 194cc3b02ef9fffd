/**
  The logic of the send-message page: the application search, the templates
  offered for the chosen channel, the substitution of the fixed placeholder
  table into a message, and the guard and record of the send action.
 */
module SendPage {
  import opened Wrappers
  import opened Seqs
  import opened Text
  import opened Types

  // ---------------------------------------------------------------------------
  // filteredApplications and filteredTemplates
  // ---------------------------------------------------------------------------

  /** The name, email or id contains the query, ignoring case. Applications
      carry no company name, so that alternative never matches. */
  predicate ApplicationMatches(a: Application, query: string) {
    ContainsIgnoreCase(a.applicantName, query) || ContainsIgnoreCase(a.applicantEmail, query) ||
    ContainsIgnoreCase(a.id, query)
  }

  function MatchesQuery(query: string): Application -> bool {
    (a: Application) => ApplicationMatches(a, query)
  }

  /** An empty search lists every application; otherwise the matching ones, in order. */
  function FilteredApplications(applications: seq<Application>, query: string): (r: seq<Application>)
    ensures query == "" ==> r == applications
    ensures forall a :: a in r ==> a in applications && (query == "" || ApplicationMatches(a, query))
    ensures forall a :: a in applications && ApplicationMatches(a, query) ==> a in r
    ensures SubsequenceOf(r, applications)
    ensures forall a :: multiset(r)[a] ==
                        if query == "" || ApplicationMatches(a, query) then multiset(applications)[a] else 0
  {
    if query == "" then
      assert SubsequenceOf(applications, applications) by {
        FilterAll(applications, (a: Application) => true);
        FilterIsSubsequence(applications, (a: Application) => true);
      }
      applications
    else
      FilterMultiset(applications, MatchesQuery(query));
      FilterMembers(applications, MatchesQuery(query));
      FilterIsSubsequence(applications, MatchesQuery(query));
      Filter(applications, MatchesQuery(query))
  }

  function OnChannel(channelId: string): MessageTemplate -> bool {
    (t: MessageTemplate) => t.channelId == channelId
  }

  /** No template is offered before a channel is chosen; afterwards exactly the
      templates of that channel, in order. */
  function FilteredTemplates(templates: seq<MessageTemplate>, selectedChannel: string): (r: seq<MessageTemplate>)
    ensures selectedChannel == "" ==> r == []
    ensures selectedChannel != "" ==>
              (forall t :: t in r ==> t in templates && t.channelId == selectedChannel) &&
              (forall t :: t in templates && t.channelId == selectedChannel ==> t in r) &&
              SubsequenceOf(r, templates)
    ensures selectedChannel != "" ==>
              forall t :: multiset(r)[t] == if t.channelId == selectedChannel then multiset(templates)[t] else 0
  {
    if selectedChannel == "" then []
    else
      FilterMultiset(templates, OnChannel(selectedChannel));
      FilterMembers(templates, OnChannel(selectedChannel));
      FilterIsSubsequence(templates, OnChannel(selectedChannel));
      Filter(templates, OnChannel(selectedChannel))
  }

  // ---------------------------------------------------------------------------
  // processTemplate
  // ---------------------------------------------------------------------------

  /** The placeholders, in the order the replacement table lists them. */
  const Placeholders: seq<string> := [
    "{{applicant_name}}", "{{application_id}}", "{{company_name}}", "{{status}}",
    "{{current_stage}}", "{{deadline}}", "{{support_email}}", "{{support_phone}}"
  ]

  /** The replacement table for an application. Applications have no company
      name, so that entry is "N/A"; they have no current stage either, and
      replacing with an undefined value inserts the text "undefined". The
      deadline is the date a week from now as the browser formats it, given
      here as a parameter. */
  function ReplacementTable(app: Application, deadline: string): (table: seq<(string, string)>)
    ensures |table| == |Placeholders|
    ensures forall k :: 0 <= k < |table| ==> table[k].0 == Placeholders[k] && |table[k].0| > 0
  {
    [ ("{{applicant_name}}", app.applicantName),
      ("{{application_id}}", app.id),
      ("{{company_name}}", "N/A"),
      ("{{status}}", ApplicationStatusName(app.status)),
      ("{{current_stage}}", "undefined"),
      ("{{deadline}}", deadline),
      ("{{support_email}}", "support@company.com"),
      ("{{support_phone}}", "0800 123 4567") ]
  }

  datatype Processed = Processed(content: string, subject: Option<string>)

  /** `processTemplate(content, subject)` for the selected application, if any. */
  method ProcessTemplate(content: string, subject: Option<string>, selected: Option<Application>,
                         deadline: string) returns (r: Processed)
    ensures selected.None? ==> r == Processed(content, subject)
    ensures selected.Some? ==>
              var table := ReplacementTable(selected.value, deadline);
              r.content == ReplaceEach(content, table) &&
              r.subject == Some(ReplaceEach(subject.GetOr(""), table))
  {
    if selected.None? {
      return Processed(content, subject);
    }
    var table := ReplacementTable(selected.value, deadline);
    var processedContent := content;
    var processedSubject := subject.GetOr("");
    var k := 0;
    while k < |table|
      invariant 0 <= k <= |table|
      invariant processedContent == ReplaceEach(content, table[..k])
      invariant processedSubject == ReplaceEach(subject.GetOr(""), table[..k])
    {
      var (key, value) := table[k];
      processedContent := ReplaceAll(processedContent, key, value);
      processedSubject := ReplaceAll(processedSubject, key, value);
      assert table[..k + 1][..k] == table[..k];
      k := k + 1;
    }
    assert table[..k] == table;
    r := Processed(processedContent, Some(processedSubject));
  }

  /** The table is applied entry by entry in its own order: the applicant's name
      goes in first, and whatever it brought in is then subject to the seven
      later entries. */
  lemma {:induction false} ProcessInTableOrder(text: string, app: Application, deadline: string)
    ensures var table := ReplacementTable(app, deadline);
            ReplaceEach(text, table) ==
            ReplaceEach(ReplaceAll(text, "{{applicant_name}}", app.applicantName), table[1..])
  {
    var table := ReplacementTable(app, deadline);
    assert table == [table[0]] + table[1..];
    ReplaceEachFront(text, table[0], table[1..]);
  }

  /** Text holding none of the eight placeholders, such as one with only
      `{{document_list}}`, comes through unchanged, and so does an absent
      subject, which becomes "". */
  lemma {:induction false} UnknownPlaceholdersSurvive(text: string, app: Application, deadline: string)
    requires forall k :: 0 <= k < |Placeholders| ==> !Contains(text, Placeholders[k])
    ensures ReplaceEach(text, ReplacementTable(app, deadline)) == text
    ensures ReplaceEach("", ReplacementTable(app, deadline)) == ""
  {
    var table := ReplacementTable(app, deadline);
    forall k | 0 <= k < |table| ensures !Contains("", table[k].0) {
      ShortNeverContains("", table[k].0);
    }
    ReplaceEachUntouched(text, table);
    ReplaceEachUntouched("", table);
  }

  /** Every occurrence of a placeholder that the earlier entries neither bring
      in nor touch ends up replaced: with one placeholder, its text is split at
      the placeholder and joined back with the value. */
  lemma {:induction false} ApplicantNameReplacedEverywhere(text: string, app: Application)
    ensures ReplaceAll(text, "{{applicant_name}}", app.applicantName) ==
            Join(Split(text, "{{applicant_name}}"), app.applicantName)
  {
    ReplaceAllIsSplitJoin(text, "{{applicant_name}}", app.applicantName);
  }

  // ---------------------------------------------------------------------------
  // handleSendMessage
  // ---------------------------------------------------------------------------

  /** The page's own recipient choice; it records "staff", not "internal_staff". */
  datatype PageRecipient = CustomerRecipient | StaffRecipient

  function PageRecipientName(r: PageRecipient): string {
    match r
    case CustomerRecipient => "customer"
    case StaffRecipient => "staff"
  }

  /** The record the send action builds. */
  datatype SendRecord = SendRecord(
    applicationId: string, eventId: string, channelId: string, recipientType: string,
    recipientId: string, content: string, status: MessageStatus, sentAt: Timestamp)

  /** `handleSendMessage()`: nothing is sent without an application, a channel
      and some content. The event comes from the chosen template, or is
      "manual"; the recipient is the application for a customer and the chosen
      staff member otherwise. */
  function SendMessage(selected: Option<Application>, selectedChannel: string,
                       selectedTemplate: Option<MessageTemplate>, recipient: PageRecipient,
                       selectedStaffId: string, content: string, now: Timestamp): (r: Option<SendRecord>)
    ensures r.Some? <==> selected.Some? && selectedChannel != "" && content != ""
    ensures r.Some? ==>
              && r.value.applicationId == selected.value.id
              && r.value.channelId == selectedChannel
              && r.value.content == content
              && r.value.status == Sent
              && r.value.sentAt == now
              && r.value.recipientId == (if recipient == CustomerRecipient then selected.value.id else selectedStaffId)
              && r.value.recipientType == (if recipient == CustomerRecipient then "customer" else "staff")
              && (selectedTemplate.Some? && selectedTemplate.value.eventId != "" ==>
                    r.value.eventId == selectedTemplate.value.eventId)
              && (selectedTemplate.None? || selectedTemplate.value.eventId == "" ==> r.value.eventId == "manual")
              && r.value.eventId != ""
  {
    if selected.None? || selectedChannel == "" || content == "" then None
    else
      var app := selected.value;
      var eventId := if selectedTemplate.Some? && selectedTemplate.value.eventId != "" then selectedTemplate.value.eventId else "manual";
      Some(SendRecord(app.id, eventId, selectedChannel, PageRecipientName(recipient),
                      if recipient == CustomerRecipient then app.id else selectedStaffId,
                      content, Sent, now))
  }
}
