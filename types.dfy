/**
  The records of the messaging domain. Timestamps are the millisecond values
  that `new Date(...).getTime()` yields for the stored ISO strings; optional
  properties are `Option`s. Each record that the store merges with a
  `Partial<T>` has a patch type holding the optional new value of every field,
  and `Merge` is the object spread `{ ...old, ...patch }`.
 */
module Types {
  import opened Wrappers

  type Timestamp = int

  datatype ChannelType = Email | Sms | WhatsApp | Teams
  datatype EventCategory = ApplicationCategory | Document | Verification | Approval | Completion | Reminder
  datatype EventSeverity = Low | Medium | High | Critical
  datatype RecipientType = Customer | InternalStaff
  datatype ConditionOperator = EqualsOp | NotEqualsOp | ContainsOp | GreaterThanOp | LessThanOp

  datatype ApplicationStatus =
    | Submitted
    | DocumentsPending
    | DocumentsReceived
    | UnderReview
    | AdditionalInfoRequired
    | Approved
    | Rejected
    | Completed

  datatype MessageStatus = Queued | Sent | Delivered | Opened | Clicked | Replied | Failed | Bounced

  datatype Channel = Channel(
    id: string, kind: ChannelType, name: string, description: string,
    isActive: bool, config: map<string, string>, icon: string)

  datatype OnboardingEvent = OnboardingEvent(
    id: string, code: string, name: string, description: string,
    category: EventCategory, severity: EventSeverity, requiresResponse: bool,
    isActive: bool, createdAt: Timestamp)

  datatype RoutingCondition = RoutingCondition(field: string, operator: ConditionOperator, value: string)

  datatype RoutingRule = RoutingRule(
    id: string, eventId: string, channelId: string, recipientType: RecipientType,
    priority: int, conditions: seq<RoutingCondition>, staffRoleIds: seq<string>,
    isActive: bool, waitDaysBeforeEscalation: int, escalationChannelId: Option<string>)

  datatype MessageTemplate = MessageTemplate(
    id: string, eventId: string, channelId: string, recipientType: RecipientType,
    subject: Option<string>, body: string, variables: seq<string>, isActive: bool,
    createdAt: Timestamp, updatedAt: Timestamp)

  datatype StaffRole = StaffRole(
    id: string, name: string, description: string, permissions: seq<string>, isActive: bool)

  datatype StaffMember = StaffMember(
    id: string, name: string, email: string, phone: Option<string>,
    roleIds: seq<string>, contactPreferences: seq<ChannelType>, isActive: bool)

  datatype RoleNotificationConfig = RoleNotificationConfig(
    id: string, roleId: string, eventId: string, isEnabled: bool)

  datatype Application = Application(
    id: string, applicantName: string, applicantEmail: string, applicantPhone: string,
    kind: string, status: ApplicationStatus, submittedAt: Timestamp,
    lastUpdatedAt: Timestamp, assignedStaffId: Option<string>)

  datatype MessageLog = MessageLog(
    id: string, applicationId: string, eventId: string, channelId: string,
    recipientType: RecipientType, recipientId: string, recipientName: string,
    recipientContact: string, templateId: string, subject: Option<string>, body: string,
    status: MessageStatus, sentAt: Timestamp, deliveredAt: Option<Timestamp>,
    openedAt: Option<Timestamp>, repliedAt: Option<Timestamp>,
    failureReason: Option<string>, escalatedFrom: Option<string>, escalationAttempt: int)

  datatype EscalationRule = EscalationRule(
    id: string, eventId: string, fromChannelId: string, toChannelId: string,
    waitDays: int, maxAttempts: int, isActive: bool)

  datatype ChannelMetrics = ChannelMetrics(
    channelId: string, totalSent: nat, delivered: nat, openedCount: nat, replied: nat, failed: nat)

  datatype EventMetrics = EventMetrics(
    eventId: string, totalTriggered: nat, successfulDelivery: nat, responseRate: int)

  datatype DashboardStats = DashboardStats(
    totalApplications: nat, pendingApplications: nat, completedApplications: nat,
    totalMessagesSent: nat, messagesDelivered: nat, messagesReplied: nat,
    deliveryRate: int, responseRate: int, activeChannels: nat, activeEvents: nat)

  // ---------------------------------------------------------------------------
  // status groups
  // ---------------------------------------------------------------------------

  /** ['delivered', 'opened', 'clicked', 'replied'] */
  predicate IsDeliveredStatus(s: MessageStatus) {
    s == Delivered || s == Opened || s == Clicked || s == Replied
  }

  /** ['opened', 'clicked', 'replied'] */
  predicate IsOpenedStatus(s: MessageStatus) {
    s == Opened || s == Clicked || s == Replied
  }

  /** ['failed', 'bounced'] */
  predicate IsFailedStatus(s: MessageStatus) {
    s == Failed || s == Bounced
  }

  /** ['submitted', 'documents_pending', 'under_review', 'additional_info_required'] */
  predicate IsPendingStatus(s: ApplicationStatus) {
    s == Submitted || s == DocumentsPending || s == UnderReview || s == AdditionalInfoRequired
  }

  /** ['approved', 'completed'] */
  predicate IsCompletedStatus(s: ApplicationStatus) {
    s == Approved || s == Completed
  }

  /** The string value a status has in the TypeScript union. */
  function MessageStatusName(s: MessageStatus): string {
    match s
    case Queued => "queued"
    case Sent => "sent"
    case Delivered => "delivered"
    case Opened => "opened"
    case Clicked => "clicked"
    case Replied => "replied"
    case Failed => "failed"
    case Bounced => "bounced"
  }

  function ApplicationStatusName(s: ApplicationStatus): string {
    match s
    case Submitted => "submitted"
    case DocumentsPending => "documents_pending"
    case DocumentsReceived => "documents_received"
    case UnderReview => "under_review"
    case AdditionalInfoRequired => "additional_info_required"
    case Approved => "approved"
    case Rejected => "rejected"
    case Completed => "completed"
  }

  function ChannelTypeName(t: ChannelType): string {
    match t
    case Email => "email"
    case Sms => "sms"
    case WhatsApp => "whatsapp"
    case Teams => "teams"
  }

  function RecipientTypeName(t: RecipientType): string {
    match t
    case Customer => "customer"
    case InternalStaff => "internal_staff"
  }

  // ---------------------------------------------------------------------------
  // Partial<T> patches and the object spread { ...old, ...patch }
  // ---------------------------------------------------------------------------

  function Pick<T>(patch: Option<T>, current: T): T {
    if patch.Some? then patch.value else current
  }

  datatype ChannelPatch = ChannelPatch(
    id: Option<string>, kind: Option<ChannelType>, name: Option<string>,
    description: Option<string>, isActive: Option<bool>,
    config: Option<map<string, string>>, icon: Option<string>)

  function MergeChannel(c: Channel, p: ChannelPatch): Channel {
    Channel(Pick(p.id, c.id), Pick(p.kind, c.kind), Pick(p.name, c.name),
            Pick(p.description, c.description), Pick(p.isActive, c.isActive),
            Pick(p.config, c.config), Pick(p.icon, c.icon))
  }

  datatype EventPatch = EventPatch(
    id: Option<string>, code: Option<string>, name: Option<string>,
    description: Option<string>, category: Option<EventCategory>,
    severity: Option<EventSeverity>, requiresResponse: Option<bool>,
    isActive: Option<bool>, createdAt: Option<Timestamp>)

  function MergeEvent(e: OnboardingEvent, p: EventPatch): OnboardingEvent {
    OnboardingEvent(Pick(p.id, e.id), Pick(p.code, e.code), Pick(p.name, e.name),
                    Pick(p.description, e.description), Pick(p.category, e.category),
                    Pick(p.severity, e.severity), Pick(p.requiresResponse, e.requiresResponse),
                    Pick(p.isActive, e.isActive), Pick(p.createdAt, e.createdAt))
  }

  datatype RoutingRulePatch = RoutingRulePatch(
    id: Option<string>, eventId: Option<string>, channelId: Option<string>,
    recipientType: Option<RecipientType>, priority: Option<int>,
    conditions: Option<seq<RoutingCondition>>, staffRoleIds: Option<seq<string>>,
    isActive: Option<bool>, waitDaysBeforeEscalation: Option<int>,
    escalationChannelId: Option<Option<string>>)

  function MergeRoutingRule(r: RoutingRule, p: RoutingRulePatch): RoutingRule {
    RoutingRule(Pick(p.id, r.id), Pick(p.eventId, r.eventId), Pick(p.channelId, r.channelId),
                Pick(p.recipientType, r.recipientType), Pick(p.priority, r.priority),
                Pick(p.conditions, r.conditions), Pick(p.staffRoleIds, r.staffRoleIds),
                Pick(p.isActive, r.isActive),
                Pick(p.waitDaysBeforeEscalation, r.waitDaysBeforeEscalation),
                Pick(p.escalationChannelId, r.escalationChannelId))
  }

  datatype TemplatePatch = TemplatePatch(
    id: Option<string>, eventId: Option<string>, channelId: Option<string>,
    recipientType: Option<RecipientType>, subject: Option<Option<string>>,
    body: Option<string>, variables: Option<seq<string>>, isActive: Option<bool>,
    createdAt: Option<Timestamp>, updatedAt: Option<Timestamp>)

  function MergeTemplate(t: MessageTemplate, p: TemplatePatch): MessageTemplate {
    MessageTemplate(Pick(p.id, t.id), Pick(p.eventId, t.eventId), Pick(p.channelId, t.channelId),
                    Pick(p.recipientType, t.recipientType), Pick(p.subject, t.subject),
                    Pick(p.body, t.body), Pick(p.variables, t.variables),
                    Pick(p.isActive, t.isActive), Pick(p.createdAt, t.createdAt),
                    Pick(p.updatedAt, t.updatedAt))
  }

  datatype RolePatch = RolePatch(
    id: Option<string>, name: Option<string>, description: Option<string>,
    permissions: Option<seq<string>>, isActive: Option<bool>)

  function MergeRole(r: StaffRole, p: RolePatch): StaffRole {
    StaffRole(Pick(p.id, r.id), Pick(p.name, r.name), Pick(p.description, r.description),
              Pick(p.permissions, r.permissions), Pick(p.isActive, r.isActive))
  }

  datatype StaffPatch = StaffPatch(
    id: Option<string>, name: Option<string>, email: Option<string>,
    phone: Option<Option<string>>, roleIds: Option<seq<string>>,
    contactPreferences: Option<seq<ChannelType>>, isActive: Option<bool>)

  function MergeStaff(s: StaffMember, p: StaffPatch): StaffMember {
    StaffMember(Pick(p.id, s.id), Pick(p.name, s.name), Pick(p.email, s.email),
                Pick(p.phone, s.phone), Pick(p.roleIds, s.roleIds),
                Pick(p.contactPreferences, s.contactPreferences), Pick(p.isActive, s.isActive))
  }

  /** The patch that sets only `isActive`. */
  function StaffActivePatch(isActive: bool): (p: StaffPatch)
    ensures forall s :: MergeStaff(s, p) == s.(isActive := isActive)
  {
    StaffPatch(None, None, None, None, None, None, Some(isActive))
  }

  datatype ApplicationPatch = ApplicationPatch(
    id: Option<string>, applicantName: Option<string>, applicantEmail: Option<string>,
    applicantPhone: Option<string>, kind: Option<string>, status: Option<ApplicationStatus>,
    submittedAt: Option<Timestamp>, lastUpdatedAt: Option<Timestamp>,
    assignedStaffId: Option<Option<string>>)

  function MergeApplication(a: Application, p: ApplicationPatch): Application {
    Application(Pick(p.id, a.id), Pick(p.applicantName, a.applicantName),
                Pick(p.applicantEmail, a.applicantEmail), Pick(p.applicantPhone, a.applicantPhone),
                Pick(p.kind, a.kind), Pick(p.status, a.status), Pick(p.submittedAt, a.submittedAt),
                Pick(p.lastUpdatedAt, a.lastUpdatedAt), Pick(p.assignedStaffId, a.assignedStaffId))
  }

  datatype MessageLogPatch = MessageLogPatch(
    id: Option<string>, applicationId: Option<string>, eventId: Option<string>,
    channelId: Option<string>, recipientType: Option<RecipientType>,
    recipientId: Option<string>, recipientName: Option<string>,
    recipientContact: Option<string>, templateId: Option<string>,
    subject: Option<Option<string>>, body: Option<string>, status: Option<MessageStatus>,
    sentAt: Option<Timestamp>, deliveredAt: Option<Option<Timestamp>>,
    openedAt: Option<Option<Timestamp>>, repliedAt: Option<Option<Timestamp>>,
    failureReason: Option<Option<string>>, escalatedFrom: Option<Option<string>>,
    escalationAttempt: Option<int>)

  function MergeMessageLog(m: MessageLog, p: MessageLogPatch): MessageLog {
    MessageLog(Pick(p.id, m.id), Pick(p.applicationId, m.applicationId),
               Pick(p.eventId, m.eventId), Pick(p.channelId, m.channelId),
               Pick(p.recipientType, m.recipientType), Pick(p.recipientId, m.recipientId),
               Pick(p.recipientName, m.recipientName), Pick(p.recipientContact, m.recipientContact),
               Pick(p.templateId, m.templateId), Pick(p.subject, m.subject), Pick(p.body, m.body),
               Pick(p.status, m.status), Pick(p.sentAt, m.sentAt),
               Pick(p.deliveredAt, m.deliveredAt), Pick(p.openedAt, m.openedAt),
               Pick(p.repliedAt, m.repliedAt), Pick(p.failureReason, m.failureReason),
               Pick(p.escalatedFrom, m.escalatedFrom), Pick(p.escalationAttempt, m.escalationAttempt))
  }

  datatype EscalationRulePatch = EscalationRulePatch(
    id: Option<string>, eventId: Option<string>, fromChannelId: Option<string>,
    toChannelId: Option<string>, waitDays: Option<int>, maxAttempts: Option<int>,
    isActive: Option<bool>)

  function MergeEscalationRule(r: EscalationRule, p: EscalationRulePatch): EscalationRule {
    EscalationRule(Pick(p.id, r.id), Pick(p.eventId, r.eventId),
                   Pick(p.fromChannelId, r.fromChannelId), Pick(p.toChannelId, r.toChannelId),
                   Pick(p.waitDays, r.waitDays), Pick(p.maxAttempts, r.maxAttempts),
                   Pick(p.isActive, r.isActive))
  }
}
