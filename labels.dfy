/**
  The `list.find(x => x.id === id)?.field || id` lookups the pages use to
  turn an id into something readable.
 */
module Labels {
  import opened Wrappers
  import opened Seqs
  import opened Types
  import opened Store

  /** The label of the first element p accepts, or the fallback when there is
      none or its label is empty. */
  function FirstLabel<T>(s: seq<T>, p: T -> bool, field: T -> string, fallback: string): (r: string)
    ensures (forall i :: 0 <= i < |s| ==> !p(s[i])) ==> r == fallback
    ensures forall i :: 0 <= i < |s| && p(s[i]) && (forall j :: 0 <= j < i ==> !p(s[j])) ==>
              r == if field(s[i]) != "" then field(s[i]) else fallback
  {
    match Find(s, p)
    case Some(x) => if field(x) != "" then field(x) else fallback
    case None => fallback
  }

  /** `roles.find(r => r.id === id)?.name || id` */
  function RoleLabel(roles: seq<StaffRole>, id: string): string {
    FirstLabel(roles, RoleIdIs(id), (r: StaffRole) => r.name, id)
  }

  /** `roleIds.map(id => roles.find(r => r.id === id)?.name || id)` */
  function RoleLabels(roles: seq<StaffRole>, ids: seq<string>): (r: seq<string>)
    ensures |r| == |ids|
    ensures forall i :: 0 <= i < |ids| && (forall j :: 0 <= j < |roles| ==> roles[j].id != ids[i]) ==> r[i] == ids[i]
    ensures forall i, j :: 0 <= i < |ids| && 0 <= j < |roles| && roles[j].id == ids[i] &&
                           (forall k :: 0 <= k < j ==> roles[k].id != ids[i])
                           ==> r[i] == if roles[j].name != "" then roles[j].name else ids[i]
  {
    seq(|ids|, i requires 0 <= i < |ids| => RoleLabel(roles, ids[i]))
  }

  /** `events.find(e => e.id === eventId)?.name || eventId` */
  function EventLabel(events: seq<OnboardingEvent>, eventId: string): string {
    FirstLabel(events, EventIdIs(eventId), (e: OnboardingEvent) => e.name, eventId)
  }

  /** `channels.find(c => c.id === channelId)?.name || channelId` */
  function ChannelLabel(channels: seq<Channel>, channelId: string): string {
    FirstLabel(channels, ChannelIdIs(channelId), (c: Channel) => c.name, channelId)
  }

  /** `channels.find(c => c.id === channelId)?.type || channelId` */
  function ChannelTypeLabel(channels: seq<Channel>, channelId: string): string {
    FirstLabel(channels, ChannelIdIs(channelId), (c: Channel) => ChannelTypeName(c.kind), channelId)
  }

  /** `applications.find(a => a.id === appId)?.applicantName || appId` */
  function ApplicationLabel(applications: seq<Application>, appId: string): string {
    FirstLabel(applications, ApplicationIdIs(appId), (a: Application) => a.applicantName, appId)
  }

  /** A type name is never empty, so a known channel always shows its type. */
  lemma {:induction false} ChannelTypeLabelOfKnown(channels: seq<Channel>, channelId: string, i: nat)
    requires i < |channels| && channels[i].id == channelId
    requires forall j :: 0 <= j < i ==> channels[j].id != channelId
    ensures ChannelTypeLabel(channels, channelId) == ChannelTypeName(channels[i].kind)
  {
    assert ChannelTypeName(channels[i].kind) != "" by {
      match channels[i].kind
      case Email =>
      case Sms =>
      case WhatsApp =>
      case Teams =>
    }
  }
}
