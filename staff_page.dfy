/**
  The logic of the staff page: the staff and role forms and what saving them
  writes to the store, the checkbox lists, the staff search, the role cards
  and the role-by-event notification switches.
 */
module StaffPage {
  import opened Wrappers
  import opened Seqs
  import opened Text
  import opened Types
  import opened Store
  import opened Labels

  // ---------------------------------------------------------------------------
  // staff members
  // ---------------------------------------------------------------------------

  datatype StaffForm = StaffForm(
    name: string, email: string, phone: string, roleIds: seq<string>,
    contactPreferences: seq<ChannelType>, isActive: bool)

  const BlankStaffForm := StaffForm("", "", "", [], [], true)

  /** `{ id, ...staffFormData }`: the phone is stored even when empty. */
  function StaffFromForm(id: string, f: StaffForm): StaffMember {
    StaffMember(id, f.name, f.email, Some(f.phone), f.roleIds, f.contactPreferences, f.isActive)
  }

  /** `openEditStaffDialog(member)`: a missing phone shows as "". */
  function EditStaffForm(m: StaffMember): StaffForm {
    StaffForm(m.name, m.email, m.phone.GetOr(""), m.roleIds, m.contactPreferences, m.isActive)
  }

  /** The whole form as an update: every field but the id is written. */
  function StaffFormPatch(f: StaffForm): (p: StaffPatch)
    ensures forall m :: MergeStaff(m, p) == StaffFromForm(m.id, f)
  {
    StaffPatch(None, Some(f.name), Some(f.email), Some(Some(f.phone)), Some(f.roleIds),
               Some(f.contactPreferences), Some(f.isActive))
  }

  /** Editing a member and saving unchanged keeps the member, except that a
      missing phone becomes the empty string. */
  lemma {:induction false} EditStaffUnchanged(m: StaffMember)
    ensures MergeStaff(m, StaffFormPatch(EditStaffForm(m))) == m.(phone := Some(m.phone.GetOr("")))
    ensures m.phone.Some? ==> MergeStaff(m, StaffFormPatch(EditStaffForm(m))) == m
  {
  }

  /** `handleCreateStaff()` at time now. */
  method HandleCreateStaff(store: MessagingStore, form: StaffForm, now: nat) returns (staff: seq<StaffMember>, form': StaffForm)
    modifies store`staff
    ensures store.staff == old(store.staff) + [StaffFromForm("staff_" + NatToString(now), form)]
    ensures staff == store.staff && form' == BlankStaffForm
  {
    var created := store.CreateStaffMember(StaffFromForm("staff_" + NatToString(now), form));
    staff, form' := store.staff, BlankStaffForm;
  }

  /** `handleUpdateStaff()`: nothing happens unless a member is being edited. */
  method HandleUpdateStaff(store: MessagingStore, editing: Option<StaffMember>, form: StaffForm)
    returns (staff: seq<StaffMember>, form': StaffForm)
    modifies store`staff
    ensures editing.None? ==> store.staff == old(store.staff) && form' == form
    ensures editing.Some? ==>
              store.staff == UpdateFirst(old(store.staff), StaffIdIs(editing.value.id), StaffMerger(StaffFormPatch(form))) &&
              form' == BlankStaffForm
    ensures staff == store.staff
  {
    if editing.None? {
      staff, form' := store.staff, form;
      return;
    }
    var updated := store.UpdateStaffMember(editing.value.id, StaffFormPatch(form));
    staff, form' := store.staff, BlankStaffForm;
  }

  /** `handleToggleStaffActive(id, isActive)` */
  method HandleToggleStaffActive(store: MessagingStore, id: string, isActive: bool) returns (staff: seq<StaffMember>)
    modifies store`staff
    ensures store.staff == UpdateFirst(old(store.staff), StaffIdIs(id), StaffMerger(StaffActivePatch(isActive)))
    ensures staff == store.staff
  {
    var updated := store.UpdateStaffMember(id, StaffActivePatch(isActive));
    staff := store.staff;
  }

  /** Toggling a member changes its flag and nothing else: the member is still
      found under its id, with the new flag and its other fields as before. */
  lemma {:induction false} ToggleStaffActiveSpec(staff: seq<StaffMember>, id: string, isActive: bool)
    ensures var r := UpdateFirst(staff, StaffIdIs(id), StaffMerger(StaffActivePatch(isActive)));
            |r| == |staff| &&
            Find(r, StaffIdIs(id)) ==
              (match Find(staff, StaffIdIs(id))
               case None => None
               case Some(x) => Some(x.(isActive := isActive)))
  {
    var p := StaffIdIs(id);
    var f := StaffMerger(StaffActivePatch(isActive));
    UpdateFirstShape(staff, p, f);
    if FindIndex(staff, p).Some? {
      UpdateFirstFound(staff, p, f);
    }
  }

  predicate StaffMatches(s: StaffMember, query: string) {
    ContainsIgnoreCase(s.name, query) || ContainsIgnoreCase(s.email, query)
  }

  function MatchesQuery(query: string): StaffMember -> bool { (s: StaffMember) => StaffMatches(s, query) }

  /** `filteredStaff`: members whose name or email contains the search. */
  function FilteredStaff(staff: seq<StaffMember>, query: string): (r: seq<StaffMember>)
    ensures forall s :: s in r <==> s in staff && StaffMatches(s, query)
    ensures SubsequenceOf(r, staff)
    ensures forall s :: multiset(r)[s] == if StaffMatches(s, query) then multiset(staff)[s] else 0
    ensures query == "" ==> r == staff
  {
    FilterMultiset(staff, MatchesQuery(query));
    FilterMembers(staff, MatchesQuery(query));
    FilterIsSubsequence(staff, MatchesQuery(query));
    if query == "" then
      EmptySearchKeepsAll(staff);
      Filter(staff, MatchesQuery(query))
    else
      Filter(staff, MatchesQuery(query))
  }

  lemma {:induction false} EmptySearchKeepsAll(staff: seq<StaffMember>)
    ensures Filter(staff, MatchesQuery("")) == staff
  {
    forall s | s in staff ensures StaffMatches(s, "") {
      EmptyQueryMatches(s.name);
    }
    FilterAll(staff, MatchesQuery(""));
  }

  // ---------------------------------------------------------------------------
  // checkbox lists
  // ---------------------------------------------------------------------------

  /** A checkbox over a list (roles, contact preferences, permissions):
      checking appends the value, unchecking removes every copy of it. */
  function SetChecked<T(==,!new)>(values: seq<T>, x: T, checked: bool): (r: seq<T>)
    ensures checked ==> r == values + [x]
    ensures !checked ==> x !in r && (forall y :: y != x ==> (y in r <==> y in values)) && SubsequenceOf(r, values)
    ensures !checked ==> forall y :: multiset(r)[y] == if y == x then 0 else multiset(values)[y]
  {
    if checked then values + [x]
    else
      FilterMultiset(values, (y: T) => y != x);
      FilterMembers(values, (y: T) => y != x);
      FilterIsSubsequence(values, (y: T) => y != x);
      Filter(values, (y: T) => y != x)
  }

  /** Checking a box that was clear and clearing it again restores the list. */
  lemma {:induction false} CheckThenUncheck<T(!new)>(values: seq<T>, x: T)
    requires x !in values
    ensures SetChecked(SetChecked(values, x, true), x, false) == values
  {
    FilterSnoc(values, x, (y: T) => y != x);
    FilterAll(values, (y: T) => y != x);
  }

  // ---------------------------------------------------------------------------
  // roles
  // ---------------------------------------------------------------------------

  datatype RoleForm = RoleForm(name: string, description: string, permissions: seq<string>, isActive: bool)

  const BlankRoleForm := RoleForm("", "", [], true)

  /** The permissions a role can be given. */
  const AvailablePermissions: seq<string> := [
    "view_applications", "update_status", "request_documents", "approve_applications",
    "reject_applications", "manage_staff", "contact_customer", "compliance_review",
    "view_analytics", "manage_templates"]

  function RoleFromForm(id: string, f: RoleForm): StaffRole {
    StaffRole(id, f.name, f.description, f.permissions, f.isActive)
  }

  function EditRoleForm(r: StaffRole): RoleForm {
    RoleForm(r.name, r.description, r.permissions, r.isActive)
  }

  /** The whole role form as an update: every field but the id is written. */
  function RoleFormPatch(f: RoleForm): (p: RolePatch)
    ensures forall r :: MergeRole(r, p) == RoleFromForm(r.id, f)
  {
    RolePatch(None, Some(f.name), Some(f.description), Some(f.permissions), Some(f.isActive))
  }

  /** Editing a role and saving unchanged keeps the role. */
  lemma {:induction false} EditRoleUnchanged(r: StaffRole)
    ensures MergeRole(r, RoleFormPatch(EditRoleForm(r))) == r
  {
  }

  /** `handleCreateRole()` at time now. */
  method HandleCreateRole(store: MessagingStore, form: RoleForm, now: nat) returns (roles: seq<StaffRole>, form': RoleForm)
    modifies store`roles
    ensures store.roles == old(store.roles) + [RoleFromForm("role_" + NatToString(now), form)]
    ensures roles == store.roles && form' == BlankRoleForm
  {
    var created := store.CreateRole(RoleFromForm("role_" + NatToString(now), form));
    roles, form' := store.roles, BlankRoleForm;
  }

  /** `handleUpdateRole()`: nothing happens unless a role is being edited. */
  method HandleUpdateRole(store: MessagingStore, editing: Option<StaffRole>, form: RoleForm)
    returns (roles: seq<StaffRole>, form': RoleForm)
    modifies store`roles
    ensures editing.None? ==> store.roles == old(store.roles) && form' == form
    ensures editing.Some? ==>
              store.roles == UpdateFirst(old(store.roles), RoleIdIs(editing.value.id), RoleMerger(RoleFormPatch(form))) &&
              form' == BlankRoleForm
    ensures roles == store.roles
  {
    if editing.None? {
      roles, form' := store.roles, form;
      return;
    }
    var updated := store.UpdateRole(editing.value.id, RoleFormPatch(form));
    roles, form' := store.roles, BlankRoleForm;
  }

  /** The "N members" line on a role card. */
  function MemberCount(staff: seq<StaffMember>, roleId: string): (r: nat)
    ensures r == |set i | 0 <= i < |staff| && roleId in staff[i].roleIds|
    ensures r <= |staff|
    ensures r == 0 <==> forall s :: s in staff ==> roleId !in s.roleIds
  {
    CountIndices(staff, HasRole(roleId));
    assert Indices(staff, HasRole(roleId)) == set i | 0 <= i < |staff| && roleId in staff[i].roleIds;
    CountZero(staff, HasRole(roleId));
    Count(staff, HasRole(roleId))
  }

  /** `perm.replace(/_/g, " ")`, the permission badge. */
  function PermissionLabel(perm: string): (r: string)
    ensures |r| == |perm|
    ensures forall i :: 0 <= i < |perm| ==> r[i] == if perm[i] == '_' then ' ' else perm[i]
  {
    UnderscoresToSpaces(perm);
    ReplaceAll(perm, "_", " ")
  }

  lemma {:induction false} UnderscoresToSpaces(s: string)
    ensures |ReplaceAll(s, "_", " ")| == |s|
    ensures forall i :: 0 <= i < |s| ==> ReplaceAll(s, "_", " ")[i] == if s[i] == '_' then ' ' else s[i]
    decreases |s|
  {
    if |s| >= 1 {
      UnderscoresToSpaces(s[1..]);
      assert s[..1] == "_" <==> s[0] == '_';
    }
  }

  // ---------------------------------------------------------------------------
  // notification switches
  // ---------------------------------------------------------------------------

  /** `isNotificationEnabled(roleId, eventId)`: the first entry for the pair
      decides; no entry means off. */
  function IsNotificationEnabled(configs: seq<RoleNotificationConfig>, roleId: string, eventId: string): (r: bool)
    ensures FindIndex(configs, ConfigFor(roleId, eventId)).None? ==> !r
    ensures forall i :: 0 <= i < |configs| && configs[i].roleId == roleId && configs[i].eventId == eventId &&
                        (forall j :: 0 <= j < i ==> !(configs[j].roleId == roleId && configs[j].eventId == eventId))
                        ==> r == configs[i].isEnabled
  {
    ConfigEnabled(configs, roleId, eventId)
  }

  /** The table after flipping one switch. */
  function Toggled(configs: seq<RoleNotificationConfig>, roleId: string, eventId: string, now: nat): seq<RoleNotificationConfig> {
    UpsertConfig(configs, roleId, eventId, !IsNotificationEnabled(configs, roleId, eventId), now)
  }

  /** `toggleNotification(roleId, eventId)` at time now: the store writes the
      negation of the current setting. */
  method ToggleNotification(store: MessagingStore, roleId: string, eventId: string, now: nat)
    modifies store`roleNotificationConfig
    ensures store.roleNotificationConfig == Toggled(old(store.roleNotificationConfig), roleId, eventId, now)
  {
    var current := IsNotificationEnabled(store.roleNotificationConfig, roleId, eventId);
    store.UpdateRoleNotificationConfig(roleId, eventId, !current, now);
  }

  /** A switch flips its own pair and no other, and adds at most one entry;
      flipping it twice restores the setting. */
  lemma {:induction false} ToggleSpec(configs: seq<RoleNotificationConfig>, roleId: string, eventId: string, now: nat, later: nat)
    ensures IsNotificationEnabled(Toggled(configs, roleId, eventId, now), roleId, eventId) ==
            !IsNotificationEnabled(configs, roleId, eventId)
    ensures forall r, e :: (r != roleId || e != eventId) ==>
              IsNotificationEnabled(Toggled(configs, roleId, eventId, now), r, e) == IsNotificationEnabled(configs, r, e)
    ensures |configs| <= |Toggled(configs, roleId, eventId, now)| <= |configs| + 1
    ensures IsNotificationEnabled(Toggled(Toggled(configs, roleId, eventId, now), roleId, eventId, later), roleId, eventId) ==
            IsNotificationEnabled(configs, roleId, eventId)
  {
    var once := Toggled(configs, roleId, eventId, now);
    UpsertConfigSpec(configs, roleId, eventId, !IsNotificationEnabled(configs, roleId, eventId), now);
    UpsertConfigSpec(once, roleId, eventId, !IsNotificationEnabled(once, roleId, eventId), later);
  }
}
