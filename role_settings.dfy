/**
 * The role editor of a server (SafeZone-Web/src/components/RoleSettings.jsx): the fetched roles
 * sorted highest position first, which role the editor selects after a fetch, and the local
 * update after a save. `fetch` and `alert` are recorded; `confirm` is a parameter.
 */
module RoleSettings {
  import opened Common
  import opened Sorting

  datatype Role = Role(id: int, name: string, color: string, permissions: int, position: int)

  datatype Request =
    | RolesRequest(serverId: string, target: Option<int>)
    | CreateRoleRequest(serverId: string, token: string, name: string, color: string, permissions: int)
    | UpdateRoleRequest(serverId: string, roleId: int, token: string, name: string, color: string, permissions: int, position: int)
    | DeleteRoleRequest(serverId: string, roleId: int, token: string)

  const NewRoleName := "yeni rol"
  const NewRoleColor := "#99AAB5"
  const NewRolePermissions := 0
  const SavedNotice := "Rol kaydedildi!"

  // ---------------------------------------------------------------------------
  // `roles.sort((a, b) => b.position - a.position)`.
  // ---------------------------------------------------------------------------

  /** `a` may come before `b`: its position is at least as high. */
  predicate PositionGe(a: Role, b: Role) {
    a.position >= b.position
  }

  lemma PositionGeIsTotalPreorder()
    ensures TotalPreorder(PositionGe)
  {
  }

  /** The fetched roles, highest position first. */
  function SortByPosition(rs: seq<Role>): (r: seq<Role>)
    ensures multiset(r) == multiset(rs)
    ensures forall i, j :: 0 <= i < j < |r| ==> r[i].position >= r[j].position
  {
    PositionGeIsTotalPreorder();
    var r := SortBy(rs, PositionGe);
    assert SortedBy(r, PositionGe);
    r
  }

  function HasId(id: int): Role -> bool {
    (r: Role) => r.id == id
  }

  /** `sorted.find(r => r.id === id)`. */
  function FindRole(rs: seq<Role>, id: int): (r: Option<Role>)
    ensures r.None? <==> forall x :: x in rs ==> x.id != id
    ensures r.Some? ==> r.value in rs && r.value.id == id
  {
    FindFirst(rs, HasId(id))
  }

  /** `if (targetRoleId)`: a target is an id other than 0. */
  predicate IsTarget(target: Option<int>) {
    target.Some? && target.value != 0
  }

  // ---------------------------------------------------------------------------
  // The selection after a successful fetch.
  // ---------------------------------------------------------------------------

  /**
   * What a fetch does to the selection: `Select` is `selectRole` (the edit fields are reloaded),
   * `Refresh` only replaces the selected role's data, `Deselect` clears it.
   */
  datatype Choice = Select(role: Role) | Refresh(role: Role) | Deselect | Unchanged

  /** The branch of `fetchRoles` over the sorted list. */
  function RoleChoice(sorted: seq<Role>, target: Option<int>, selected: Option<Role>): (c: Choice)
    ensures IsTarget(target) ==> (c.Select? <==> FindRole(sorted, target.value).Some?)
    ensures IsTarget(target) && c.Select? ==> c.role.id == target.value && c.role in sorted
    ensures IsTarget(target) && !c.Select? ==> c.Unchanged?
    ensures !IsTarget(target) && selected.Some? ==>
      (c.Refresh? <==> FindRole(sorted, selected.value.id).Some?) && (c.Deselect? <==> FindRole(sorted, selected.value.id).None?)
    ensures !IsTarget(target) && selected.Some? && c.Refresh? ==> c.role.id == selected.value.id && c.role in sorted
    ensures !IsTarget(target) && selected.None? ==> (c.Select? <==> sorted != []) && (c.Select? ==> c.role == sorted[0])
    ensures !IsTarget(target) && selected.None? && sorted == [] ==> c.Unchanged?
  {
    if IsTarget(target) then
      match FindRole(sorted, target.value)
      case Some(r) => Select(r)
      case None => Unchanged
    else if selected.Some? then
      match FindRole(sorted, selected.value.id)
      case Some(r) => Refresh(r)
      case None => Deselect
    else if |sorted| > 0 then Select(sorted[0])
    else Unchanged
  }

  /** After a fetch without a target, a selection is either gone or a role of the new list with the same id. */
  lemma NoStaleSelection(sorted: seq<Role>, selected: Option<Role>)
    requires selected.Some?
    ensures var c := RoleChoice(sorted, None, selected);
      (c.Refresh? && c.role in sorted && c.role.id == selected.value.id) || (c.Deselect? && forall x :: x in sorted ==> x.id != selected.value.id)
  {
  }

  // ---------------------------------------------------------------------------
  // The save's local update.
  // ---------------------------------------------------------------------------

  function SaveIf(id: int, name: string, color: string, permissions: int): Role -> Role {
    (r: Role) => if r.id == id then r.(name := name, color := color, permissions := permissions) else r
  }

  /** `prev.map(r => r.id === selectedRole.id ? { ...r, name, color, permissions } : r)`. */
  function Saved(rs: seq<Role>, id: int, name: string, color: string, permissions: int): (r: seq<Role>)
    ensures |r| == |rs|
    ensures forall i :: 0 <= i < |rs| ==> r[i].id == rs[i].id && r[i].position == rs[i].position
    ensures forall i :: 0 <= i < |rs| && rs[i].id != id ==> r[i] == rs[i]
    ensures forall i :: 0 <= i < |rs| && rs[i].id == id ==> r[i] == Role(id, name, color, permissions, rs[i].position)
  {
    MapSeq(rs, SaveIf(id, name, color, permissions))
  }

  /** A save keeps every position, so the list stays in position order. */
  lemma SavedKeepsOrder(rs: seq<Role>, id: int, name: string, color: string, permissions: int)
    requires forall i, j :: 0 <= i < j < |rs| ==> rs[i].position >= rs[j].position
    ensures var r := Saved(rs, id, name, color, permissions);
      forall i, j :: 0 <= i < j < |r| ==> r[i].position >= r[j].position
  {
    var r := Saved(rs, id, name, color, permissions);
    forall i, j | 0 <= i < j < |r| ensures r[i].position >= r[j].position {
      assert r[i].position == rs[i].position && r[j].position == rs[j].position;
    }
  }

  // ---------------------------------------------------------------------------
  // The component's state.
  // ---------------------------------------------------------------------------

  class RoleEditor {
    const serverId: string
    var roles: seq<Role>
    var selected: Option<Role>
    var loading: bool
    var editName: string
    var editColor: string
    var editPermissions: int
    var requests: seq<Request>
    var alerts: seq<string>

    constructor(serverId: string)
      ensures this.serverId == serverId && roles == [] && selected == None && !loading
      ensures editName == "" && editColor == NewRoleColor && editPermissions == 0 && requests == [] && alerts == []
    {
      this.serverId := serverId;
      roles, selected, loading := [], None, false;
      editName, editColor, editPermissions := "", NewRoleColor, 0;
      requests, alerts := [], [];
    }

    /** `selectRole(role)`: the role, and its fields copied into the edit fields. */
    method SelectRole(role: Role)
      modifies this`selected, this`editName, this`editColor, this`editPermissions
      ensures selected == Some(role)
      ensures editName == role.name && editColor == role.color && editPermissions == role.permissions
    {
      selected := Some(role);
      editName, editColor, editPermissions := role.name, role.color, role.permissions;
    }

    /** The mount effect, the editor's first event: the roles are fetched with no target. */
    method Mount()
      modifies this`loading, this`requests
      ensures loading
      ensures requests == old(requests) + [RolesRequest(serverId, None)]
    {
      FetchRoles(None);
    }

    /** `fetchRoles(targetRoleId)`: the request goes out. */
    method FetchRoles(target: Option<int>)
      modifies this`loading, this`requests
      ensures loading
      ensures requests == old(requests) + [RolesRequest(serverId, target)]
    {
      loading := true;
      requests := requests + [RolesRequest(serverId, target)];
    }

    /** The reply of a fetch for `target`: on success the sorted list replaces the roles and the selection follows `RoleChoice`. */
    method RolesArrived(status: string, fetched: seq<Role>, target: Option<int>)
      modifies this`roles, this`selected, this`editName, this`editColor, this`editPermissions, this`loading
      ensures !loading
      ensures status != "success" ==>
        roles == old(roles) && selected == old(selected) && editName == old(editName) && editColor == old(editColor) && editPermissions == old(editPermissions)
      ensures status == "success" ==>
        && roles == SortByPosition(fetched)
        && match RoleChoice(roles, target, old(selected))
           case Select(r) => selected == Some(r) && editName == r.name && editColor == r.color && editPermissions == r.permissions
           case Refresh(r) => selected == Some(r) && editName == old(editName) && editColor == old(editColor) && editPermissions == old(editPermissions)
           case Deselect => selected == None && editName == old(editName) && editColor == old(editColor) && editPermissions == old(editPermissions)
           case Unchanged => selected == old(selected) && editName == old(editName) && editColor == old(editColor) && editPermissions == old(editPermissions)
    {
      if status == "success" {
        var sorted := SortByPosition(fetched);
        var c := RoleChoice(sorted, target, selected);
        roles := sorted;
        Apply(c);
      }
      loading := false;
    }

    /** The setters a `Choice` calls. */
    method Apply(c: Choice)
      modifies this`selected, this`editName, this`editColor, this`editPermissions
      ensures match c
        case Select(r) => selected == Some(r) && editName == r.name && editColor == r.color && editPermissions == r.permissions
        case Refresh(r) => selected == Some(r) && editName == old(editName) && editColor == old(editColor) && editPermissions == old(editPermissions)
        case Deselect => selected == None && editName == old(editName) && editColor == old(editColor) && editPermissions == old(editPermissions)
        case Unchanged => selected == old(selected) && editName == old(editName) && editColor == old(editColor) && editPermissions == old(editPermissions)
    {
      match c
      case Select(r) => SelectRole(r);
      case Refresh(r) => selected := Some(r);
      case Deselect => selected := None;
      case Unchanged =>
    }

    /** `handleCreateRole()`: a role named 'yeni rol', coloured '#99AAB5', with no permissions. */
    method CreateRole(token: string)
      modifies this`requests
      ensures requests == old(requests) + [CreateRoleRequest(serverId, token, NewRoleName, NewRoleColor, NewRolePermissions)]
    {
      requests := requests + [CreateRoleRequest(serverId, token, NewRoleName, NewRoleColor, NewRolePermissions)];
    }

    /** The create reply: on success a fetch that targets the new role, when the reply names one. */
    method CreateReplied(status: string, message: string, created: Option<Role>)
      modifies this`loading, this`requests, this`alerts
      ensures status == "success" ==>
        && requests == old(requests) + [RolesRequest(serverId, if created.Some? then Some(created.value.id) else None)]
        && alerts == old(alerts) && loading
      ensures status != "success" ==> requests == old(requests) && alerts == old(alerts) + [message] && loading == old(loading)
    {
      if status == "success" {
        FetchRoles(if created.Some? then Some(created.value.id) else None);
      } else {
        alerts := alerts + [message];
      }
    }

    /** `handleSaveRole()`: nothing without a selection; otherwise the edit fields go out, with the role's own position. */
    method SaveRole(token: string)
      modifies this`requests
      ensures selected.None? ==> requests == old(requests)
      ensures selected.Some? ==>
        requests == old(requests) + [UpdateRoleRequest(serverId, selected.value.id, token, editName, editColor, editPermissions, selected.value.position)]
    {
      if selected.None? {
        return;
      }
      requests := requests + [UpdateRoleRequest(serverId, selected.value.id, token, editName, editColor, editPermissions, selected.value.position)];
    }

    /** The save reply for role `id` with the values that were sent: on success the local list takes them. */
    method SaveReplied(status: string, message: string, id: int, name: string, color: string, permissions: int)
      modifies this`roles, this`alerts
      ensures status == "success" ==> roles == Saved(old(roles), id, name, color, permissions) && alerts == old(alerts) + [SavedNotice]
      ensures status != "success" ==> roles == old(roles) && alerts == old(alerts) + [message]
    {
      if status == "success" {
        roles := Saved(roles, id, name, color, permissions);
        alerts := alerts + [SavedNotice];
      } else {
        alerts := alerts + [message];
      }
    }

    /** `handleDeleteRole()`: nothing without a selection or a confirmation. */
    method DeleteRole(confirmed: bool, token: string)
      modifies this`requests
      ensures selected.None? || !confirmed ==> requests == old(requests)
      ensures selected.Some? && confirmed ==> requests == old(requests) + [DeleteRoleRequest(serverId, selected.value.id, token)]
    {
      if selected.None? || !confirmed {
        return;
      }
      requests := requests + [DeleteRoleRequest(serverId, selected.value.id, token)];
    }

    /** The delete reply: on success the selection clears and the roles are fetched again. */
    method DeleteReplied(status: string, message: string)
      modifies this`selected, this`loading, this`requests, this`alerts
      ensures status == "success" ==> selected == None && loading && requests == old(requests) + [RolesRequest(serverId, None)] && alerts == old(alerts)
      ensures status != "success" ==> selected == old(selected) && requests == old(requests) && alerts == old(alerts) + [message]
    {
      if status == "success" {
        selected := None;
        FetchRoles(None);
      } else {
        alerts := alerts + [message];
      }
    }
  }
}
