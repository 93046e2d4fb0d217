/**
 * The server settings screen (SafeZone-Web/src/components/ServerSettings.jsx): its roles tab
 * keeps the role editor's sort but a simpler selection rule and a save that updates only name
 * and colour; the overview save is a notice. `fetch` and `alert` are recorded; `confirm` is a
 * parameter.
 */
module ServerSettings {
  import opened Common
  import opened RoleSettings

  const OverviewNotice := "Sunucu ad\U{131} g\U{FC}ncelleme hen\U{FC}z aktif de\U{11F}il, ama buraya gelecek!"

  /** The branch of this screen's `fetchRoles`: a found target, or the first role when nothing is selected. */
  function ServerRoleChoice(sorted: seq<Role>, target: Option<int>, selected: Option<Role>): (c: Choice)
    ensures c.Select? || c.Unchanged?
    ensures IsTarget(target) ==> (c.Select? <==> FindRole(sorted, target.value).Some?)
    ensures IsTarget(target) && c.Select? ==> c.role.id == target.value && c.role in sorted
    ensures !IsTarget(target) ==> (c.Select? <==> selected.None? && sorted != [])
    ensures !IsTarget(target) && c.Select? ==> c.role == sorted[0]
  {
    if IsTarget(target) then
      match FindRole(sorted, target.value)
      case Some(r) => Select(r)
      case None => Unchanged
    else if selected.None? && |sorted| > 0 then Select(sorted[0])
    else Unchanged
  }

  /**
   * The two screens choose alike with a target or without a selection; they differ only when
   * a selection exists and no target is given: the role editor refreshes or clears it, this
   * screen leaves it as it was.
   */
  lemma ChoicesAgree(sorted: seq<Role>, target: Option<int>, selected: Option<Role>)
    ensures IsTarget(target) || selected.None? ==> ServerRoleChoice(sorted, target, selected) == RoleChoice(sorted, target, selected)
    ensures !IsTarget(target) && selected.Some? ==>
      ServerRoleChoice(sorted, target, selected).Unchanged? && (RoleChoice(sorted, target, selected).Refresh? || RoleChoice(sorted, target, selected).Deselect?)
  {
  }

  function SaveNameColorIf(id: int, name: string, color: string): Role -> Role {
    (r: Role) => if r.id == id then r.(name := name, color := color) else r
  }

  /** `prev.map(r => r.id === selectedRole.id ? { ...r, name, color } : r)`: the permissions stay as they were. */
  function SavedNameColor(rs: seq<Role>, id: int, name: string, color: string): (r: seq<Role>)
    ensures |r| == |rs|
    ensures forall i :: 0 <= i < |rs| && rs[i].id != id ==> r[i] == rs[i]
    ensures forall i :: 0 <= i < |rs| && rs[i].id == id ==> r[i] == Role(id, name, color, rs[i].permissions, rs[i].position)
  {
    MapSeq(rs, SaveNameColorIf(id, name, color))
  }

  /** This save is the role editor's save with the permissions each role already had: the same where they were unchanged. */
  lemma SavedNameColorIsSaved(rs: seq<Role>, id: int, name: string, color: string, permissions: int)
    requires forall r :: r in rs && r.id == id ==> r.permissions == permissions
    ensures SavedNameColor(rs, id, name, color) == Saved(rs, id, name, color, permissions)
  {
    var a := SavedNameColor(rs, id, name, color);
    var b := Saved(rs, id, name, color, permissions);
    forall i | 0 <= i < |rs| ensures a[i] == b[i] {
      assert rs[i] in rs;
    }
  }

  class SettingsScreen {
    const serverId: string
    var activeTab: string
    var serverName: string
    var roles: seq<Role>
    var selected: Option<Role>
    var editRoleName: string
    var editRoleColor: string
    var editPermissions: int
    var requests: seq<Request>
    var alerts: seq<string>

    constructor(serverId: string, name: string)
      ensures this.serverId == serverId && activeTab == "overview" && serverName == name
      ensures roles == [] && selected == None && editRoleName == "" && editRoleColor == NewRoleColor && editPermissions == 0
      ensures requests == [] && alerts == []
    {
      this.serverId, activeTab, serverName := serverId, "overview", name;
      roles, selected := [], None;
      editRoleName, editRoleColor, editPermissions := "", NewRoleColor, 0;
      requests, alerts := [], [];
    }

    /** `handleSaveOverview()`: a notice, and nothing else changes. */
    method SaveOverview()
      modifies this`alerts
      ensures alerts == old(alerts) + [OverviewNotice]
    {
      alerts := alerts + [OverviewNotice];
    }

    method FetchRoles(target: Option<int>)
      modifies this`requests
      ensures requests == old(requests) + [RolesRequest(serverId, target)]
    {
      requests := requests + [RolesRequest(serverId, target)];
    }

    /** Switching tabs: the roles are fetched when the roles tab opens. */
    method SetActiveTab(tab: string)
      modifies this`activeTab, this`requests
      ensures activeTab == tab
      ensures requests == old(requests) + (if tab == "roles" && old(activeTab) != "roles" then [RolesRequest(serverId, None)] else [])
    {
      var opens := tab == "roles" && activeTab != "roles";
      activeTab := tab;
      if opens {
        FetchRoles(None);
      }
    }

    method SelectRole(role: Role)
      modifies this`selected, this`editRoleName, this`editRoleColor, this`editPermissions
      ensures selected == Some(role)
      ensures editRoleName == role.name && editRoleColor == role.color && editPermissions == role.permissions
    {
      selected := Some(role);
      editRoleName, editRoleColor, editPermissions := role.name, role.color, role.permissions;
    }

    /** The reply of a fetch for `target`: on success the sorted list replaces the roles and the selection follows `ServerRoleChoice`. */
    method RolesArrived(status: string, fetched: seq<Role>, target: Option<int>)
      modifies this`roles, this`selected, this`editRoleName, this`editRoleColor, this`editPermissions
      ensures status != "success" ==>
        roles == old(roles) && selected == old(selected) && editRoleName == old(editRoleName) && editRoleColor == old(editRoleColor) && editPermissions == old(editPermissions)
      ensures status == "success" ==>
        && roles == SortByPosition(fetched)
        && match ServerRoleChoice(roles, target, old(selected))
           case Select(r) => selected == Some(r) && editRoleName == r.name && editRoleColor == r.color && editPermissions == r.permissions
           case _ => selected == old(selected) && editRoleName == old(editRoleName) && editRoleColor == old(editRoleColor) && editPermissions == old(editPermissions)
    {
      if status == "success" {
        var sorted := SortByPosition(fetched);
        var c := ServerRoleChoice(sorted, target, selected);
        roles := sorted;
        if c.Select? {
          SelectRole(c.role);
        }
      }
    }

    /** `handleCreateRole()`: the same new role as the role editor's. */
    method CreateRole(token: string)
      modifies this`requests
      ensures requests == old(requests) + [CreateRoleRequest(serverId, token, NewRoleName, NewRoleColor, NewRolePermissions)]
    {
      requests := requests + [CreateRoleRequest(serverId, token, NewRoleName, NewRoleColor, NewRolePermissions)];
    }

    method CreateReplied(status: string, message: string, created: Option<Role>)
      modifies this`requests, this`alerts
      ensures status == "success" ==>
        requests == old(requests) + [RolesRequest(serverId, if created.Some? then Some(created.value.id) else None)] && alerts == old(alerts)
      ensures status != "success" ==> requests == old(requests) && alerts == old(alerts) + [message]
    {
      if status == "success" {
        FetchRoles(if created.Some? then Some(created.value.id) else None);
      } else {
        alerts := alerts + [message];
      }
    }

    method SaveRole(token: string)
      modifies this`requests
      ensures selected.None? ==> requests == old(requests)
      ensures selected.Some? ==>
        requests == old(requests) + [UpdateRoleRequest(serverId, selected.value.id, token, editRoleName, editRoleColor, editPermissions, selected.value.position)]
    {
      if selected.None? {
        return;
      }
      requests := requests + [UpdateRoleRequest(serverId, selected.value.id, token, editRoleName, editRoleColor, editPermissions, selected.value.position)];
    }

    /** The save reply for role `id`: on success only the name and colour change locally. */
    method SaveReplied(status: string, message: string, id: int, name: string, color: string)
      modifies this`roles, this`alerts
      ensures status == "success" ==> roles == SavedNameColor(old(roles), id, name, color) && alerts == old(alerts) + [SavedNotice]
      ensures status != "success" ==> roles == old(roles) && alerts == old(alerts) + [message]
    {
      if status == "success" {
        roles := SavedNameColor(roles, id, name, color);
        alerts := alerts + [SavedNotice];
      } else {
        alerts := alerts + [message];
      }
    }

    /** `handleDeleteRole()`: nothing without a selection or a confirmation. */
    method DeleteRole(confirmed: bool, token: string)
      modifies this`requests
      ensures selected.None? || !confirmed ==> requests == old(requests)
      ensures selected.Some? && confirmed ==> requests == old(requests) + [DeleteRoleRequest(serverId, selected.value.id, token)]
    {
      if selected.None? || !confirmed {
        return;
      }
      requests := requests + [DeleteRoleRequest(serverId, selected.value.id, token)];
    }

    /** Once the delete request returns, whatever its status, the selection clears and the roles are fetched again. */
    method DeleteFinished()
      modifies this`selected, this`requests
      ensures selected == None
      ensures requests == old(requests) + [RolesRequest(serverId, None)]
    {
      selected := None;
      FetchRoles(None);
    }
  }
}
