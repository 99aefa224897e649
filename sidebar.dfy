/** The sidebar (`Sidebar.js`): on mount it fetches the profile, denormalises
    the role into the `userRole` marker and bounces a member without a project
    to the selector; it also offers "change project", logout and two collapsible
    menu sections whose visibility depends on the role. */
module SidebarMenu {
  import opened Common
  import opened Cookies

  const LoginPath: string := "/"
  const SelectProjectPath: string := "/select-project"

  /** The condition of `fetchUserCheckInfo`, read from the store: no selected
      project and not both committee id and team role, for a role that is not
      privileged (a missing `userRole` counts as not privileged). */
  predicate MustSelectProject(s: Store): (bounce: bool)
    ensures Truthy(Get(s, SelectedProject)) ==> !bounce
    ensures Truthy(Get(s, CommitteeId)) && Truthy(Get(s, TeamRole)) ==> !bounce
    ensures IsPrivileged(Get(s, UserRole)) ==> !bounce
    ensures ProjectMarkers !! s.Keys && !IsPrivileged(Get(s, UserRole)) ==> bounce
  {
    && !Truthy(Get(s, SelectedProject))
    && (!Truthy(Get(s, CommitteeId)) || !Truthy(Get(s, TeamRole)))
    && !IsPrivileged(Get(s, UserRole))
  }

  /** The store after `fetchUserInfo`: a fetched profile writes its role into
      `userRole`; a failed fetch writes nothing. */
  function AfterProfile(s: Store, profile: Reply<Profile>): (r: Store)
    ensures profile.Ok? ==> Get(r, UserRole) == Some(profile.value.role)
    ensures forall k :: k != UserRole ==> Get(r, k) == Get(s, k)
    ensures profile.Failed? ==> r == s
  {
    match profile
    case Ok(p) => s[UserRole := p.role]
    case Failed => s
  }

  /** The store after `fetchUserCheckInfo`. */
  function AfterCheck(s: Store): (r: Store)
    ensures forall k :: k in r ==> k in s && r[k] == s[k]
    ensures s.Keys - ProjectMarkers <= r.Keys
  {
    if MustSelectProject(s) then s - ProjectMarkers else s
  }

  /** When the check fires it deletes exactly the three project markers and
      keeps every other entry (`userRole` among them); otherwise the store is
      unchanged. */
  lemma CheckDeletesProjectMarkers(s: Store)
    ensures MustSelectProject(s) ==> AfterCheck(s).Keys == s.Keys - ProjectMarkers
    ensures forall k :: k in AfterCheck(s) ==> k in s && AfterCheck(s)[k] == s[k]
    ensures Get(AfterCheck(s), UserRole) == Get(s, UserRole)
    ensures !MustSelectProject(s) ==> AfterCheck(s) == s
  {
  }

  /** Running the check twice is the same as running it once, and the check
      does not change its own verdict. */
  lemma {:induction false} CheckIdempotent(s: Store)
    ensures MustSelectProject(AfterCheck(s)) == MustSelectProject(s)
    ensures AfterCheck(AfterCheck(s)) == AfterCheck(s)
  {
    if MustSelectProject(s) {
      var t := s - ProjectMarkers;
      assert Get(t, SelectedProject) == None && Get(t, CommitteeId) == None;
      assert Get(t, UserRole) == Get(s, UserRole);
      assert t - ProjectMarkers == t;
    }
  }

  /** After a successful profile fetch the check judges the fetched role, so
      a privileged profile is never bounced, whatever markers are stored. */
  lemma FetchedRoleDecides(s: Store, p: Profile)
    ensures Get(AfterProfile(s, Ok(p)), UserRole) == Some(p.role)
    ensures IsPrivileged(Some(p.role)) ==> !MustSelectProject(AfterProfile(s, Ok(p)))
  {
  }

  /** Menu entries of the side bar. */
  datatype MenuItem = Dashboard | ChangeProject | Maintenance | Attendance | Logout

  /** The entries shown for a role: "Seleccionar Proyecto" only for the role
      `user`, the maintenance section only for privileged roles, everything
      else always. */
  function MenuItems(role: Option<string>): (items: set<MenuItem>)
    ensures Dashboard in items && Attendance in items && Logout in items
    ensures ChangeProject in items <==> role == Some("user")
    ensures Maintenance in items <==> IsPrivileged(role)
  {
    {Dashboard, Attendance, Logout}
    + (if role == Some("user") then {ChangeProject} else {})
    + (if IsPrivileged(role) then {Maintenance} else {})
  }

  /** The change-project entry and the maintenance section never appear
      together, and the former only for a role that is not privileged. */
  lemma ChangeProjectOnlyForMembers(role: Option<string>)
    ensures ChangeProject in MenuItems(role) ==> !IsPrivileged(role)
    ensures !(ChangeProject in MenuItems(role) && Maintenance in MenuItems(role))
  {
  }

  /** The routes linked from the menu, given the role and the two collapse flags. */
  function Links(role: Option<string>, openMantenimiento: bool, openControlAsistencia: bool): (links: set<string>)
    ensures "/dashboard" in links
    ensures "/dashboard/user-management" in links <==> IsPrivileged(role) && openMantenimiento
    ensures "/dashboard/cursor-management" in links <==> IsPrivileged(role) && openMantenimiento
    ensures "/dashboard/device-management" in links <==> IsPrivileged(role) && openMantenimiento
    ensures "/dashboard/student-management" in links <==> IsPrivileged(role) && openMantenimiento
    ensures "/dashboard/attendance-management" in links <==> openControlAsistencia
    ensures "/dashboard/class-management" in links <==> openControlAsistencia
    ensures links <= {"/dashboard", "/dashboard/user-management", "/dashboard/cursor-management",
                      "/dashboard/device-management", "/dashboard/student-management",
                      "/dashboard/attendance-management", "/dashboard/class-management"}
  {
    {"/dashboard"}
    + (if IsPrivileged(role) && openMantenimiento
       then {"/dashboard/user-management", "/dashboard/cursor-management",
             "/dashboard/device-management", "/dashboard/student-management"}
       else {})
    + (if openControlAsistencia
       then {"/dashboard/attendance-management", "/dashboard/class-management"}
       else {})
  }

  class Sidebar {
    var openMantenimiento: bool
    var openControlAsistencia: bool
    var userInfo: Option<Profile>
    var role: Option<string>

    constructor ()
      ensures !openMantenimiento && !openControlAsistencia && userInfo == None && role == None
    {
      openMantenimiento, openControlAsistencia := false, false;
      userInfo, role := None, None;
    }

    /** The mount effect: `fetchUserInfo` then `fetchUserCheckInfo`. */
    method FetchMaster(jar: CookieJar, profile: Reply<Profile>) returns (navigation: Option<string>)
      modifies this, jar
      ensures jar.entries == AfterCheck(AfterProfile(old(jar.entries), profile))
      ensures navigation == if MustSelectProject(AfterProfile(old(jar.entries), profile))
                            then Some(SelectProjectPath) else None
      ensures profile.Ok? ==> userInfo == Some(profile.value) && role == Some(profile.value.role)
      ensures profile.Failed? ==> userInfo == old(userInfo) && role == old(role)
      ensures openMantenimiento == old(openMantenimiento) && openControlAsistencia == old(openControlAsistencia)
    {
      match profile {
        case Ok(p) =>
          userInfo := Some(p);
          role := Some(p.role);
          jar.Create(UserRole, p.role);
        case Failed =>
      }
      navigation := None;
      var committeeId := jar.Read(CommitteeId);
      var teamRole := jar.Read(TeamRole);
      var selectedProject := jar.Read(SelectedProject);
      var userRole := jar.Read(UserRole);
      if (!Truthy(selectedProject) && (!Truthy(committeeId) || !Truthy(teamRole)))
         && (userRole != Some(Admin) && userRole != Some(ProjectLead))
      {
        jar.Delete(SelectedProject);
        jar.Delete(CommitteeId);
        jar.Delete(TeamRole);
        navigation := Some(SelectProjectPath);
      }
    }

    method ToggleMantenimiento()
      modifies this
      ensures openMantenimiento == !old(openMantenimiento)
      ensures openControlAsistencia == old(openControlAsistencia) && role == old(role) && userInfo == old(userInfo)
    {
      openMantenimiento := !openMantenimiento;
    }

    method ToggleControlAsistencia()
      modifies this
      ensures openControlAsistencia == !old(openControlAsistencia)
      ensures openMantenimiento == old(openMantenimiento) && role == old(role) && userInfo == old(userInfo)
    {
      openControlAsistencia := !openControlAsistencia;
    }

    /** "Seleccionar Proyecto": forget the project markers, keep `userRole`. */
    method HandleSelectProject(jar: CookieJar) returns (navigation: string)
      modifies jar
      ensures jar.entries == old(jar.entries) - ProjectMarkers
      ensures navigation == SelectProjectPath
    {
      jar.Delete(SelectedProject);
      jar.Delete(CommitteeId);
      jar.Delete(TeamRole);
      navigation := SelectProjectPath;
    }

    /** "Cerrar Sesión": the markers are deleted and the login route opened only
        after the logout request succeeds; a failed request changes nothing. */
    method HandleLogout(jar: CookieJar, logout: Reply<()>) returns (navigation: Option<string>)
      modifies jar
      ensures logout.Ok? ==> jar.entries == old(jar.entries) - AllMarkers && navigation == Some(LoginPath)
      ensures logout.Failed? ==> jar.entries == old(jar.entries) && navigation == None
    {
      match logout
      case Ok(_) =>
        jar.Delete(SelectedProject);
        jar.Delete(CommitteeId);
        jar.Delete(TeamRole);
        jar.Delete(UserRole);
        navigation := Some(LoginPath);
      case Failed =>
        navigation := None;
    }

    function Menu(): set<MenuItem>
      reads this
    {
      MenuItems(role)
    }
  }

  /** A member who changes project is bounced by the next check, and keeps
      being bounced: the check's verdict after "change project" is fixed by
      the role alone. */
  lemma ChangeProjectThenCheck(s: Store)
    ensures MustSelectProject(s - ProjectMarkers) <==> !IsPrivileged(Get(s, UserRole))
  {
    assert Get(s - ProjectMarkers, SelectedProject) == None;
    assert Get(s - ProjectMarkers, UserRole) == Get(s, UserRole);
  }

  /** After logout no marker is left, so the next check always fires. */
  lemma LogoutClearsEveryMarker(s: Store)
    ensures forall k :: k in AllMarkers ==> Get(s - AllMarkers, k) == None
    ensures MustSelectProject(s - AllMarkers)
  {
    assert Get(s - AllMarkers, UserRole) == None;
  }
}
