/** The project selector (`SelectProject.js`): loads the user's team roles,
    committees and profile, lets the user pick either a team role or a
    committee (never both) to list projects, and records the chosen project. */
module ProjectSelection {
  import opened Common
  import opened Cookies

  const LoginPath: string := "/"
  const DashboardPath: string := "/dashboard"
  const CommitteeProjectsPath: string := "/usuario/listar-comite-proyecto"
  const RoleProjectsPrefix: string := "/usuario/listar-proyecto-rol-proyecto/"
  const FetchDataError: string := "Error fetching data"
  const FetchProjectsError: string := "Error fetching projects"

  /** A team role or a committee as listed by the API (`{id, nombre}`). */
  datatype Membership = Membership(id: string, nombre: string)

  /** A project entry; `id` is `proyecto_id._id`. */
  datatype Project = Project(id: string, nombre: string)

  /** The request `fetchProjects` issues. */
  datatype ProjectsRequest =
    | ByRole(path: string)
    | ByCommittee(path: string, comiteId: string)

  /** How a possibly-null id is written into a template string. */
  function Interpolated(id: Option<string>): string {
    match id
    case Some(v) => v
    case None => "null"
  }

  /** The endpoint choice of `fetchProjects(roleId, committeeId)`. */
  function ProjectsEndpoint(roleId: Option<string>, committeeId: Option<string>): (r: ProjectsRequest)
    ensures r.ByCommittee? <==> Truthy(committeeId)
    ensures r.ByCommittee? ==> r.path == CommitteeProjectsPath && Some(r.comiteId) == committeeId
    ensures r.ByRole? ==> r.path == RoleProjectsPrefix + Interpolated(roleId)
  {
    if Truthy(committeeId) then ByCommittee(CommitteeProjectsPath, committeeId.value)
    else ByRole(RoleProjectsPrefix + Interpolated(roleId))
  }

  /** The index of the first failing request among the four sequential ones
      of the initial load (verify session, roles, committees, profile), or 4
      when all succeed. */
  function FirstFailure(verifyOk: bool, rolesOk: bool, committeesOk: bool, profileOk: bool): (k: nat)
    ensures k <= 4
    ensures k == 4 <==> verifyOk && rolesOk && committeesOk && profileOk
    ensures k > 0 <==> verifyOk
    ensures k > 1 <==> verifyOk && rolesOk
    ensures k > 2 <==> verifyOk && rolesOk && committeesOk
  {
    if !verifyOk then 0 else if !rolesOk then 1 else if !committeesOk then 2 else if !profileOk then 3 else 4
  }

  class SelectProject {
    var roles: seq<Membership>
    var committees: seq<Membership>
    var projects: seq<Project>
    var userInfo: Option<Profile>
    var loading: bool
    var projectsLoading: bool
    var selectedRole: Option<string>
    var selectedCommittee: Option<string>
    var snackbarOpen: bool
    var snackbarMessage: string

    /** At most one of the two filters is selected. */
    predicate Valid()
      reads this
    {
      selectedRole == None || selectedCommittee == None
    }

    constructor ()
      ensures Valid()
      ensures roles == [] && committees == [] && projects == [] && userInfo == None
      ensures loading && !projectsLoading && selectedRole == None && selectedCommittee == None
      ensures !snackbarOpen && snackbarMessage == ""
    {
      roles, committees, projects, userInfo := [], [], [], None;
      loading, projectsLoading := true, false;
      selectedRole, selectedCommittee := None, None;
      snackbarOpen, snackbarMessage := false, "";
    }

    /** The mount effect `fetchInitialData`. An existing `selectedProject`
        marker issues a navigation to the dashboard but does not stop the four
        requests. A failing request skips the later ones, keeps what the
        earlier ones stored, shows the error notice and navigates to login.
        `requested` is the number of requests issued. */
    method FetchInitialData(jar: CookieJar, verify: Reply<()>,
                            rolesReply: Reply<Option<seq<Membership>>>,
                            committeesReply: Reply<Option<seq<Membership>>>,
                            profileReply: Reply<Option<Profile>>)
      returns (navigations: seq<string>, requested: nat)
      requires Valid()
      modifies this
      ensures Valid()
      ensures var k := FirstFailure(verify.Ok?, rolesReply.Ok?, committeesReply.Ok?, profileReply.Ok?);
              && requested == (if k == 4 then 4 else k + 1)
              && roles == (if k > 1 then OrEmpty(rolesReply.value) else old(roles))
              && committees == (if k > 2 then OrEmpty(committeesReply.value) else old(committees))
              && userInfo == (if k == 4 then profileReply.value else old(userInfo))
              && navigations == (if Truthy(jar.Read(SelectedProject)) then [DashboardPath] else [])
                                + (if k == 4 then [] else [LoginPath])
              && (k < 4 ==> snackbarOpen && snackbarMessage == FetchDataError)
              && (k == 4 ==> snackbarOpen == old(snackbarOpen) && snackbarMessage == old(snackbarMessage))
      ensures !loading
      ensures projects == old(projects) && projectsLoading == old(projectsLoading)
      ensures selectedRole == old(selectedRole) && selectedCommittee == old(selectedCommittee)
    {
      navigations := [];
      if Truthy(jar.Read(SelectedProject)) {
        navigations := navigations + [DashboardPath];
      }
      var failed := true;
      requested := 1;
      if verify.Ok? {
        requested := 2;
        if rolesReply.Ok? {
          roles := OrEmpty(rolesReply.value);
          requested := 3;
          if committeesReply.Ok? {
            committees := OrEmpty(committeesReply.value);
            requested := 4;
            if profileReply.Ok? {
              userInfo := profileReply.value;
              loading := false;
              failed := false;
            }
          }
        }
      }
      if failed {
        snackbarMessage := FetchDataError;
        snackbarOpen := true;
        loading := false;
        navigations := navigations + [LoginPath];
      }
    }

    /** `fetchProjects`: the projects list is replaced only by a response;
        `projectsLoading` ends false either way. */
    method FetchProjects(roleId: Option<string>, committeeId: Option<string>,
                         reply: Reply<Option<seq<Project>>>)
      returns (request: ProjectsRequest)
      modifies this
      ensures request == ProjectsEndpoint(roleId, committeeId)
      ensures !projectsLoading
      ensures reply.Ok? ==> projects == OrEmpty(reply.value)
                            && snackbarOpen == old(snackbarOpen) && snackbarMessage == old(snackbarMessage)
      ensures reply.Failed? ==> projects == old(projects) && snackbarOpen && snackbarMessage == FetchProjectsError
      ensures roles == old(roles) && committees == old(committees) && userInfo == old(userInfo)
      ensures loading == old(loading) && selectedRole == old(selectedRole) && selectedCommittee == old(selectedCommittee)
    {
      projectsLoading := true;
      request := ProjectsEndpoint(roleId, committeeId);
      match reply
      case Ok(data) =>
        projects := OrEmpty(data);
        projectsLoading := false;
      case Failed =>
        snackbarMessage := FetchProjectsError;
        snackbarOpen := true;
        projectsLoading := false;
    }

    /** `handleSelectProject`: record the project and open the dashboard. */
    method HandleSelectProject(jar: CookieJar, projectId: string) returns (navigation: string)
      modifies jar
      ensures jar.entries == old(jar.entries)[SelectedProject := projectId]
      ensures navigation == DashboardPath
    {
      jar.Create(SelectedProject, projectId);
      navigation := DashboardPath;
    }

    /** `handleRoleClick`: writes the `teamRole` marker (the `committeeId`
        marker is left as it was), selects the role, clears the committee
        selection and lists the role's projects. */
    method HandleRoleClick(jar: CookieJar, roleId: string, roleName: string,
                           reply: Reply<Option<seq<Project>>>)
      returns (request: ProjectsRequest)
      requires Valid()
      modifies this, jar
      ensures Valid()
      ensures jar.entries == old(jar.entries)[TeamRole := roleName]
      ensures Get(jar.entries, CommitteeId) == Get(old(jar.entries), CommitteeId)
      ensures selectedRole == Some(roleId) && selectedCommittee == None
      ensures request == ByRole(RoleProjectsPrefix + roleId)
      ensures reply.Ok? ==> projects == OrEmpty(reply.value)
      ensures reply.Ok? ==> snackbarOpen == old(snackbarOpen) && snackbarMessage == old(snackbarMessage)
      ensures reply.Failed? ==> projects == old(projects) && snackbarOpen && snackbarMessage == FetchProjectsError
      ensures !projectsLoading
      ensures roles == old(roles) && committees == old(committees) && userInfo == old(userInfo)
      ensures loading == old(loading)
    {
      jar.Create(TeamRole, roleName);
      selectedRole := Some(roleId);
      selectedCommittee := None;
      request := FetchProjects(Some(roleId), None, reply);
    }

    /** `handleCommitteeClick`: the mirror image of `HandleRoleClick`; the
        request goes to the committee endpoint only when the id is truthy. */
    method HandleCommitteeClick(jar: CookieJar, committeeId: string,
                                reply: Reply<Option<seq<Project>>>)
      returns (request: ProjectsRequest)
      requires Valid()
      modifies this, jar
      ensures Valid()
      ensures jar.entries == old(jar.entries)[CommitteeId := committeeId]
      ensures Get(jar.entries, TeamRole) == Get(old(jar.entries), TeamRole)
      ensures selectedCommittee == Some(committeeId) && selectedRole == None
      ensures committeeId != "" ==> request == ByCommittee(CommitteeProjectsPath, committeeId)
      ensures committeeId == "" ==> request == ByRole(RoleProjectsPrefix + "null")
      ensures reply.Ok? ==> projects == OrEmpty(reply.value)
      ensures reply.Ok? ==> snackbarOpen == old(snackbarOpen) && snackbarMessage == old(snackbarMessage)
      ensures reply.Failed? ==> projects == old(projects) && snackbarOpen && snackbarMessage == FetchProjectsError
      ensures !projectsLoading
      ensures roles == old(roles) && committees == old(committees) && userInfo == old(userInfo)
      ensures loading == old(loading)
    {
      jar.Create(CommitteeId, committeeId);
      selectedCommittee := Some(committeeId);
      selectedRole := None;
      request := FetchProjects(None, Some(committeeId), reply);
    }
  }
}
