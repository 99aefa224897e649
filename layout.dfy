/** The layout gate (`Layout.js`): on mount it reads the `selectedProject`
    marker, asks the API to verify the session, and then renders one of five
    outcomes from the verified role, that marker and the current path. */
module LayoutGate {
  import opened Common
  import opened Cookies

  const LoginPath: string := "/"
  const SelectProjectPath: string := "/select-project"
  const DashboardPath: string := "/dashboard"

  /** What the layout renders. The shells say whether the dashboard widget
      of their kind is shown above the nested route. */
  datatype View =
    | Spinner
    | RedirectToLogin
    | PrivilegedShell(showsAdminDashboard: bool)
    | RedirectToSelectProject
    | MemberShell(showsUserDashboard: bool)
  {
    predicate IsShell() { PrivilegedShell? || MemberShell? }
  }

  /** The render decision of the component body. */
  function Render(loading: bool, role: Option<string>, selectedProject: Option<string>, pathname: string): (v: View)
    ensures v == Spinner <==> loading
    ensures v == RedirectToLogin <==> !loading && !Truthy(role)
    ensures v.PrivilegedShell? <==> !loading && IsPrivileged(role)
    ensures v == RedirectToSelectProject <==>
              !loading && Truthy(role) && !IsPrivileged(role) && !Truthy(selectedProject) && pathname != SelectProjectPath
    ensures v.MemberShell? <==>
              !loading && Truthy(role) && !IsPrivileged(role) && (Truthy(selectedProject) || pathname == SelectProjectPath)
    ensures v.PrivilegedShell? ==> (v.showsAdminDashboard <==> pathname == DashboardPath)
    ensures v.MemberShell? ==> (v.showsUserDashboard <==> pathname == DashboardPath)
  {
    if loading then Spinner
    else if !Truthy(role) then RedirectToLogin
    else if role == Some(Admin) || role == Some(ProjectLead) then PrivilegedShell(pathname == DashboardPath)
    else if role != Some(Admin) && role != Some(ProjectLead) && !Truthy(selectedProject) && pathname != SelectProjectPath
    then RedirectToSelectProject
    else MemberShell(pathname == DashboardPath)
  }

  /** A privileged role reaches its shell whatever the project marker holds,
      and is never sent to the project selector. */
  lemma PrivilegedBypassesSelection(role: Option<string>, selectedProject: Option<string>, pathname: string)
    requires IsPrivileged(role)
    ensures Render(false, role, selectedProject, pathname).PrivilegedShell?
    ensures forall loading: bool :: Render(loading, role, selectedProject, pathname) != RedirectToSelectProject
  {
  }

  /** A member without a selected project reaches no shell anywhere but on the
      selector route itself. */
  lemma MemberNeedsProject(loading: bool, role: Option<string>, selectedProject: Option<string>, pathname: string)
    requires !IsPrivileged(role) && !Truthy(selectedProject) && pathname != SelectProjectPath
    ensures !Render(loading, role, selectedProject, pathname).IsShell()
  {
  }

  /** The dashboard widgets appear only in their own shell and only on the
      exact `/dashboard` path. */
  lemma DashboardsOnlyOnDashboardPath(loading: bool, role: Option<string>, selectedProject: Option<string>, pathname: string)
    ensures Render(loading, role, selectedProject, pathname) == PrivilegedShell(true) ==> IsPrivileged(role) && pathname == DashboardPath
    ensures Render(loading, role, selectedProject, pathname) == MemberShell(true) ==> !IsPrivileged(role) && pathname == DashboardPath
  {
  }

  /** The layout component's state. */
  class Layout {
    var role: Option<string>
    var loading: bool
    var selectedProject: Option<string>

    constructor ()
      ensures role == None && loading && selectedProject == None
    {
      role, loading, selectedProject := None, true, None;
    }

    /** The `checkSession` effect. The marker is read before the request; on
        success the role and that marker value are stored and loading ends;
        on failure the only effect is a navigation to the login route, and
        `loading` stays true. */
    method CheckSession(jar: CookieJar, verify: Reply<Option<string>>) returns (navigation: Option<string>)
      modifies this
      ensures verify.Ok? ==>
                role == verify.value && selectedProject == Get(jar.entries, SelectedProject) && !loading && navigation == None
      ensures verify.Failed? ==>
                role == old(role) && loading == old(loading) && selectedProject == old(selectedProject)
                && navigation == Some(LoginPath)
    {
      var project := jar.Read(SelectedProject);
      match verify
      case Ok(r) =>
        role := r;
        selectedProject := project;
        loading := false;
        navigation := None;
      case Failed =>
        navigation := Some(LoginPath);
    }

    function Output(pathname: string): View
      reads this
    {
      Render(loading, role, selectedProject, pathname)
    }
  }

  /** A whole mount: construct the layout, run the session check against the
      given store and response, then render at the given path. */
  method Mount(jar: CookieJar, verify: Reply<Option<string>>, pathname: string) returns (view: View, navigation: Option<string>)
    ensures verify.Failed? ==> view == Spinner && navigation == Some(LoginPath)
    ensures verify.Ok? ==> navigation == None && view == Render(false, verify.value, jar.Read(SelectedProject), pathname)
    ensures verify.Ok? && IsPrivileged(verify.value) ==> view.PrivilegedShell?
    ensures verify.Ok? && !Truthy(verify.value) ==> view == RedirectToLogin
  {
    var layout := new Layout();
    navigation := layout.CheckSession(jar, verify);
    view := layout.Output(pathname);
  }
}
