/** How the layout gate, the sidebar check and the project selector agree on
    the markers they share. */
module SessionFlow {
  import opened Common
  import opened Cookies
  import LayoutGate
  import SidebarMenu

  /** Choosing a non-empty project in the selector lets a member through both
      the layout gate and the sidebar check on every path. */
  lemma ChosenProjectAdmitsMember(s: Store, projectId: string, role: Option<string>, pathname: string)
    requires projectId != "" && Truthy(role) && !IsPrivileged(role)
    ensures LayoutGate.Render(false, role, Get(s[SelectedProject := projectId], SelectedProject), pathname).MemberShell?
    ensures !SidebarMenu.MustSelectProject(s[SelectedProject := projectId])
  {
    assert Get(s[SelectedProject := projectId], SelectedProject) == Some(projectId);
  }

  /** Whenever the layout renders a shell outside the selector route for the
      role held in the `userRole` marker, the sidebar mounted inside it does
      not bounce the user (before its own profile fetch). */
  lemma LayoutShellImpliesNoSidebarBounce(s: Store, pathname: string)
    requires pathname != LayoutGate.SelectProjectPath
    requires LayoutGate.Render(false, Get(s, UserRole), Get(s, SelectedProject), pathname).IsShell()
    ensures !SidebarMenu.MustSelectProject(s)
  {
  }

  /** The converse fails: with a committee id and a team role but no selected
      project, the sidebar check lets a member stay while the layout gate
      sends them to the selector. */
  lemma SidebarLaxerThanLayout()
    ensures var s := map[CommitteeId := "c1", TeamRole := "r1", UserRole := "user"];
            && !SidebarMenu.MustSelectProject(s)
            && LayoutGate.Render(false, Some("user"), Get(s, SelectedProject), "/dashboard") == LayoutGate.RedirectToSelectProject
  {
    var s := map[CommitteeId := "c1", TeamRole := "r1", UserRole := "user"];
    assert Get(s, UserRole) == Some("user");
    assert Get(s, CommitteeId) == Some("c1") && Get(s, TeamRole) == Some("r1");
  }

  /** After "change project" a member is sent back to the selector by both
      the sidebar check and the layout gate, on every path but the selector. */
  lemma ChangeProjectSendsMemberBack(s: Store, role: Option<string>, pathname: string)
    requires Truthy(role) && !IsPrivileged(role) && Get(s, UserRole) == role
    requires pathname != LayoutGate.SelectProjectPath
    ensures SidebarMenu.MustSelectProject(s - ProjectMarkers)
    ensures LayoutGate.Render(false, role, Get(s - ProjectMarkers, SelectedProject), pathname) == LayoutGate.RedirectToSelectProject
  {
    SidebarMenu.ChangeProjectThenCheck(s);
    assert Get(s - ProjectMarkers, SelectedProject) == None;
  }
}
