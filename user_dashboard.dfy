/** The member dashboard (`UserDashboard.js`): loads the user's teams,
    selects the first one and lists its projects; clicking a team selects it
    and lists its projects. */
module Dashboard {
  import opened Common

  datatype Team = Team(id: string, name: string, role: string)
  datatype Project = Project(id: string, name: string, description: string)

  class UserDashboard {
    var teams: seq<Team>
    var projects: seq<Project>
    var selectedTeam: Option<string>

    constructor ()
      ensures teams == [] && projects == [] && selectedTeam == None
    {
      teams, projects, selectedTeam := [], [], None;
    }

    /** `fetchTeamsAndProjects`. `projectsQuery` is the `teamId` of the project
        request, None when none is made. */
    method FetchTeamsAndProjects(teamsReply: Reply<seq<Team>>, projectsReply: Reply<seq<Project>>)
      returns (projectsQuery: Option<string>)
      modifies this
      ensures teamsReply.Failed? ==>
                teams == old(teams) && projects == old(projects) && selectedTeam == old(selectedTeam) && projectsQuery == None
      ensures teamsReply.Ok? ==> teams == teamsReply.value
      ensures teamsReply.Ok? && teamsReply.value == [] ==>
                projects == old(projects) && selectedTeam == old(selectedTeam) && projectsQuery == None
      ensures teamsReply.Ok? && teamsReply.value != [] ==>
                && selectedTeam == Some(teamsReply.value[0].id)
                && projectsQuery == Some(teamsReply.value[0].id)
                && projects == (if projectsReply.Ok? then projectsReply.value else old(projects))
    {
      projectsQuery := None;
      match teamsReply
      case Ok(ts) =>
        teams := ts;
        if |ts| > 0 {
          selectedTeam := Some(ts[0].id);
          projectsQuery := Some(ts[0].id);
          match projectsReply {
            case Ok(ps) => projects := ps;
            case Failed =>
          }
        }
      case Failed =>
    }

    /** `handleTeamClick`: the team is selected before the request, whatever
        its outcome; the projects change only on success. */
    method HandleTeamClick(teamId: string, projectsReply: Reply<seq<Project>>) returns (projectsQuery: string)
      modifies this
      ensures selectedTeam == Some(teamId) && projectsQuery == teamId && teams == old(teams)
      ensures projects == (if projectsReply.Ok? then projectsReply.value else old(projects))
    {
      selectedTeam := Some(teamId);
      projectsQuery := teamId;
      match projectsReply
      case Ok(ps) => projects := ps;
      case Failed =>
    }
  }
}
