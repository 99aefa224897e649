/** The five list screens (`clase`, `Usuario`, `estudiante`, `curso` and
    `dispositivo` index pages). Each fetches one page of rows with a query
    built from its state and the `userRole` marker, shows activation buttons
    to some roles, resets to page 1 when the page size changes and shows
    ceil(rows / page size) pages. The class screen also expands one class at
    a time and can remove a student. */
module ListScreens {
  import opened Common
  import opened Cookies

  datatype Screen = Clases | Usuarios | Estudiantes | Cursos | Dispositivos

  /** One row; only its id and activation flag matter to the screen logic. */
  datatype Row = Row(id: string, active: bool)

  /** The GET a screen issues. `active` is None when the parameter is
      `undefined` (and so not sent). */
  datatype Query = Query(path: string, limit: nat, sort: string, search: string,
                         searchesEmail: bool, active: Option<bool>)

  /** A list response: a body whose `data` may be missing, or an error. */
  datatype ListResponse = Received(data: Option<seq<Row>>) | Errored

  datatype Button = Activar | Desactivar

  /** A row action that PATCHes and then refetches on success. */
  datatype RowAction = Activate | Deactivate | RemoveStudent(studentId: string)

  const PageSizes: set<nat> := {5, 10, 15}

  function ListPath(screen: Screen): string {
    match screen
    case Clases => "/clase"
    case Usuarios => "/usuario/obtenerUsuarios"
    case Estudiantes => "/estudiante"
    case Cursos => "/curso"
    case Dispositivos => "/dispositivo"
  }

  function ResourcePath(screen: Screen): string {
    match screen
    case Clases => "/clase"
    case Usuarios => "/usuario"
    case Estudiantes => "/estudiante"
    case Cursos => "/curso"
    case Dispositivos => "/dispositivo"
  }

  /** The `active` parameter: the class screen never sends one; the user
      screen leaves it out only for `admin`; the student, course and device
      screens leave it out for both privileged roles. Everyone else only
      gets active rows. */
  function ActiveFilter(screen: Screen, role: Option<string>): (active: Option<bool>)
    ensures active != None ==> active == Some(true)
    ensures screen == Clases ==> active == None
    ensures screen == Usuarios ==> (active == None <==> IsAdmin(role))
    ensures screen in {Estudiantes, Cursos, Dispositivos} ==> (active == None <==> IsPrivileged(role))
  {
    match screen
    case Clases => None
    case Usuarios => if role == Some(Admin) then None else Some(true)
    case _ => if role == Some(Admin) || role == Some(ProjectLead) then None else Some(true)
  }

  /** The activation button of a row: shown only to `admin` on the user screen
      and to both privileged roles elsewhere; DESACTIVAR for an active row,
      ACTIVAR otherwise. */
  function ActivationButton(screen: Screen, role: Option<string>, row: Row): (b: Option<Button>)
    ensures b.Some? <==> (if screen == Usuarios then IsAdmin(role) else IsPrivileged(role))
    ensures b.Some? ==> (b.value == Desactivar <==> row.active)
  {
    var shown := if screen == Usuarios then role == Some(Admin) else role == Some(Admin) || role == Some(ProjectLead);
    if !shown then None else if row.active then Some(Desactivar) else Some(Activar)
  }

  /** The status cell of the user screen. */
  function StatusLabel(row: Row): (text: string)
    ensures text == "Activo" <==> row.active
    ensures text == "Inactivo" <==> !row.active
  {
    if row.active then "Activo" else "Inactivo"
  }

  /** On every screen with an `active` filter, the roles that see the
      activation buttons are exactly the roles that also get inactive rows,
      so an ACTIVAR button can only ever be shown to someone who is sent
      inactive rows. A `jefe proyecto` gets only active users but all
      students, courses and devices. */
  lemma ButtonsMatchFilter(screen: Screen, role: Option<string>, row: Row)
    requires screen != Clases
    ensures ActivationButton(screen, role, row).Some? <==> ActiveFilter(screen, role) == None
    ensures ActiveFilter(Usuarios, Some(ProjectLead)) == Some(true)
    ensures screen != Usuarios ==> ActiveFilter(screen, Some(ProjectLead)) == None
  {
  }

  /** `Math.ceil(length / rowsPerPage)` */
  function PageCount(length: nat, rowsPerPage: nat): (count: nat)
    requires rowsPerPage > 0
    ensures length <= count * rowsPerPage
    ensures count > 0 ==> (count - 1) * rowsPerPage < length
    ensures count == 0 <==> length == 0
  {
    (length + rowsPerPage - 1) / rowsPerPage
  }

  /** `response.data && response.data.data ? response.data.data : []`, and
      `[]` on an error. */
  function RowsFrom(response: ListResponse): (rows: seq<Row>)
    ensures response.Errored? ==> rows == []
    ensures response.Received? && response.data.Some? ==> rows == response.data.value
    ensures response.Received? && response.data.None? ==> rows == []
  {
    match response
    case Received(data) => OrEmpty(data)
    case Errored => []
  }

  /** `handleExpandClick`: the clicked class collapses when it is the one
      expanded, and is expanded otherwise. */
  function Toggle(expanded: Option<string>, classId: string): (r: Option<string>)
    ensures r == None <==> expanded == Some(classId)
    ensures r != None ==> r == Some(classId)
  {
    if expanded == Some(classId) then None else Some(classId)
  }

  /** Two clicks on the same class restore the state when nothing or that same
      class was expanded; when another class was expanded they collapse all. */
  lemma ToggleTwice(expanded: Option<string>, classId: string)
    ensures Toggle(Toggle(expanded, classId), classId) == (if expanded == Some(classId) then expanded else None)
    ensures Toggle(Toggle(expanded, classId), classId) == expanded <==> expanded == None || expanded == Some(classId)
  {
  }

  /** A screen's state. `userRole` is the marker as read by the latest render. */
  class ListView {
    const screen: Screen
    var userRole: Option<string>
    var rows: seq<Row>
    var loading: bool
    var page: nat
    var rowsPerPage: nat
    var search: string
    var sortField: string
    var expandedClass: Option<string>

    predicate Valid()
      reads this
    {
      rowsPerPage in PageSizes && page >= 1
    }

    constructor (screen: Screen, jar: CookieJar)
      ensures Valid()
      ensures this.screen == screen && userRole == Get(jar.entries, UserRole)
      ensures rows == [] && loading && page == 1 && rowsPerPage == 10
      ensures search == "" && sortField == "createdAt" && expandedClass == None
    {
      this.screen := screen;
      userRole := jar.Read(UserRole);
      rows, loading := [], true;
      page, rowsPerPage := 1, 10;
      search, sortField := "", "createdAt";
      expandedClass := None;
    }

    /** A re-render: every screen reads the `userRole` marker again. All but
        the user screen list `userRole` among their effect's dependencies, so
        a changed role triggers a refetch there and not on the user screen
        (whose next fetch still uses the new role). */
    method Rerender(jar: CookieJar) returns (refetches: bool)
      modifies this
      ensures userRole == Get(jar.entries, UserRole)
      ensures refetches <==> screen != Usuarios && userRole != old(userRole)
      ensures rows == old(rows) && loading == old(loading) && page == old(page)
      ensures rowsPerPage == old(rowsPerPage) && search == old(search)
      ensures sortField == old(sortField) && expandedClass == old(expandedClass)
    {
      var role := jar.Read(UserRole);
      refetches := screen != Usuarios && role != userRole;
      userRole := role;
    }

    /** The page count the pagination widget shows. */
    function Pages(): nat
      reads this
      requires Valid()
    {
      PageCount(|rows|, rowsPerPage)
    }

    /** The fetch function of the screen (`fetchClases`, `fetchUsers`, ...). */
    method Fetch(response: ListResponse) returns (query: Query)
      requires Valid()
      modifies this
      ensures Valid()
      ensures query == Query(ListPath(screen), rowsPerPage, sortField, search, screen == Usuarios,
                             ActiveFilter(screen, userRole))
      ensures rows == RowsFrom(response) && !loading
      ensures page == old(page) && rowsPerPage == old(rowsPerPage) && search == old(search)
      ensures sortField == old(sortField) && expandedClass == old(expandedClass)
      ensures userRole == old(userRole)
    {
      loading := true;
      var active: Option<bool> := if screen == Clases then None else Some(true);
      if (screen == Usuarios && userRole == Some(Admin))
         || (screen in {Estudiantes, Cursos, Dispositivos} && (userRole == Some(Admin) || userRole == Some(ProjectLead)))
      {
        active := None;
      }
      query := Query(ListPath(screen), rowsPerPage, sortField, search, screen == Usuarios, active);
      match response {
        case Received(data) =>
          if data.Some? {
            rows := data.value;
          } else {
            rows := [];
          }
          loading := false;
        case Errored =>
          rows := [];
          loading := false;
      }
    }

    /** `handleRowsPerPageChange`: the select offers 5, 10 and 15. */
    method ChangeRowsPerPage(n: nat)
      requires Valid() && n in PageSizes
      modifies this
      ensures Valid()
      ensures rowsPerPage == n && page == 1
      ensures rows == old(rows) && loading == old(loading) && search == old(search)
      ensures sortField == old(sortField) && expandedClass == old(expandedClass)
      ensures userRole == old(userRole)
    {
      rowsPerPage := n;
      page := 1;
    }

    /** `handlePageChange` */
    method ChangePage(newPage: nat)
      requires Valid() && newPage >= 1
      modifies this
      ensures Valid()
      ensures page == newPage && rowsPerPage == old(rowsPerPage) && rows == old(rows)
      ensures loading == old(loading) && search == old(search)
      ensures sortField == old(sortField) && expandedClass == old(expandedClass)
      ensures userRole == old(userRole)
    {
      page := newPage;
    }

    /** `handleExpandClick`, on the class screen. */
    method ExpandClick(classId: string)
      requires screen == Clases
      modifies this
      ensures expandedClass == Toggle(old(expandedClass), classId)
      ensures rows == old(rows) && loading == old(loading) && page == old(page)
      ensures rowsPerPage == old(rowsPerPage) && search == old(search) && sortField == old(sortField)
      ensures userRole == old(userRole)
    {
      expandedClass := if expandedClass == Some(classId) then None else Some(classId);
    }

    /** `handleActivar`, `handleDesactivar` and, on the class screen,
        `handleRemoveStudent`: the PATCH (with an empty body, or the
        `studen_id` of the student to remove), then a refetch only when it
        succeeded. */
    method RunRowAction(id: string, action: RowAction, patch: Reply<()>, refetch: ListResponse)
      returns (patchPath: string, patchBody: map<string, string>, query: Option<Query>)
      requires Valid()
      requires action.RemoveStudent? ==> screen == Clases
      modifies this
      ensures Valid()
      ensures patchPath == ResourcePath(screen) + "/" + id + "/" +
                           (match action
                            case Activate => "activar"
                            case Deactivate => "desactivar"
                            case RemoveStudent(_) => "quitar-estudiante")
      ensures patchBody == (match action
                            case RemoveStudent(studentId) => map["studen_id" := studentId]
                            case _ => map[])
      ensures patch.Ok? ==> rows == RowsFrom(refetch) && !loading
                            && query == Some(Query(ListPath(screen), rowsPerPage, sortField, search,
                                                   screen == Usuarios, ActiveFilter(screen, userRole)))
      ensures patch.Failed? ==> rows == old(rows) && loading == old(loading) && query == None
      ensures page == old(page) && rowsPerPage == old(rowsPerPage) && search == old(search)
      ensures sortField == old(sortField) && expandedClass == old(expandedClass)
      ensures userRole == old(userRole)
    {
      var verb := match action
        case Activate => "activar"
        case Deactivate => "desactivar"
        case RemoveStudent(_) => "quitar-estudiante";
      patchPath := ResourcePath(screen) + "/" + id + "/" + verb;
      patchBody := match action
        case RemoveStudent(studentId) => map["studen_id" := studentId]
        case _ => map[];
      query := None;
      if patch.Ok? {
        var q := Fetch(refetch);
        query := Some(q);
      }
    }
  }
}
