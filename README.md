# Session gating and screen logic of the project management console

This project models, in Dafny, the client-side decision and state logic of a
React administrative console for a school/project management system. Every
HTTP call is a parameter of the model: a reply with its payload, or a failure.
The browser cookie store that holds the session markers (`selectedProject`,
`committeeId`, `teamRole`, `userRole`) is a `map<string, string>` held by a
`CookieJar` object.

What is modelled, one module per source file:

- `LayoutGate` (`src/views/Layout.js`): the session check on mount and the
  five-way render decision (spinner, redirect to login, privileged shell,
  redirect to the project selector, member shell).
- `SidebarMenu` (`src/views/Sidebar.js`): the profile fetch that writes
  `userRole`, the bounce-to-selector check and the markers it deletes,
  "change project", logout, the two collapse toggles and role-based menu
  visibility.
- `ProjectSelection` (`src/views/SelectProject.js`): the four-request initial
  load, the choice of project endpoint, and the role/committee/project
  handlers. The class invariant says at most one of role and committee is
  selected.
- `ScheduleEditing` (`src/views/clase/agregarHorario.js`): the two-level
  schedule list and its four editing handlers. The list builders are pure
  functions; the handlers are methods on the component's state.
- `LoginForm` (`src/views/auth/login.js`): the validator, the gating of the
  login request, the failure message and the existing-session redirect. The
  email regular expression is a character-level predicate, proved equivalent
  to the shape the regular expression accepts.
- `ListScreens` (the `index.js` files of `clase`, `Usuario`, `estudiante`,
  `curso` and `dispositivo`): one `ListView` class with a `Screen` tag. It
  covers the per-screen `active` filter, activation-button gating, fetch
  result handling, the page reset, the page count and the expand toggle of
  the class screen.
- `UserEditForm` (`src/views/Usuario/edit.js`), `StudentRegistration`
  (`src/views/estudiante/register.js`) and `Dashboard`
  (`src/views/UserDashboard.js`): form state, payload construction, and
  default team selection.
- `SessionFlow`: lemmas about how the layout gate, the sidebar check and the
  selector agree on the shared markers.
- `Common` and `Cookies`: shared types. These are JavaScript truthiness of an
  optional string, the two privileged role labels (`admin`, `jefe proyecto`),
  and the cookie store of `src/views/ManagerCookies.js`.

Each effect or handler runs as one sequential step: its requests are made in
order and their replies are inputs. A navigation is returned as the target
path.

Behaviours of the code worth noting, which the model keeps:

- Logout deletes the markers only after the logout request succeeds. On
  failure nothing is deleted and there is no navigation.
- The project selector does not short-circuit when `selectedProject` exists.
  It issues a navigation to `/dashboard` and still makes all of its requests.
  There are four sequential requests, starting with a session check.
- On a failed session check the layout calls `navigate('/')` but keeps
  rendering the spinner, because `loading` is never cleared.
- The "change project" menu entry is shown only for the role `user`, not for
  every non-privileged role.
- The layout gate looks only at `selectedProject`. The sidebar check also
  accepts a `committeeId` plus `teamRole` pair (`SessionFlow.SidebarLaxerThanLayout`).
- Clicking the same class twice restores the expanded state only if nothing,
  or that same class, was expanded. If another class was expanded, the two
  clicks collapse everything (`ListScreens.ToggleTwice`).

## Model

| member | source | states |
|---|---|---|
| `Cookies.Get` | src/views/ManagerCookies.js:12 | `getCookie` gives `undefined` (None) exactly when the key has no entry, and otherwise the stored string. |
| `Cookies.CookieJar.Read` | src/views/ManagerCookies.js:12 | Reading the jar gives None exactly when the key is absent, and otherwise that key's stored value. |
| `Cookies.CookieJar.Create` | src/views/ManagerCookies.js:5-11 | Creating an entry overwrites that key and changes no other key. |
| `Cookies.CookieJar.Delete` | src/views/ManagerCookies.js:14-19 | Deleting removes that key only; a missing key stays missing. |
| `LayoutGate.Render` | src/views/Layout.js:39-86 | Each of the five outcomes holds exactly when its condition on loading, role truthiness, privilege, project marker and path holds. Each dashboard widget shows only on the exact path `/dashboard`. |
| `LayoutGate.PrivilegedBypassesSelection` | src/views/Layout.js:46-65 | `admin` and `jefe proyecto` always get the privileged shell, whatever the project marker, and are never redirected to the selector. |
| `LayoutGate.MemberNeedsProject` | src/views/Layout.js:66-68 | A non-privileged role with no truthy project marker, on a path other than `/select-project`, reaches no shell. |
| `LayoutGate.DashboardsOnlyOnDashboardPath` | src/views/Layout.js:60-82 | `AdminDashboard` is shown only in the privileged shell and `UserDashboard` only in the member shell, in each case at `/dashboard` exactly. |
| `LayoutGate.Layout.constructor` | src/views/Layout.js:15-17 | Starts with a null role, a null project and loading true. |
| `LayoutGate.Layout.CheckSession` | src/views/Layout.js:19-37 | The project marker is read before the request. On success, the role and that marker value are stored and loading ends. On failure, the only effect is a navigation to `/`, and loading stays true. |
| `LayoutGate.Mount` | src/views/Layout.js:19-44 | A mount with a failed check shows the spinner and navigates to `/`. A successful check renders the decision for the verified role and the marker read at mount. |
| `SidebarMenu.MustSelectProject` | src/views/Sidebar.js:39 | A truthy `selectedProject`, a truthy `committeeId` plus `teamRole` pair, or a privileged `userRole` each prevent the bounce. A non-privileged user with no project marker at all is bounced. |
| `SidebarMenu.AfterProfile` | src/views/Sidebar.js:25-27 | A fetched profile writes its role under `userRole` and no other key. A failed fetch leaves the store unchanged. |
| `SidebarMenu.AfterCheck` | src/views/Sidebar.js:39-44 | The check only deletes entries, never writes one. Every key other than the three project markers survives it. |
| `SidebarMenu.CheckDeletesProjectMarkers` | src/views/Sidebar.js:39-44 | When the bounce condition holds, exactly `selectedProject`, `committeeId` and `teamRole` are deleted and `userRole` is kept. Otherwise the store is unchanged. |
| `SidebarMenu.CheckIdempotent` | src/views/Sidebar.js:33-45 | Running the check again after it ran changes nothing, and its verdict does not change. |
| `SidebarMenu.FetchedRoleDecides` | src/views/Sidebar.js:20-47 | After a successful profile fetch, the check reads the fetched role, so a privileged profile is never bounced. |
| `SidebarMenu.MenuItems` | src/views/Sidebar.js:103-166 | Dashboard, attendance and logout always show. "Seleccionar Proyecto" shows iff the role is `user`. Maintenance shows iff the role is `admin` or `jefe proyecto`. |
| `SidebarMenu.ChangeProjectOnlyForMembers` | src/views/Sidebar.js:109-117 | The change-project entry never shows to a privileged role and never shows together with maintenance. |
| `SidebarMenu.Links` | src/views/Sidebar.js:126-160 | `/dashboard` always shows. The four maintenance links (user, cursor, device and student management) show iff the role is privileged and the section is open. The attendance and class links show iff their section is open. No other route is linked. |
| `SidebarMenu.Sidebar.constructor` | src/views/Sidebar.js:11-14 | Both sections start closed, with no profile and no role. |
| `SidebarMenu.Sidebar.FetchMaster` | src/views/Sidebar.js:18-50 | The new store is the check applied to the store after the profile write. The navigation to `/select-project` happens iff the check's condition holds. A failed fetch leaves profile and role unchanged. |
| `SidebarMenu.Sidebar.ToggleMantenimiento` | src/views/Sidebar.js:52-54 | Flips the maintenance flag only, so toggling twice restores it. |
| `SidebarMenu.Sidebar.ToggleControlAsistencia` | src/views/Sidebar.js:56-58 | Flips the attendance flag only, so toggling twice restores it. |
| `SidebarMenu.Sidebar.HandleSelectProject` | src/views/Sidebar.js:60-66 | Deletes the three project markers, keeps `userRole`, and navigates to `/select-project`. |
| `SidebarMenu.Sidebar.HandleLogout` | src/views/Sidebar.js:68-79 | On success, deletes all four markers and navigates to `/`. On failure, leaves the store unchanged and does not navigate. |
| `SidebarMenu.ChangeProjectThenCheck` | src/views/Sidebar.js:33-66 | After "change project", the next check fires iff the stored role is not privileged. |
| `SidebarMenu.LogoutClearsEveryMarker` | src/views/Sidebar.js:68-79 | Logout leaves no marker, so a later check always fires. |
| `ProjectSelection.ProjectsEndpoint` | src/views/SelectProject.js:64-73 | The committee endpoint with `comite_id` is used iff the committee id is truthy. Otherwise the role endpoint is used, with the role id (or `null`) in the path. |
| `ProjectSelection.FirstFailure` | src/views/SelectProject.js:39-52 | Gives the index of the first failing request of the four, or 4 when all succeed. Each later request needs every earlier one to succeed. |
| `ProjectSelection.SelectProject.constructor` | src/views/SelectProject.js:14-23 | Empty lists, loading true, and no role or committee selected. The invariant holds. |
| `ProjectSelection.SelectProject.FetchInitialData` | src/views/SelectProject.js:26-62 | An existing project marker adds a navigation to `/dashboard` without stopping the requests. Roles and committees default to empty when the payload lacks data. The first failure skips the later requests, shows `Error fetching data` and navigates to `/`. Loading ends either way. |
| `ProjectSelection.SelectProject.FetchProjects` | src/views/SelectProject.js:64-82 | Projects are replaced only on success. On failure, `Error fetching projects` is shown. `projectsLoading` ends false either way. |
| `ProjectSelection.SelectProject.HandleSelectProject` | src/views/SelectProject.js:84-88 | Writes `selectedProject` and navigates to `/dashboard`. |
| `ProjectSelection.SelectProject.HandleRoleClick` | src/views/SelectProject.js:90-96 | Sets the `teamRole` cookie to the role name and selects the role id. Clears the committee selection, leaves `committeeId` untouched, and lists projects by role. The snackbar changes only on failure, when it opens with `Error fetching projects`. Roles, committees, profile and `loading` are unchanged. Keeps the invariant. |
| `ProjectSelection.SelectProject.HandleCommitteeClick` | src/views/SelectProject.js:98-104 | Sets the `committeeId` cookie and selection and clears the role selection. Leaves `teamRole` untouched and lists projects by committee (by role `null` for an empty id). The snackbar changes only on failure, when it opens with `Error fetching projects`. Roles, committees, profile and `loading` are unchanged. Keeps the invariant. |
| `ScheduleEditing.AppendSlot` | src/views/clase/agregarHorario.js:66-68 | Same length. Each schedule with the selected id gets the new slot appended; every other schedule is unchanged. |
| `ScheduleEditing.RemoveSchedule` | src/views/clase/agregarHorario.js:86 | The result holds exactly the schedules whose id differs from the removed one. |
| `ScheduleEditing.RemoveSlotFrom` | src/views/clase/agregarHorario.js:103 | The result holds exactly the slots whose id differs from the removed one. |
| `ScheduleEditing.RemoveSlotFromDistributes` | src/views/clase/agregarHorario.js:103 | Slot removal distributes over concatenation, so the remaining slots keep their relative order. |
| `ScheduleEditing.RemoveSlot` | src/views/clase/agregarHorario.js:102-104 | Same length. Only schedules with the given id have their slots filtered; the others are unchanged. |
| `ScheduleEditing.AppendSlotToMissingId` | src/views/clase/agregarHorario.js:65-69 | If no schedule has the selected id, adding a slot leaves the list unchanged. |
| `ScheduleEditing.AppendSlotKeepsShape` | src/views/clase/agregarHorario.js:66-68 | Ids, names, days and existing slots are kept, and exactly one slot is added per matching schedule. |
| `ScheduleEditing.RemoveScheduleDistributes` | src/views/clase/agregarHorario.js:86 | Removal distributes over concatenation, so the remaining schedules keep their relative order. |
| `ScheduleEditing.RemoveMissingSchedule` | src/views/clase/agregarHorario.js:86 | Removing an id that no schedule has changes nothing. |
| `ScheduleEditing.RemoveScheduleIdempotent` | src/views/clase/agregarHorario.js:86 | After removal no schedule has that id, and removing it again changes nothing. |
| `ScheduleEditing.RemoveSlotEffect` | src/views/clase/agregarHorario.js:101-106 | In matching schedules exactly the slots with the removed id go. Other schedules are untouched. |
| `ScheduleEditing.ClassAddSchedule.constructor` | src/views/clase/agregarHorario.js:10-16 | Empty list, empty inputs and loading true. |
| `ScheduleEditing.ClassAddSchedule.FetchClassData` | src/views/clase/agregarHorario.js:19-34 | Success sets the list to `general_schedule`. Failure keeps it (empty at mount). Loading ends false either way. |
| `ScheduleEditing.ClassAddSchedule.HandleAddSchedule` | src/views/clase/agregarHorario.js:36-53 | Status 200 appends the returned schedule and clears name and day. Any other status, or an error, changes nothing. |
| `ScheduleEditing.ClassAddSchedule.HandleAddSubSchedule` | src/views/clase/agregarHorario.js:55-76 | Status 200 appends the returned slot to the selected schedule(s) and clears start and end. Otherwise nothing changes. |
| `ScheduleEditing.ClassAddSchedule.HandleRemoveSchedule` | src/views/clase/agregarHorario.js:78-91 | Status 200 removes the schedules with that id. Otherwise nothing changes. |
| `ScheduleEditing.ClassAddSchedule.HandleRemoveSubSchedule` | src/views/clase/agregarHorario.js:93-110 | Status 200 removes the slot inside the named schedule. Otherwise nothing changes. |
| `LoginForm.EmailAccepted` | src/views/auth/login.js:71-72 | An accepted email has at least five characters and does not start with `@`. |
| `LoginForm.EmailAcceptedIffPattern` | src/views/auth/login.js:70-75 | The character rule accepts the same strings as the pattern `^[^\s@]+@[^\s@]+\.[^\s@]+$`. The rule is: no whitespace, exactly one `@` with a non-empty part before it, and a `.` after the `@` that is neither the domain's first nor its last character. |
| `LoginForm.FormErrors` | src/views/auth/login.js:64-81 | The email error is `This field is required.` for an empty email and `Email is not valid.` for a rejected one. The password error is present iff the password is empty, independently of the email. |
| `LoginForm.ValidIff` | src/views/auth/login.js:63-91 | The error map is empty iff the email matches the pattern and the password is non-empty. |
| `LoginForm.FailureMessage` | src/views/auth/login.js:106-110 | Uses the server's message when it is non-empty, otherwise the default failure text. |
| `LoginForm.SessionRedirect` | src/views/auth/login.js:45-61 | Navigates to `/dashboard` iff the session check answered with a truthy body. |
| `LoginForm.Login.constructor` | src/views/auth/login.js:38-42 | Empty fields, no errors and the snackbar closed. |
| `LoginForm.Login.Validate` | src/views/auth/login.js:63-91 | Records the error map. Returns true iff the map is empty. An invalid form opens the snackbar with `Please fix the errors in the form.` |
| `LoginForm.Login.HandleLogin` | src/views/auth/login.js:93-114 | The request is sent iff the form validates. Success navigates to `/dashboard`; a refusal shows the failure message. |
| `ListScreens.ActiveFilter` | src/views/Usuario/index.js:22-25 | The user screen sends no `active` parameter iff the role is `admin`, so `jefe proyecto` gets `active=true`. The student, course and device screens (`estudiante/index.js:22-25`, `curso/index.js:22-25`, `dispositivo/index.js:20-23`) send none iff the role is privileged. The class screen never sends one. |
| `ListScreens.ActivationButton` | src/views/clase/index.js:190-201 | The button shows only to `admin` on the user screen (`Usuario/index.js:168-180`) and to both privileged roles elsewhere. It is DESACTIVAR iff the row is active. |
| `ListScreens.StatusLabel` | src/views/Usuario/index.js:163 | Reads `Activo` iff the user is active and `Inactivo` otherwise. |
| `ListScreens.ButtonsMatchFilter` | src/views/estudiante/index.js:161-172 | On every filtered screen, the roles that see activation buttons are exactly the roles that receive inactive rows. |
| `ListScreens.PageCount` | src/views/clase/index.js:255-257 | The count is the least number of pages that covers the rows: ceil(length / rowsPerPage). It is 0 iff the list is empty. |
| `ListScreens.RowsFrom` | src/views/curso/index.js:37-46 | The payload's `data` when present. An empty list when `data` is missing or the request failed. |
| `ListScreens.Toggle` | src/views/clase/index.js:104-106 | Clicking the expanded class collapses it. Clicking any other class expands that class. |
| `ListScreens.ToggleTwice` | src/views/clase/index.js:104-106 | Two clicks on one class restore the state iff nothing or that class was expanded. Otherwise they collapse all. |
| `ListScreens.ListView.constructor` | src/views/dispositivo/index.js:8-15 | Empty list, loading, page 1, 10 rows per page, sort `createdAt`, and the `userRole` marker read at render. |
| `ListScreens.ListView.Rerender` | src/views/clase/index.js:18-47 | Each render reads `userRole` again. A changed role triggers a refetch on every screen except the user screen, whose effect does not depend on the role (`Usuario/index.js:51-53`). Nothing else changes. |
| `ListScreens.ListView.Fetch` | src/views/dispositivo/index.js:17-46 | The query carries the page size, sort, search and the screen's `active` filter. The rows come from the response as `RowsFrom` says. Loading ends false in every case. |
| `ListScreens.ListView.ChangeRowsPerPage` | src/views/Usuario/index.js:63-66 | Sets the new page size (5, 10 or 15) and resets the page to 1. |
| `ListScreens.ListView.ChangePage` | src/views/estudiante/index.js:58-60 | Sets the page only. |
| `ListScreens.ListView.ExpandClick` | src/views/clase/index.js:104-106 | The expanded class becomes the toggle of the old one. Rows, paging, search and sort are untouched. |
| `ListScreens.ListView.RunRowAction` | src/views/clase/index.js:74-119 | PATCHes `<resource>/<id>/activar` or `desactivar` with an empty body, or `quitar-estudiante` with body `{studen_id}` set to the student's id. Refetches only on success; a failure changes nothing. |
| `UserEditForm.UpdatePayload` | src/views/Usuario/edit.js:51-52 | The payload is the form minus `email`, so email is never sent. Every other field is sent with its value. |
| `UserEditForm.ApplyEditsKeys` | src/views/Usuario/edit.js:39-45 | A run of `handleChange` events adds exactly the edited names, and fields nobody edited keep their values. |
| `UserEditForm.LoadedFormSendsOnlyEdits` | src/views/Usuario/edit.js:26-52 | After a successful load, the update sends exactly the edited fields other than `email`. |
| `UserEditForm.UserManagementEdit.constructor` | src/views/Usuario/edit.js:11-17 | The form is `{email, firtName, lastName}`, all empty, with loading true. |
| `UserEditForm.UserManagementEdit.FetchUserData` | src/views/Usuario/edit.js:19-37 | After a successful load the form is exactly `{email}`. A failure shows `Error fetching user data`. Loading ends false either way. |
| `UserEditForm.UserManagementEdit.HandleChange` | src/views/Usuario/edit.js:39-45 | Updates only the named field. |
| `UserEditForm.UserManagementEdit.HandleSubmit` | src/views/Usuario/edit.js:47-61 | Sends the form without `email`. Success navigates to the user list. Failure shows `Error updating user` and loading ends false. |
| `StudentRegistration.Multipart` | src/views/estudiante/register.js:36-42 | The body has three parts, or four when an image was chosen. The single file part is exactly the one named `imagen`. |
| `StudentRegistration.MultipartShape` | src/views/estudiante/register.js:36-42 | The body always starts with `firstName`, `lastName` and `codigo` in that order. `imagen` is appended iff an image was chosen. |
| `StudentRegistration.EditChangesOnePart` | src/views/estudiante/register.js:19-42 | Editing one text input changes exactly that input's part of the body. |
| `StudentRegistration.RegisterEstudiante.constructor` | src/views/estudiante/register.js:9-16 | Empty text fields, no image, and not loading. |
| `StudentRegistration.RegisterEstudiante.HandleChange` | src/views/estudiante/register.js:19-25 | Updates only the named text field. |
| `StudentRegistration.RegisterEstudiante.HandleFileChange` | src/views/estudiante/register.js:27-32 | Updates only `imagen`. |
| `StudentRegistration.RegisterEstudiante.BuildPayload` | src/views/estudiante/register.js:36-42 | The successive appends build exactly the multipart body. |
| `StudentRegistration.RegisterEstudiante.HandleSubmit` | src/views/estudiante/register.js:34-57 | Success navigates to the student list. Failure shows `Error registrando estudiante`. Loading ends false either way. |
| `Dashboard.UserDashboard.constructor` | src/views/UserDashboard.js:7-9 | No teams, no projects and no selection. |
| `Dashboard.UserDashboard.FetchTeamsAndProjects` | src/views/UserDashboard.js:11-32 | With a non-empty team list, the first team is selected and its projects are requested. With an empty list there is no selection and no request. Projects change only on success. |
| `Dashboard.UserDashboard.HandleTeamClick` | src/views/UserDashboard.js:34-45 | Selects the team before the request, whatever the outcome. Projects change only on success. |
| `SessionFlow.ChosenProjectAdmitsMember` | src/views/SelectProject.js:84-88 | Choosing a non-empty project lets a member through both the layout gate and the sidebar check, on every path. |
| `SessionFlow.LayoutShellImpliesNoSidebarBounce` | src/views/Layout.js:66-69 | A shell rendered outside the selector for the stored role is never undone by the sidebar check. |
| `SessionFlow.SidebarLaxerThanLayout` | src/views/Sidebar.js:39 | A store with a committee id and a team role but no project passes the sidebar check, yet the layout sends the same member to the selector. |
| `SessionFlow.ChangeProjectSendsMemberBack` | src/views/Sidebar.js:60-66 | After "change project", both the sidebar check and the layout gate send a member back to the selector. |

## Left out

- HTTP itself (base URL, credentials, headers, query encoding, the backend's meaning). Each reply is an input: success with a payload, a non-200 status where the code checks one, or an error. A malformed payload that makes the code throw inside a `try` is modelled as a failed reply.
- Cookie expiry (7 days), `sameSite` and `secure`. js-cookie's conversion of non-string values is not modelled either; ids and role names are strings.
- React and MUI rendering, themes, snackbar display and closing (`handleSnackbarClose`, `handleCloseSnackbar`), and date formatting. Only what renders or where the app navigates is modelled.
- Async interleaving. This covers unmount races, navigation not stopping later awaits, and the un-awaited `fetchProjects` in the click handlers. Each handler runs to completion as one step.
- The effects that refetch a list when page, page size, search or sort change. The model's client calls `Fetch` after each change. A role change is observed by `ListScreens.ListView.Rerender`. It reports whether the screen's effect would refetch; the user screen's effect does not.
- Plain setters and navigation-only handlers. These are the search and sort setters, the input `onChange` setters of the schedule and login forms, and `handleRegister`, `handleEdit`, `handleAddStudent` and `handleAddSchedule` in the list screens. The state they assign is a public field of each class.
- The browser's `required` field check in the user edit form.
- `StudentRegistration.RegisterEstudiante.HandleSubmit`: the browser's `required` check on the three text inputs (`estudiante/register.js:82,92,102`) is not modelled. The form has no `noValidate`, so a browser blocks an empty submit that the model posts.
- `UserEditForm.UserManagementEdit.FetchUserData`: a payload without `email`, which stores `email: undefined`, is not modelled. The reply carries a string.
- Route matching in `src/App.js` and the static `src/views/AdminDashboard.js` are not part of this model. Neither are the field-forwarding forms (`curso/edit.js`, `estudiante/edit.js`, `Usuario/register.js`, `clase/edit.js`, `clase/register.js`, `clase/agregarEstudiante.js`).
- Missing imports that would fail at run time (`Assignment` in the sidebar, `TextField` and `Pagination` in the device list).
- The regular-expression engine. The login pattern is a character predicate, proved equivalent to the pattern's shape.
- `ScheduleEditing.ClassAddSchedule.FetchClassData`: a payload without `general_schedule`, which would set the list to `undefined`, is not modelled.
- `Dashboard.UserDashboard.FetchTeamsAndProjects`: a teams payload without `data` stores `undefined` before the `.length` access throws. The model treats that case as a failed reply and keeps the old teams.
- `Dashboard.UserDashboard.FetchTeamsAndProjects` and `Dashboard.UserDashboard.HandleTeamClick`: a projects payload without `data` stores `undefined` as the project list (`UserDashboard.js:25,41`). This is not modelled; a successful projects reply carries a list.
- `ListScreens.ListView.Pages`: has no contract of its own; `ListScreens.PageCount` carries the ceil-division property.
