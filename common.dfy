/** Values shared by every screen of the console: optional values, the outcome
    of one awaited HTTP request, JavaScript truthiness of an optional string,
    the user profile the API returns, and the two privileged role labels. */
module Common {

  datatype Option<T> = None | Some(value: T)

  /** The outcome of one awaited request: a response carrying a payload, or a
      thrown error (network failure or a non-2xx status, which the HTTP client
      turns into an exception). */
  datatype Reply<T> = Ok(value: T) | Failed

  /** The profile returned by `/usuario/informacion`. */
  datatype Profile = Profile(name: string, email: string, role: string)

  const Admin: string := "admin"
  const ProjectLead: string := "jefe proyecto"

  /** JavaScript truthiness of a value that is either absent (`undefined` or
      `null`) or a string: only a present, non-empty string is truthy. */
  predicate Truthy(o: Option<string>) {
    o.Some? && o.value != ""
  }

  /** `['admin', 'jefe proyecto'].includes(role)`, also the negation of
      `role !== 'admin' && role !== 'jefe proyecto'`. */
  predicate IsPrivileged(role: Option<string>) {
    role == Some(Admin) || role == Some(ProjectLead)
  }

  /** `['admin'].includes(role)` */
  predicate IsAdmin(role: Option<string>) {
    role == Some(Admin)
  }

  /** `data || []` for an array payload that may be missing. */
  function OrEmpty<T>(data: Option<seq<T>>): seq<T> {
    match data
    case Some(d) => d
    case None => []
  }
}
