/** The browser cookie store behind `ManagerCookies`: one global key/value
    store that the components read, create entries in and delete entries from.
    Expiry and the `sameSite`/`secure` options are not modelled. */
module Cookies {
  import opened Common

  type Store = map<string, string>

  const SelectedProject: string := "selectedProject"
  const CommitteeId: string := "committeeId"
  const TeamRole: string := "teamRole"
  const UserRole: string := "userRole"

  /** The markers that record the chosen project and how it was reached. */
  const ProjectMarkers: set<string> := {SelectedProject, CommitteeId, TeamRole}

  /** Every marker the console writes. */
  const AllMarkers: set<string> := {SelectedProject, CommitteeId, TeamRole, UserRole}

  /** `getCookie(key)`: the stored string, or `undefined` (None). */
  function Get(s: Store, key: string): (v: Option<string>)
    ensures v == None <==> key !in s
    ensures v.Some? ==> v.value == s[key]
  {
    if key in s then Some(s[key]) else None
  }

  class CookieJar {
    var entries: Store

    constructor (initial: Store)
      ensures entries == initial
    {
      entries := initial;
    }

    /** `getCookie` */
    function Read(key: string): (v: Option<string>)
      reads this
      ensures v == None <==> key !in entries
      ensures v.Some? ==> v.value == entries[key]
    {
      Get(entries, key)
    }

    /** `createCookie(key, value)`: overwrites any previous value. */
    method Create(key: string, value: string)
      modifies this
      ensures entries == old(entries)[key := value]
    {
      entries := entries[key := value];
    }

    /** `deleteCookie(key)`: a missing key is left missing. */
    method Delete(key: string)
      modifies this
      ensures entries == old(entries) - {key}
    {
      entries := entries - {key};
    }
  }
}
