/** The dashboard page's choice of what to show, from the signed-in user (if
    any) and that user's profile (once loaded). */
module Routing {
  import opened Types

  datatype View =
    | AccessDenied
    | Loading
    | PendingApproval
    | Suspended
    | SuperAdminDashboard
    | AdminDashboard

  /** The profile query: keyed by the session user's id and disabled when there
      is no (truthy) id. A lookup that finds no row fails, which leaves the
      query without data. */
  function ProfileQuery(sessionUser: Option<Id>, profiles: map<Id, UserProfile>): (r: Option<UserProfile>)
    ensures r.Some? <==> sessionUser.Some? && sessionUser.value != "" && sessionUser.value in profiles
    ensures r.Some? ==> r.value == profiles[sessionUser.value]
  {
    match sessionUser
    case None => None
    case Some(id) => if id != "" && id in profiles then Some(profiles[id]) else None
  }

  /** The page's chain of checks, in the order the page makes them. */
  function Route(sessionUser: Option<Id>, profile: Option<UserProfile>): (v: View)
    ensures sessionUser.None? ==> v == AccessDenied
    ensures sessionUser.Some? && profile.None? ==> v == Loading
    ensures sessionUser.Some? && profile.Some? && profile.value.status == PendingAdmin ==> v == PendingApproval
    ensures sessionUser.Some? && profile.Some? && profile.value.status == Revoked ==> v == Suspended
    ensures v == SuperAdminDashboard <==>
              sessionUser.Some? && profile.Some? && profile.value.status == Active && profile.value.role == SuperAdmin
    ensures v == AdminDashboard <==>
              sessionUser.Some? && profile.Some? && profile.value.status == Active && profile.value.role != SuperAdmin
  {
    if sessionUser.None? then AccessDenied
    else if profile.None? then Loading
    else
      match profile.value.status
      case PendingAdmin => PendingApproval
      case Revoked => Suspended
      case Active => if profile.value.role == SuperAdmin then SuperAdminDashboard else AdminDashboard
  }

  /** The view a signed-in user sees, given the stored profiles. */
  function ViewFor(sessionUser: Option<Id>, profiles: map<Id, UserProfile>): View
  {
    Route(sessionUser, ProfileQuery(sessionUser, profiles))
  }

  /** A dashboard is reached only by a user whose own stored profile is active;
      the profile's role then picks which one. */
  lemma DashboardNeedsActiveProfile(sessionUser: Option<Id>, profiles: map<Id, UserProfile>)
    ensures ViewFor(sessionUser, profiles) in {SuperAdminDashboard, AdminDashboard} <==>
              sessionUser.Some? && sessionUser.value != "" && sessionUser.value in profiles &&
              profiles[sessionUser.value].status == Active
  {
  }
}
