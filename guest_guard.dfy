/** `guestGuard`: lets only visitors without a session through (the login
    and register pages) and sends an authenticated user to the dashboard. */
module GuestGuard {
  import opened Common
  import opened GuardState

  const DashboardPath: string := "/dashboard"

  /** The decision on a resolved snapshot. */
  function Decide(s: AuthSnapshot): (r: GuardResult)
    ensures r.Settled? && NavigatesIffDenies(r)
    ensures r.allow <==> !s.isAuthenticated
    ensures !r.allow ==> r.navigation == Some(Navigation(DashboardPath, None))
  {
    if !s.isAuthenticated then Settled(true, None)
    else Settled(false, Some(Navigation(DashboardPath, None)))
  }

  /** The guard: decide at once when not loading, otherwise wait for the
      first re-check that finds loading over. */
  function CanActivate(now: AuthSnapshot, later: seq<AuthSnapshot>): (r: GuardResult)
    ensures NavigatesIffDenies(r)
    ensures r.Waiting? <==> now.isLoading && forall i :: 0 <= i < |later| ==> later[i].isLoading
    ensures r.Settled? ==> (r.allow <==> !Deciding(now, later).value.isAuthenticated)
  {
    match Deciding(now, later)
    case None => Waiting
    case Some(s) => Decide(s)
  }

  /** Resolved and not authenticated: allowed. */
  lemma ResolvedAnonymousAllows(now: AuthSnapshot, later: seq<AuthSnapshot>)
    requires !now.isLoading && !now.isAuthenticated
    ensures CanActivate(now, later) == Settled(true, None)
  {
  }

  /** An authenticated user is never let through: whenever the guard settles
      on an authenticated snapshot it redirects to the dashboard. */
  lemma AuthenticatedNeverAllowed(now: AuthSnapshot, later: seq<AuthSnapshot>)
    requires Deciding(now, later).Some? && Deciding(now, later).value.isAuthenticated
    ensures CanActivate(now, later) == Settled(false, Some(Navigation(DashboardPath, None)))
  {
  }

  /** While loading, the guard ends as the non-loading guard would on the
      first resolved snapshot. */
  lemma LoadingPathAgreesWithResolved(now: AuthSnapshot, later: seq<AuthSnapshot>)
    requires now.isLoading && FirstResolved(later).Some?
    ensures CanActivate(now, later) == CanActivate(later[FirstResolved(later).value], [])
  {
  }
}
