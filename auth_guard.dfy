/** `authGuard`: lets an authenticated user through and sends anyone else to
    the login page, carrying the requested url as `returnUrl`. */
module AuthGuard {
  import opened Common
  import opened GuardState

  const LoginPath: string := "/auth/login"

  /** The decision on a resolved snapshot. */
  function Decide(s: AuthSnapshot, url: string): (r: GuardResult)
    ensures r.Settled? && NavigatesIffDenies(r)
    ensures r.allow <==> s.isAuthenticated
    ensures !r.allow ==> r.navigation == Some(Navigation(LoginPath, Some(url)))
  {
    if s.isAuthenticated then Settled(true, None)
    else Settled(false, Some(Navigation(LoginPath, Some(url))))
  }

  /** The guard on the requested `url`: decide at once when not loading,
      otherwise wait for the first re-check that finds loading over. */
  function CanActivate(now: AuthSnapshot, later: seq<AuthSnapshot>, url: string): (r: GuardResult)
    ensures NavigatesIffDenies(r)
    ensures r.Waiting? <==> now.isLoading && forall i :: 0 <= i < |later| ==> later[i].isLoading
    ensures r.Settled? ==> (r.allow <==> Deciding(now, later).value.isAuthenticated)
  {
    match Deciding(now, later)
    case None => Waiting
    case Some(s) => Decide(s, url)
  }

  /** Resolved and authenticated: allowed, with no navigation. */
  lemma ResolvedAuthenticatedAllows(now: AuthSnapshot, later: seq<AuthSnapshot>, url: string)
    requires !now.isLoading && now.isAuthenticated
    ensures CanActivate(now, later, url) == Settled(true, None)
  {
  }

  /** Resolved and not authenticated: denied, with a redirect to the login
      page whose `returnUrl` is the requested url. */
  lemma ResolvedAnonymousRedirects(now: AuthSnapshot, later: seq<AuthSnapshot>, url: string)
    requires !now.isLoading && !now.isAuthenticated
    ensures CanActivate(now, later, url) == Settled(false, Some(Navigation(LoginPath, Some(url))))
  {
  }

  /** While loading, the guard ends as the non-loading guard would on the
      first resolved snapshot: equal final states give equal outcomes. */
  lemma LoadingPathAgreesWithResolved(now: AuthSnapshot, later: seq<AuthSnapshot>, url: string)
    requires now.isLoading && FirstResolved(later).Some?
    ensures CanActivate(now, later, url) == CanActivate(later[FirstResolved(later).value], [], url)
  {
  }
}
