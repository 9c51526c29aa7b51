/** What the route guards read and return. A guard reads a snapshot of the
    auth service; while the service is loading it re-checks every 50 ms, and
    the snapshots those re-checks see are given as a finite trace (the first
    re-check happens at once). The router call a guard makes is part of its
    result. */
module GuardState {
  import opened Common
  import opened Models

  /** The auth service's signals as one guard invocation reads them. */
  datatype AuthSnapshot = AuthSnapshot(isLoading: bool, isAuthenticated: bool, currentUser: Option<User>)

  /** A `router.navigate` call: the path and the `returnUrl` query parameter, if any. */
  datatype Navigation = Navigation(path: string, returnUrl: Option<string>)

  /** A guard's outcome: settled with the value it resolves to and the
      navigation it triggered, or still waiting because no snapshot of the
      trace was resolved. */
  datatype GuardResult = Settled(allow: bool, navigation: Option<Navigation>) | Waiting

  /** The auth service's own invariant, as a guard sees it. */
  predicate Consistent(s: AuthSnapshot)
  {
    s.isAuthenticated == s.currentUser.Some?
  }

  /** The index of the first re-check that finds loading over, if any. */
  function FirstResolved(trace: seq<AuthSnapshot>): (r: Option<nat>)
    ensures r.Some? ==> r.value < |trace| && !trace[r.value].isLoading
    ensures r.Some? ==> forall i :: 0 <= i < r.value ==> trace[i].isLoading
    ensures r.None? <==> forall i :: 0 <= i < |trace| ==> trace[i].isLoading
  {
    if |trace| == 0 then None
    else if !trace[0].isLoading then Some(0)
    else
      match FirstResolved(trace[1..])
      case None => None
      case Some(k) => Some(k + 1)
  }

  /** The snapshot that decides: the current one when it is not loading,
      otherwise the first resolved re-check. */
  function Deciding(now: AuthSnapshot, later: seq<AuthSnapshot>): (r: Option<AuthSnapshot>)
    ensures r.Some? ==> !r.value.isLoading
    ensures !now.isLoading ==> r == Some(now)
    ensures now.isLoading ==> (r.None? <==> forall i :: 0 <= i < |later| ==> later[i].isLoading)
  {
    if !now.isLoading then Some(now)
    else
      match FirstResolved(later)
      case None => None
      case Some(k) => Some(later[k])
  }

  /** Re-checks after the first resolved one are never looked at. */
  lemma DecidingIgnoresLaterChecks(now: AuthSnapshot, later: seq<AuthSnapshot>, extra: seq<AuthSnapshot>)
    requires Deciding(now, later).Some?
    ensures Deciding(now, later + extra) == Deciding(now, later)
  {
    if now.isLoading {
      var k := FirstResolved(later).value;
      assert (later + extra)[k] == later[k];
    }
  }

  /** A guard's result either settles with a navigation exactly when it
      denies, or it is still waiting. */
  predicate NavigatesIffDenies(r: GuardResult)
  {
    r.Settled? ==> (r.navigation.Some? <==> !r.allow)
  }
}
