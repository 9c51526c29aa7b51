/** The guard table of the router configuration and what chaining guards
    means: a route is entered when every guard it lists settles and allows. */
module Routes {
  import opened Common
  import opened Models
  import opened GuardState
  import opened Pacientes
  import AuthGuard
  import GuestGuard
  import ProfileCompleteGuard

  datatype Guard = Auth | Guest | ProfileComplete

  /** The guards each configured path lists, in order. */
  function GuardsFor(path: string): (r: seq<Guard>)
    ensures ProfileComplete in r ==> Auth in r
    ensures Guest in r ==> Auth !in r && ProfileComplete !in r
    ensures path == "dashboard" ==> ProfileComplete in r
  {
    if path == "auth/login" || path == "auth/register" then [Guest]
    else if path == "profile/complete" then [Auth]
    else if path == "dashboard" || path == "video-call/:channelName" then [Auth, ProfileComplete]
    else []
  }

  function Evaluate(g: Guard, now: AuthSnapshot, later: seq<AuthSnapshot>, url: string,
                    store: string -> Lookup<seq<Paciente>>, hoy: JsDate, parse: string -> JsDate): GuardResult
  {
    match g
    case Auth => AuthGuard.CanActivate(now, later, url)
    case Guest => GuestGuard.CanActivate(now, later)
    case ProfileComplete => ProfileCompleteGuard.CanActivate(now, later, store, hoy, parse)
  }

  predicate RouteAllows(guards: seq<Guard>, now: AuthSnapshot, later: seq<AuthSnapshot>, url: string,
                        store: string -> Lookup<seq<Paciente>>, hoy: JsDate, parse: string -> JsDate)
  {
    forall i :: 0 <= i < |guards| ==> Evaluate(guards[i], now, later, url, store, hoy, parse).Settled? &&
                                      Evaluate(guards[i], now, later, url, store, hoy, parse).allow
  }

  /** The dashboard and the video call list `authGuard` beside
      `profileCompleteGuard`, and a route is entered only when all its
      guards allow, so the latter's admission of a user-less state after a
      wait never lets an anonymous visitor in, as long as the auth service
      keeps its flag equal to "there is a user". */
  lemma ProtectedRoutesRejectAnonymous(path: string, now: AuthSnapshot, later: seq<AuthSnapshot>, url: string,
                                       store: string -> Lookup<seq<Paciente>>, hoy: JsDate, parse: string -> JsDate)
    requires path == "dashboard" || path == "video-call/:channelName"
    requires Consistent(now) && forall i :: 0 <= i < |later| ==> Consistent(later[i])
    requires Deciding(now, later).Some? && Deciding(now, later).value.currentUser.None?
    ensures !RouteAllows(GuardsFor(path), now, later, url, store, hoy, parse)
  {
    var d := Deciding(now, later).value;
    assert Consistent(d) by {
      if now.isLoading { assert d == later[FirstResolved(later).value]; }
    }
    assert GuardsFor(path)[0] == Auth;
    assert !Evaluate(Auth, now, later, url, store, hoy, parse).allow;
  }
}
