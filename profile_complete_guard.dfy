/** `profileCompleteGuard`: lets a user whose patient profile is complete
    through and sends a user with an incomplete profile (or whose profile
    lookup fails) to the profile-completion page. Without a user it redirects
    to login when it decides at once, but lets the navigation through when
    it had to wait for loading to end: that asymmetry is the code's. */
module ProfileCompleteGuard {
  import opened Common
  import opened Models
  import opened GuardState
  import opened Pacientes

  const LoginPath: string := "/auth/login"
  const CompleteProfilePath: string := "/profile/complete"

  /** The decision for a known user: the patient service's completeness
      check on what the store returns for the user's id. An error of the
      check redirects like an incomplete profile. */
  function DecideForUser(u: User, store: string -> Lookup<seq<Paciente>>, hoy: JsDate, parse: string -> JsDate): (r: GuardResult)
    ensures r.Settled? && NavigatesIffDenies(r)
    ensures r.allow <==> var rows := store(u.id);
                         rows.Emits? && |rows.value| > 0 && PerfilCompleto(Some(rows.value[0]), hoy, parse)
    ensures !r.allow ==> r.navigation == Some(Navigation(CompleteProfilePath, None))
  {
    match TienePerfilCompleto(GetPacienteByUserId(store(u.id)), hoy, parse)
    case Emits(complete) =>
      if complete then Settled(true, None) else Settled(false, Some(Navigation(CompleteProfilePath, None)))
    case Fails => Settled(false, Some(Navigation(CompleteProfilePath, None)))
  }

  /** The guard. `store` gives the rows the patient lookup returns for a user id. */
  function CanActivate(now: AuthSnapshot, later: seq<AuthSnapshot>, store: string -> Lookup<seq<Paciente>>,
                       hoy: JsDate, parse: string -> JsDate): (r: GuardResult)
    ensures NavigatesIffDenies(r)
    ensures r.Waiting? <==> now.isLoading && forall i :: 0 <= i < |later| ==> later[i].isLoading
  {
    if now.isLoading then
      match FirstResolved(later)
      case None => Waiting
      case Some(k) =>
        if later[k].currentUser.None? then Settled(true, None)
        else DecideForUser(later[k].currentUser.value, store, hoy, parse)
    else if now.currentUser.None? then Settled(false, Some(Navigation(LoginPath, None)))
    else DecideForUser(now.currentUser.value, store, hoy, parse)
  }

  /** Not loading and no user: denied, with a redirect to the login page. */
  lemma ResolvedNoUserRedirectsToLogin(now: AuthSnapshot, later: seq<AuthSnapshot>, store: string -> Lookup<seq<Paciente>>,
                                       hoy: JsDate, parse: string -> JsDate)
    requires !now.isLoading && now.currentUser.None?
    ensures CanActivate(now, later, store, hoy, parse) == Settled(false, Some(Navigation(LoginPath, None)))
  {
  }

  /** Loading, then resolved with no user: allowed, with no navigation. */
  lemma WaitedNoUserAllows(now: AuthSnapshot, later: seq<AuthSnapshot>, store: string -> Lookup<seq<Paciente>>,
                           hoy: JsDate, parse: string -> JsDate)
    requires now.isLoading && Deciding(now, later).Some? && Deciding(now, later).value.currentUser.None?
    ensures CanActivate(now, later, store, hoy, parse) == Settled(true, None)
  {
  }

  /** The two paths disagree on the same resolved state without a user. */
  lemma NoUserAsymmetry(store: string -> Lookup<seq<Paciente>>, hoy: JsDate, parse: string -> JsDate)
    ensures var resolved := AuthSnapshot(false, false, None);
            CanActivate(AuthSnapshot(true, false, None), [resolved], store, hoy, parse) == Settled(true, None) &&
            CanActivate(resolved, [], store, hoy, parse) == Settled(false, Some(Navigation(LoginPath, None)))
  {
  }

  /** With a user, both paths decide on the profile: complete allows, an
      incomplete profile or a failing lookup redirects to the completion
      page. The lookup's error never escapes the guard. */
  lemma UserDecidedByProfile(now: AuthSnapshot, later: seq<AuthSnapshot>, store: string -> Lookup<seq<Paciente>>,
                             hoy: JsDate, parse: string -> JsDate)
    requires Deciding(now, later).Some? && Deciding(now, later).value.currentUser.Some?
    ensures var u := Deciding(now, later).value.currentUser.value;
            var rows := store(u.id);
            var r := CanActivate(now, later, store, hoy, parse);
            && (rows.Fails? ==> r == Settled(false, Some(Navigation(CompleteProfilePath, None))))
            && (rows.Emits? && PerfilCompleto(GetPacienteByUserId(rows).value, hoy, parse) ==> r == Settled(true, None))
            && (rows.Emits? && !PerfilCompleto(GetPacienteByUserId(rows).value, hoy, parse) ==>
                  r == Settled(false, Some(Navigation(CompleteProfilePath, None))))
  {
  }
}
