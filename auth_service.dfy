/** The auth state container: the current user, the authenticated flag kept
    equal to "there is a user", and the loading flag that is true until the
    initial user lookup has finished. Calls into the auth backend are replaced
    by their outcomes, passed as parameters. */
module Auth {
  import opened Common
  import opened Models

  /** A user as the auth backend returns it. */
  datatype SupabaseUser = SupabaseUser(
    id: string,
    email: Option<string>,
    created_at: Option<string>,
    updated_at: Option<string>,
    email_confirmed_at: Option<string>,
    last_sign_in_at: Option<string>,
    role: Option<string>,
    user_metadata: Option<map<string, string>>)

  /** The session an auth-state event carries (null when signed out). */
  datatype Session = Session(user: Option<SupabaseUser>)

  /** A value caught or returned as an error: an `Error` instance, a string,
      or any other value, of which only a `message` property is looked at
      (absent also for null and undefined). */
  datatype ErrorValue = ErrorInstance(message: string) | StringValue(s: string) | OtherValue(messageProp: Option<string>)

  /** How `getUser` ends during initialisation. */
  datatype GetUserOutcome = GetUserThrows | GetUserReturns(user: Option<SupabaseUser>)

  /** How a sign-up, sign-in or user update call ends: its promise rejects,
      or it resolves with an error and/or a user. */
  datatype UserCallOutcome = CallRejected(reason: ErrorValue) | CallResolved(error: Option<ErrorValue>, user: Option<SupabaseUser>)

  /** How a sign-out call ends. */
  datatype SignOutOutcome = SignOutRejected(reason: ErrorValue) | SignOutResolved(error: Option<ErrorValue>)

  const DefaultError: string := "Ha ocurrido un error"
  const InvalidCredentials: string := "Invalid login credentials"
  const EmailNotConfirmed: string := "Email not confirmed"
  const AlreadyRegistered: string := "User already registered"
  const InvalidCredentialsEs: string := "Email o contrase\U{CE68}a incorrectos"
  const EmailNotConfirmedEs: string := "Por favor confirma tu email antes de iniciar sesi\U{CE69}n"
  const AlreadyRegisteredEs: string := "Este email ya est\U{CE58} registrado"
  const NoUserCreated: string := "No se pudo crear el usuario"
  const BadCredentials: string := "Credenciales inv\U{CE58}lidas"
  const ProfileNotUpdated: string := "No se pudo actualizar el perfil"

  /** `mapSupabaseUser`: the same fields, with the email defaulted to ''. */
  function MapSupabaseUser(u: SupabaseUser): (r: User)
    ensures r.id == u.id && r.user_metadata == u.user_metadata
    ensures r.email == Some(if OptTruthy(u.email) then u.email.value else "")
  {
    User(u.id, Some(if u.email.Some? && u.email.value != "" then u.email.value else ""),
         u.created_at, u.updated_at, u.email_confirmed_at, u.last_sign_in_at, u.role, u.user_metadata)
  }

  /** The raw message of an error value, before localisation. */
  function ExtractMessage(e: ErrorValue): (r: string)
    ensures e.ErrorInstance? ==> r == e.message
    ensures e.StringValue? ==> r == e.s
    ensures e.OtherValue? ==> r != "" && (OptTruthy(e.messageProp) ==> r == e.messageProp.value)
  {
    match e
    case ErrorInstance(m) => m
    case StringValue(s) => s
    case OtherValue(m) => if m.Some? && m.value != "" then m.value else DefaultError
  }

  /** The localisation step of `createErrorResponse`: the first known English
      substring found decides the Spanish message. */
  function Localize(m: string): (r: string)
    ensures r == m || r == InvalidCredentialsEs || r == EmailNotConfirmedEs || r == AlreadyRegisteredEs
    ensures !Contains(m, InvalidCredentials) && !Contains(m, EmailNotConfirmed) && !Contains(m, AlreadyRegistered) ==> r == m
    ensures Contains(m, InvalidCredentials) ==> r == InvalidCredentialsEs
  {
    if Contains(m, InvalidCredentials) then InvalidCredentialsEs
    else if Contains(m, EmailNotConfirmed) then EmailNotConfirmedEs
    else if Contains(m, AlreadyRegistered) then AlreadyRegisteredEs
    else m
  }

  /** `createErrorResponse`: a failed response whose message is the
      localised message of the error. */
  function CreateErrorResponse(e: ErrorValue): (r: AuthResponse)
    ensures r.user.None? && !r.success
    ensures r.error == Some(Localize(ExtractMessage(e)))
  {
    AuthResponse(None, Some(Localize(ExtractMessage(e))), false)
  }

  /** The message is taken from an Error, then from a string, then from a
      truthy `.message`, and is the default otherwise. */
  lemma ExtractMessageOrder(e: ErrorValue)
    ensures e.ErrorInstance? ==> ExtractMessage(e) == e.message
    ensures e.StringValue? ==> ExtractMessage(e) == e.s
    ensures e.OtherValue? && OptTruthy(e.messageProp) ==> ExtractMessage(e) == e.messageProp.value
    ensures e.OtherValue? && !OptTruthy(e.messageProp) ==> ExtractMessage(e) == DefaultError
  {
  }

  /** The known substrings are checked in order and the first match wins;
      any other message passes through unchanged. */
  lemma LocalizeFirstMatchWins(m: string)
    ensures Contains(m, InvalidCredentials) ==> Localize(m) == InvalidCredentialsEs
    ensures !Contains(m, InvalidCredentials) && Contains(m, EmailNotConfirmed) ==> Localize(m) == EmailNotConfirmedEs
    ensures !Contains(m, InvalidCredentials) && !Contains(m, EmailNotConfirmed) && Contains(m, AlreadyRegistered) ==>
              Localize(m) == AlreadyRegisteredEs
    ensures !Contains(m, InvalidCredentials) && !Contains(m, EmailNotConfirmed) && !Contains(m, AlreadyRegistered) ==>
              Localize(m) == m
  {
  }

  /** The first name (or another metadata field) of a user, or '' when absent. */
  function MetadataField(u: User, key: string): string
  {
    if u.user_metadata.Some? && key in u.user_metadata.value then u.user_metadata.value[key] else ""
  }

  class AuthService {
    var currentUser: Option<User>
    var isAuthenticated: bool
    var isLoading: bool
    /** Whether the auth-state-change callback has been registered. */
    var listening: bool
    /** The paths passed to the router, in order. */
    var navigations: seq<string>

    /** The flag is always "there is a current user". */
    ghost predicate Valid()
      reads this
    {
      isAuthenticated == currentUser.Some?
    }

    /** The service starts without a user and loading. */
    constructor ()
      ensures Valid()
      ensures currentUser.None? && !isAuthenticated && isLoading && !listening && navigations == []
    {
      currentUser := None;
      isAuthenticated := false;
      isLoading := true;
      listening := false;
      navigations := [];
    }

    method SetUser(user: Option<User>)
      modifies this
      ensures Valid()
      ensures currentUser == user
      ensures isLoading == old(isLoading) && listening == old(listening) && navigations == old(navigations)
    {
      currentUser := user;
      isAuthenticated := user.Some?;
    }

    method ClearUser()
      modifies this
      ensures Valid()
      ensures currentUser.None?
      ensures isLoading == old(isLoading) && listening == old(listening) && navigations == old(navigations)
    {
      currentUser := None;
      isAuthenticated := false;
    }

    /** `initAuthListener`, run once from the constructor: takes the user the
        backend reports (or none), registers the auth-state callback when the
        lookup did not throw, clears the user when it threw, and in every case
        ends the loading phase. */
    method InitAuthListener(outcome: GetUserOutcome)
      requires isLoading && !listening
      modifies this
      ensures Valid()
      ensures !isLoading
      ensures outcome.GetUserThrows? ==> currentUser.None? && !listening
      ensures outcome.GetUserReturns? ==>
                listening &&
                currentUser == (if outcome.user.Some? then Some(MapSupabaseUser(outcome.user.value)) else None)
      ensures navigations == old(navigations)
    {
      if outcome.GetUserThrows? {
        ClearUser();
      } else {
        SetUser(if outcome.user.Some? then Some(MapSupabaseUser(outcome.user.value)) else None);
        listening := true;
      }
      isLoading := false;
    }

    /** The auth-state-change callback: a session with a user sets that
        user, anything else clears it. */
    method OnAuthStateChange(session: Option<Session>)
      requires listening
      modifies this
      ensures Valid()
      ensures currentUser == (if session.Some? && session.value.user.Some? then Some(MapSupabaseUser(session.value.user.value)) else None)
      ensures isLoading == old(isLoading) && listening && navigations == old(navigations)
    {
      if session.Some? && session.value.user.Some? {
        SetUser(Some(MapSupabaseUser(session.value.user.value)));
      } else {
        ClearUser();
      }
    }

    /** The shared shape of `register`, `login` and `updateProfile`: an error
        (returned or thrown) gives the error response and changes nothing; a
        returned user becomes the current user; no user gives `noUser`. */
    method UserCall(outcome: UserCallOutcome, noUser: string) returns (r: AuthResponse)
      requires Valid()
      modifies this
      ensures Valid()
      ensures outcome.CallRejected? ==> r == CreateErrorResponse(outcome.reason)
      ensures outcome.CallResolved? && outcome.error.Some? ==> r == CreateErrorResponse(outcome.error.value)
      ensures outcome.CallResolved? && outcome.error.None? && outcome.user.Some? ==>
                var u := MapSupabaseUser(outcome.user.value);
                r == AuthResponse(Some(u), None, true) && currentUser == Some(u)
      ensures outcome.CallResolved? && outcome.error.None? && outcome.user.None? ==>
                r == AuthResponse(None, Some(noUser), false)
      ensures !(outcome.CallResolved? && outcome.error.None? && outcome.user.Some?) ==> currentUser == old(currentUser)
      ensures isLoading == old(isLoading) && listening == old(listening) && navigations == old(navigations)
    {
      match outcome
      case CallRejected(e) =>
        r := CreateErrorResponse(e);
      case CallResolved(err, user) =>
        if err.Some? {
          r := CreateErrorResponse(err.value);
        } else if user.Some? {
          var u := MapSupabaseUser(user.value);
          SetUser(Some(u));
          r := AuthResponse(Some(u), None, true);
        } else {
          r := AuthResponse(None, Some(noUser), false);
        }
    }

    method Register(outcome: UserCallOutcome) returns (r: AuthResponse)
      requires Valid()
      modifies this
      ensures Valid()
      ensures outcome.CallRejected? ==> r == CreateErrorResponse(outcome.reason)
      ensures outcome.CallResolved? && outcome.error.Some? ==> r == CreateErrorResponse(outcome.error.value)
      ensures outcome.CallResolved? && outcome.error.None? && outcome.user.Some? ==>
                r.success && r.user.Some? && currentUser == r.user && r.user == Some(MapSupabaseUser(outcome.user.value))
      ensures outcome.CallResolved? && outcome.error.None? && outcome.user.None? ==>
                r == AuthResponse(None, Some(NoUserCreated), false)
      ensures !(outcome.CallResolved? && outcome.error.None? && outcome.user.Some?) ==>
                !r.success && r.user.None? && currentUser == old(currentUser)
      ensures isLoading == old(isLoading) && listening == old(listening) && navigations == old(navigations)
    {
      r := UserCall(outcome, NoUserCreated);
    }

    method Login(outcome: UserCallOutcome) returns (r: AuthResponse)
      requires Valid()
      modifies this
      ensures Valid()
      ensures outcome.CallRejected? ==> r == CreateErrorResponse(outcome.reason)
      ensures outcome.CallResolved? && outcome.error.Some? ==> r == CreateErrorResponse(outcome.error.value)
      ensures outcome.CallResolved? && outcome.error.None? && outcome.user.Some? ==>
                r.success && r.user.Some? && currentUser == r.user && r.user == Some(MapSupabaseUser(outcome.user.value))
      ensures outcome.CallResolved? && outcome.error.None? && outcome.user.None? ==>
                r == AuthResponse(None, Some(BadCredentials), false)
      ensures !(outcome.CallResolved? && outcome.error.None? && outcome.user.Some?) ==>
                !r.success && r.user.None? && currentUser == old(currentUser)
      ensures isLoading == old(isLoading) && listening == old(listening) && navigations == old(navigations)
    {
      r := UserCall(outcome, BadCredentials);
    }

    method UpdateProfile(outcome: UserCallOutcome) returns (r: AuthResponse)
      requires Valid()
      modifies this
      ensures Valid()
      ensures outcome.CallRejected? ==> r == CreateErrorResponse(outcome.reason)
      ensures outcome.CallResolved? && outcome.error.Some? ==> r == CreateErrorResponse(outcome.error.value)
      ensures outcome.CallResolved? && outcome.error.None? && outcome.user.Some? ==>
                r.success && r.user.Some? && currentUser == r.user && r.user == Some(MapSupabaseUser(outcome.user.value))
      ensures outcome.CallResolved? && outcome.error.None? && outcome.user.None? ==>
                r == AuthResponse(None, Some(ProfileNotUpdated), false)
      ensures !(outcome.CallResolved? && outcome.error.None? && outcome.user.Some?) ==>
                !r.success && r.user.None? && currentUser == old(currentUser)
      ensures isLoading == old(isLoading) && listening == old(listening) && navigations == old(navigations)
    {
      r := UserCall(outcome, ProfileNotUpdated);
    }

    /** `logout`: only a sign-out without error clears the user and
        navigates to '/login'. */
    method Logout(outcome: SignOutOutcome) returns (r: AuthResponse)
      requires Valid()
      modifies this
      ensures Valid()
      ensures outcome.SignOutResolved? && outcome.error.None? ==>
                r == AuthResponse(None, None, true) && currentUser.None? && navigations == old(navigations) + ["/login"]
      ensures outcome.SignOutResolved? && outcome.error.Some? ==>
                r == CreateErrorResponse(outcome.error.value) && currentUser == old(currentUser) && navigations == old(navigations)
      ensures outcome.SignOutRejected? ==>
                r == CreateErrorResponse(outcome.reason) && currentUser == old(currentUser) && navigations == old(navigations)
      ensures isLoading == old(isLoading) && listening == old(listening)
    {
      match outcome
      case SignOutRejected(e) =>
        r := CreateErrorResponse(e);
      case SignOutResolved(err) =>
        if err.Some? {
          r := CreateErrorResponse(err.value);
        } else {
          ClearUser();
          navigations := navigations + ["/login"];
          r := AuthResponse(None, None, true);
        }
    }
  }
}
