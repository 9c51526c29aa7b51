# aliadasalud — a Dafny model of the patient portal's core

aliadasalud is an Angular patient portal. Patients sign up or sign in, then
complete their patient profile: document, birth date, contact data,
locality and, for adults, their tax condition and CUIT. After that they can
enter the dashboard and join video consultations. This project models,
and proves properties of:

- **The patient service** (`Pacientes`). It covers:
  - the age arithmetic;
  - the profile-completeness policy: ten basic fields always, plus the tax fields from 18 on;
  - the lookup of a patient by user id;
  - the save, which builds the patient record and then updates the existing patient by id or inserts a new one.
- **The profile-completion page** (`CompleteProfile`). It covers:
  - its own copies of the age and completeness checks, proved equal to the service's;
  - the CUIT dash handling and `formatCuit`;
  - `formatDate`, with a read-back of its output;
  - the validators, which follow the age;
  - the component class, which loads the patient, pre-fills the form, searches localities and submits.
- **The three route guards** (`GuardState`, `AuthGuard`, `GuestGuard`, `ProfileCompleteGuard`) and the guard table of the router (`Routes`).
- **The call-session service** (`CallSession` holds the state functions; `Agora` holds the class). It covers:
  - join, publish, the microphone and camera toggles, and leave;
  - the remote-participant events;
  - the token fetch with its development-token shortcut and its fallbacks.
- **The video-call page** (`VideoCall`). It covers:
  - the 32-bit numeric uid hash;
  - the start-up sequence with its error classification;
  - hang-up and teardown.
- **The auth service** (`Auth`). It covers:
  - the invariant "authenticated exactly when there is a user";
  - the loading lifecycle;
  - the auth-state callback;
  - login, register, profile update and logout;
  - the error-message extraction and localisation.

Everything the program gets from outside arrives as a parameter:

- answers from the backend and the store (`Lookup`: emits a value or fails);
- SDK and transport outcomes (`Attempt`: succeeds or throws a `JsError`);
- "today" and the parsing of stored date strings;
- the current user;
- the route parameter and the rendered DOM elements.

Calls the services make into the SDK are recorded in order in a call log. Router navigations and store writes are recorded the same way.

JavaScript semantics are written out:

- truthiness: an empty string, the number 0 and an absent value are falsy;
- `<<` and `|0` as `ToInt32`, and `Math.abs`;
- `String(n).padStart(2, '0')`;
- the 0-based `getMonth`.

A guard's 50 ms re-check loop is modelled as a finite trace of the snapshots its re-checks see. The result is `Waiting` when no snapshot in the trace has loading over.

Classes keep the source's mutable state. Each method's contract gives its new state either directly or as a function of the old state (`AgoraService`, `VideoCallComponent`). The properties are then proved about those functions.

### Where the model follows the code rather than the documented behaviour

- `joinChannel` sets the state to CONNECTING before joining. A join that throws leaves it CONNECTING; nothing resets it to DISCONNECTED (`CallSession.JoinOutcome`).
- `createAndPublishTracks` stores the captured tracks before publishing. A failed publish therefore keeps them (`CallSession.PublishOutcome`).
- A remote video published before the remote element is registered is never played later. There is no buffering (`CallSession.NoPlayForVideoBeforeElement`).
- `profileCompleteGuard` treats "no user" differently on its two paths:
  - when it decides at once, it redirects to login;
  - when it had to wait for loading to end, it allows the navigation (`ProfileCompleteGuard.NoUserAsymmetry`).

  On the configured routes `authGuard` is among the guards of every route that carries `profileCompleteGuard`, and a route is entered only when all its guards allow, so an anonymous visitor is still rejected (`Routes.ProtectedRoutesRejectAnonymous`).
- A start-up error in the video-call page does not leave the channel. A join that succeeded before a failed capture stays joined (`VideoCall.CaptureFailureStops`).
- The localised auth messages are the characters the source file holds, including its mis-encoded letters. For example, `contrase` is followed by U+CE68, not `ñ`.

## Model

| member | source | states |
|---|---|---|
| Common.ToInt32 | aliadasalud/src/app/features/video-call/video-call.component.ts:122-123 | `|0` gives a signed 32-bit value congruent to its input modulo 2^32 |
| Pacientes.CalcularEdad | aliadasalud/src/app/core/services/paciente.service.ts:135-143 | the year difference, one less exactly while this year's birthday (month and day) is still ahead of today |
| Pacientes.AgeReachesIffAnniversaryPassed | aliadasalud/src/app/core/services/paciente.service.ts:135-143 | the age is at least n exactly when the n-th anniversary is on or before today, so on the birthday itself the age has already grown |
| Pacientes.AgeIsAnniversaryCount | aliadasalud/src/app/core/services/paciente.service.ts:135-143 | the age is the number of anniversaries passed: the n-th has passed and the (n+1)-th has not |
| Pacientes.AgeMonotone | aliadasalud/src/app/core/services/paciente.service.ts:135-143 | the age never decreases as today moves forward |
| Pacientes.EighteenthBirthdayExample | aliadasalud/src/app/core/services/paciente.service.ts:138-141 | born 15 June 2006: 17 on 14 June 2024, 18 on 15 June 2024 |
| Pacientes.PerfilCompleto | aliadasalud/src/app/core/services/paciente.service.ts:94-126 | complete exactly when there is a record, its ten basic fields are truthy, and, from 18 on, its tax condition and CUIT are truthy too |
| Pacientes.TienePerfilCompleto | aliadasalud/src/app/core/services/paciente.service.ts:90-133 | a lookup error is passed on; otherwise the emitted value is the completeness decision on the record found |
| Pacientes.NoRecordIsIncomplete | aliadasalud/src/app/core/services/paciente.service.ts:94-97 | no patient record means not complete |
| Pacientes.MissingBasicFieldIsIncomplete | aliadasalud/src/app/core/services/paciente.service.ts:100-116 | any falsy basic field (empty string, zero id, absent) means not complete |
| Pacientes.MinorWithBasicFieldsIsComplete | aliadasalud/src/app/core/services/paciente.service.ts:119-126 | under 18 with the basic fields: complete whatever the tax fields hold |
| Pacientes.AdultCompleteIffTaxFields | aliadasalud/src/app/core/services/paciente.service.ts:121-123 | 18 or over with the basic fields: complete exactly when the tax condition and the CUIT are both truthy |
| Pacientes.GetPacienteByUserId | aliadasalud/src/app/core/services/paciente.service.ts:11-22 | emits the first row exactly when there is one, otherwise null; a store error is passed on |
| Pacientes.PacienteDataIsUnique | aliadasalud/src/app/core/services/paciente.service.ts:25-47 | the record's rules determine the record completely |
| Pacientes.BaseRecord | aliadasalud/src/app/core/services/paciente.service.ts:25-40 | exactly the fourteen base columns, with the user id, the form values, locality id under `localidad`, `pais` Argentina and `activo` true |
| Pacientes.BuildPacienteData | aliadasalud/src/app/core/services/paciente.service.ts:25-47 | the base columns plus `condicion_iva_id` and `cuit`, each present (with its input) exactly when that input is truthy |
| Pacientes.GuardarPerfil | aliadasalud/src/app/core/services/paciente.service.ts:49-74 | a failed lookup writes nothing and fails; an existing patient is updated by its id, none means an insert; the written record is the built one; the result is the first returned row, a failure, or no emission when the found row has no id |
| CompleteProfile.EdadFormularioAgrees | aliadasalud/src/app/features/profile/complete-profile/complete-profile.component.ts:104-112 | the page's age formula equals the patient service's |
| CompleteProfile.PerfilCompletoFormularioAgrees | aliadasalud/src/app/features/profile/complete-profile/complete-profile.component.ts:162-185 | the page's redirect condition holds exactly when the service calls the profile complete |
| CompleteProfile.StripDashes | aliadasalud/src/app/features/profile/complete-profile/complete-profile.component.ts:315 | the result has no dash and is no longer than the input |
| CompleteProfile.StripDashesConcat | aliadasalud/src/app/features/profile/complete-profile/complete-profile.component.ts:340 | removing dashes distributes over concatenation |
| CompleteProfile.StripDashesNoDash | aliadasalud/src/app/features/profile/complete-profile/complete-profile.component.ts:340 | a string without dashes is unchanged |
| CompleteProfile.StripDashesIdempotent | aliadasalud/src/app/features/profile/complete-profile/complete-profile.component.ts:315 | removing dashes twice equals removing them once |
| CompleteProfile.FormatCuit | aliadasalud/src/app/features/profile/complete-profile/complete-profile.component.ts:339-345 | with 11 characters besides dashes: 13 characters, dashes at positions 2 and 11, and the other characters are the stripped input in order; otherwise the input unchanged |
| CompleteProfile.FormatCuitMatchesPattern | aliadasalud/src/app/features/profile/complete-profile/complete-profile.component.ts:339-345 | eleven digits, however dashed, format to the `dd-dddddddd-d` pattern |
| CompleteProfile.FormatCuitStripsBack | aliadasalud/src/app/features/profile/complete-profile/complete-profile.component.ts:339-345 | stripping the formatted CUIT gives the stripped input |
| CompleteProfile.FormatCuitIdempotent | aliadasalud/src/app/features/profile/complete-profile/complete-profile.component.ts:339-345 | formatting twice equals formatting once |
| CompleteProfile.PatternIsFormatted | aliadasalud/src/app/features/profile/complete-profile/complete-profile.component.ts:339-345 | a CUIT in the pattern is its own formatting and strips to its 11 digits |
| CompleteProfile.StoredCuitSurvivesEdit | aliadasalud/src/app/features/profile/complete-profile/complete-profile.component.ts:219-221 | a stored 11-digit CUIT, pre-filled formatted and submitted stripped, comes back unchanged |
| CompleteProfile.FormatDate | aliadasalud/src/app/features/profile/complete-profile/complete-profile.component.ts:332-337 | starts with the year and a dash; for calendar fields it ends in `-MM-DD`, two digits each, reading back as the 1-based month and the day |
| CompleteProfile.PaddedTwoDigits | aliadasalud/src/app/features/profile/complete-profile/complete-profile.component.ts:334-335 | a number below 100, padded, is two digits that read back as it |
| CompleteProfile.FormatDateRoundTrip | aliadasalud/src/app/features/profile/complete-profile/complete-profile.component.ts:332-337 | `year-MM-DD` of a calendar date reads back as the same date (month shifted back by one) |
| CompleteProfile.FormatDateExample | aliadasalud/src/app/features/profile/complete-profile/complete-profile.component.ts:332-337 | 5 January 2024 (month 0) formats as "2024-01-05" |
| CompleteProfile.FormValid | aliadasalud/src/app/features/profile/complete-profile/complete-profile.component.ts:63-74 | a valid form has a document type, a birth date and a locality; with the adult validators a tax condition and a CUIT in the pattern; any CUIT entered is in the pattern |
| CompleteProfile.AdultFormHasTaxFields | aliadasalud/src/app/features/profile/complete-profile/complete-profile.component.ts:92-94 | with the adult validators a valid form has a CUIT in the pattern and a tax condition |
| CompleteProfile.MinorFormTaxFieldsOptional | aliadasalud/src/app/features/profile/complete-profile/complete-profile.component.ts:95-97 | with the minor's validators the tax fields may be empty, but an entered CUIT must match the pattern |
| CompleteProfile.SubmitError | aliadasalud/src/app/features/profile/complete-profile/complete-profile.component.ts:280-301 | no user gives its message; there is no error exactly when there is a user with a truthy email and both metadata names |
| CompleteProfile.BuildPerfilData | aliadasalud/src/app/features/profile/complete-profile/complete-profile.component.ts:303-317 | the user's email; the tax condition as selected; a CUIT exactly when one was entered, without dashes and equal to the entered one stripped |
| CompleteProfile.AdultSubmissionCarriesTaxFields | aliadasalud/src/app/features/profile/complete-profile/complete-profile.component.ts:303-317 | a valid adult form submits an 11-digit dash-free CUIT, and a non-zero tax condition id |
| CompleteProfile.SubmittedDateReadsBack | aliadasalud/src/app/features/profile/complete-profile/complete-profile.component.ts:308 | the submitted birth-date string reads back as the picked date |
| CompleteProfile.Precargado | aliadasalud/src/app/features/profile/complete-profile/complete-profile.component.ts:200-252 | the birth date is the parsed stored one when truthy, else the form's; each selection is the form's own or an entry of its catalog, the locality the one the lookup found |
| CompleteProfile.PrecargadoKeepsAndFormats | aliadasalud/src/app/features/profile/complete-profile/complete-profile.component.ts:200-252 | pre-filling keeps the form's value for falsy stored fields and shows a stored 11-digit CUIT in the pattern |
| CompleteProfile.CompleteProfileComponent.constructor | aliadasalud/src/app/features/profile/complete-profile/complete-profile.component.ts:62-82 | empty form, not loading, no error, adult validators |
| CompleteProfile.CompleteProfileComponent.ActualizarValidacionCuit | aliadasalud/src/app/features/profile/complete-profile/complete-profile.component.ts:84-102 | the age flag is "age >= 18" and both validator flags follow it |
| CompleteProfile.CompleteProfileComponent.OnFechaNacimientoChange | aliadasalud/src/app/features/profile/complete-profile/complete-profile.component.ts:77-81 | the new date is stored; a date (not an empty value) makes the validators follow its age |
| CompleteProfile.CompleteProfileComponent.PatchTexto | aliadasalud/src/app/features/profile/complete-profile/complete-profile.component.ts:202-224 | each truthy stored text field replaces the form's value, the CUIT formatted |
| CompleteProfile.CompleteProfileComponent.PatchSelecciones | aliadasalud/src/app/features/profile/complete-profile/complete-profile.component.ts:226-251 | document type and tax condition patched when truthy and in the loaded catalog, locality when its lookup found it |
| CompleteProfile.CompleteProfileComponent.PrecargarFormulario | aliadasalud/src/app/features/profile/complete-profile/complete-profile.component.ts:200-252 | the form becomes the pre-filled form; a stored birth date re-derives the age flag and validators |
| CompleteProfile.CompleteProfileComponent.CargarDatosPaciente | aliadasalud/src/app/features/profile/complete-profile/complete-profile.component.ts:152-198 | a complete profile navigates to the dashboard; the age flag stays as it was; an incomplete one is kept and pre-fills the form, and a stored birth date re-derives the age flag (and with it both validator flags); no user, no patient or a failed lookup changes nothing |
| CompleteProfile.CompleteProfileComponent.BuscarLocalidades | aliadasalud/src/app/features/profile/complete-profile/complete-profile.component.ts:254-266 | a query under two characters clears the suggestions and sends nothing; otherwise it is sent with limit 20 and its results (none on error) become the suggestions |
| CompleteProfile.CompleteProfileComponent.Guardar | aliadasalud/src/app/features/profile/complete-profile/complete-profile.component.ts:319-329 | a saved profile navigates to the dashboard, a failed save shows its message, a save that never emits leaves the page loading; at most one write, of the built record |
| CompleteProfile.CompleteProfileComponent.Enviar | aliadasalud/src/app/features/profile/complete-profile/complete-profile.component.ts:274-329 | a failed user check stops with its message, not loading and nothing written; otherwise the save as above |
| CompleteProfile.CompleteProfileComponent.OnSubmit | aliadasalud/src/app/features/profile/complete-profile/complete-profile.component.ts:268-330 | an invalid form is only marked touched; a valid one is submitted, and the validators still follow the age flag |
| GuardState.FirstResolved | aliadasalud/src/app/core/guards/auth.guard.ts:13-19 | the index found has loading over and every earlier re-check is loading; none found exactly when every re-check is loading |
| GuardState.Deciding | aliadasalud/src/app/core/guards/auth.guard.ts:11-20 | the current snapshot when not loading, otherwise a resolved re-check, absent exactly when every re-check is loading |
| GuardState.DecidingIgnoresLaterChecks | aliadasalud/src/app/core/guards/auth.guard.ts:13-19 | re-checks after the first resolved one do not matter |
| AuthGuard.Decide | aliadasalud/src/app/core/guards/auth.guard.ts:32-39 | settled; allows exactly when authenticated; a denial redirects to `/auth/login` with the requested url as `returnUrl` |
| AuthGuard.CanActivate | aliadasalud/src/app/core/guards/auth.guard.ts:7-40 | navigates exactly when it denies; waits exactly when every snapshot is loading; allows exactly when the deciding snapshot is authenticated |
| AuthGuard.ResolvedAuthenticatedAllows | aliadasalud/src/app/core/guards/auth.guard.ts:32-34 | resolved and authenticated: allowed without navigation |
| AuthGuard.ResolvedAnonymousRedirects | aliadasalud/src/app/core/guards/auth.guard.ts:36-39 | resolved and not authenticated: denied with a redirect to `/auth/login` carrying the url as `returnUrl` |
| AuthGuard.LoadingPathAgreesWithResolved | aliadasalud/src/app/core/guards/auth.guard.ts:11-29 | after waiting, the outcome equals the immediate decision on the first resolved snapshot |
| GuestGuard.Decide | aliadasalud/src/app/core/guards/guest.guard.ts:28-33 | settled; allows exactly when not authenticated; a denial redirects to `/dashboard` |
| GuestGuard.CanActivate | aliadasalud/src/app/core/guards/guest.guard.ts:5-34 | navigates exactly when it denies; waits exactly when every snapshot is loading; allows exactly when the deciding snapshot is not authenticated |
| GuestGuard.ResolvedAnonymousAllows | aliadasalud/src/app/core/guards/guest.guard.ts:28-30 | resolved and not authenticated: allowed |
| GuestGuard.AuthenticatedNeverAllowed | aliadasalud/src/app/core/guards/guest.guard.ts:32-33 | settling on an authenticated snapshot always redirects to `/dashboard` and denies |
| GuestGuard.LoadingPathAgreesWithResolved | aliadasalud/src/app/core/guards/guest.guard.ts:9-26 | after waiting, the outcome equals the immediate decision on the first resolved snapshot |
| ProfileCompleteGuard.DecideForUser | aliadasalud/src/app/core/guards/profile-complete.guard.ts:54-66 | settled; allows exactly when the store returns a first row for the user's id whose profile is complete; an incomplete profile or a failed lookup redirects to `/profile/complete` |
| ProfileCompleteGuard.CanActivate | aliadasalud/src/app/core/guards/profile-complete.guard.ts:8-68 | navigates exactly when it denies; waits exactly when every snapshot is loading |
| ProfileCompleteGuard.ResolvedNoUserRedirectsToLogin | aliadasalud/src/app/core/guards/profile-complete.guard.ts:47-51 | not loading and no user: denied with a redirect to `/auth/login` |
| ProfileCompleteGuard.WaitedNoUserAllows | aliadasalud/src/app/core/guards/profile-complete.guard.ts:19-22 | loading, then resolved with no user: allowed without navigation |
| ProfileCompleteGuard.NoUserAsymmetry | aliadasalud/src/app/core/guards/profile-complete.guard.ts:19-51 | the same user-less resolved state is allowed after a wait and redirected to login at once |
| ProfileCompleteGuard.UserDecidedByProfile | aliadasalud/src/app/core/guards/profile-complete.guard.ts:25-66 | with a user: complete allows; incomplete or a failed lookup redirects to `/profile/complete` and denies, never propagating the error |
| Routes.GuardsFor | aliadasalud/src/app/app.routes.ts:16-41 | every route listing `profileCompleteGuard` also lists `authGuard`; `guestGuard` is never combined with either; the dashboard lists `profileCompleteGuard` |
| Routes.ProtectedRoutesRejectAnonymous | aliadasalud/src/app/app.routes.ts:32-41 | on the dashboard and video-call routes a resolved state without a user is never let in, because `authGuard` is among each route's guards and all of them must allow |
| CallSession.FetchToken | aliadasalud/src/app/core/services/agora.service.ts:68-102 | the dev token without a request outside production; otherwise the POST to the token endpoint with the bearer header, and the token is exactly the body's token when the answer is ok and readable, none otherwise; a thrown session lookup sends nothing |
| CallSession.DevTokenIgnoresNetwork | aliadasalud/src/app/core/services/agora.service.ts:70-72 | with a development token outside production the session and the endpoint do not affect the result |
| CallSession.ProductionFailureGivesNoToken | aliadasalud/src/app/core/services/agora.service.ts:91-100 | in production a rejected or non-ok request gives no token |
| CallSession.TokenCallsOrder | aliadasalud/src/app/core/services/agora.service.ts:75-89 | no calls with a dev token; otherwise the session lookup first and the POST second, sent exactly when the lookup returned |
| CallSession.InitialState | aliadasalud/src/app/core/services/agora.service.ts:16-26 | not joined, no remote user or tracks, microphone and camera on, DISCONNECTED |
| CallSession.SetRemoteVideoEl | aliadasalud/src/app/core/services/agora.service.ts:28-30 | registers the element and changes nothing else |
| CallSession.JoinChannel | aliadasalud/src/app/core/services/agora.service.ts:104-108 | the outcome is the join's; one Join call is recorded; CONNECTING, joined when it was or the join returned; no other field changes |
| CallSession.JoinOutcome | aliadasalud/src/app/core/services/agora.service.ts:104-108 | CONNECTING and the join sent; joined exactly when the join returns, `isJoined` unchanged when it throws; nothing else changes |
| CallSession.CreateAndPublishTracks | aliadasalud/src/app/core/services/agora.service.ts:110-115 | a failed capture records the capture call, rejects with its error and changes no field; a capture stores both tracks, records the publish and resolves as the publish does |
| CallSession.PublishOutcome | aliadasalud/src/app/core/services/agora.service.ts:110-115 | a failed capture changes no field; otherwise the tracks are stored and exactly they are published, kept even if publishing throws |
| CallSession.ToggleMicrophone | aliadasalud/src/app/core/services/agora.service.ts:131-137 | only the microphone flag can change; with a track one `setEnabled` to the opposite flag is recorded and the outcome is its; without one nothing happens |
| CallSession.ToggleCamera | aliadasalud/src/app/core/services/agora.service.ts:139-145 | only the camera flag can change; with a track one `setEnabled` to the opposite flag is recorded and the outcome is its; without one nothing happens |
| CallSession.ToggleWithoutTrackIsNoop | aliadasalud/src/app/core/services/agora.service.ts:131-145 | the microphone toggle without an audio track, and the camera toggle without a video track, change nothing and call nothing |
| CallSession.ToggleFlipsIffSwitched | aliadasalud/src/app/core/services/agora.service.ts:131-145 | the flag flips exactly when the track exists and switching succeeded; no other field changes |
| CallSession.ToggleTwiceRestores | aliadasalud/src/app/core/services/agora.service.ts:131-145 | two successful toggles restore every field |
| CallSession.LeaveChannel | aliadasalud/src/app/core/services/agora.service.ts:147-162 | both tracks are dropped; the closes, then the leave when joined, are recorded; it rejects exactly when joined and the leave throws; on success not joined, no remote user, DISCONNECTED; the element stays |
| CallSession.LeaveResets | aliadasalud/src/app/core/services/agora.service.ts:147-162 | a completed leave drops the tracks and resets every flag to the initial state, keeping the element; it closes the existing tracks and leaves exactly when joined |
| CallSession.LeaveThrowsHalfway | aliadasalud/src/app/core/services/agora.service.ts:147-155 | a leave that throws has dropped the tracks but is still joined |
| CallSession.LeaveIdempotent | aliadasalud/src/app/core/services/agora.service.ts:147-162 | a second leave changes nothing and makes no call |
| CallSession.OnUserPublished | aliadasalud/src/app/core/services/agora.service.ts:38-51 | the subscribe is recorded first and at most one play after it; only the remote user can change, and only to the user after a video subscribe that succeeded |
| CallSession.OnUserUnpublished | aliadasalud/src/app/core/services/agora.service.ts:53-57 | only the remote user can change, and an audio unpublish changes nothing |
| CallSession.OnUserLeft | aliadasalud/src/app/core/services/agora.service.ts:59-61 | the remote user is cleared and nothing else changes |
| CallSession.OnConnectionStateChange | aliadasalud/src/app/core/services/agora.service.ts:63-65 | the reported state is stored and nothing else changes |
| CallSession.VideoPublishSetsRemote | aliadasalud/src/app/core/services/agora.service.ts:38-46 | a subscribed video publish sets the remote user and plays exactly when an element is registered and the user has a video track |
| CallSession.AudioPublishKeepsRemote | aliadasalud/src/app/core/services/agora.service.ts:47-50 | an audio publish changes no field |
| CallSession.NoPlayForVideoBeforeElement | aliadasalud/src/app/core/services/agora.service.ts:28-46 | video published before the element is registered is never played afterwards |
| CallSession.RemoteEvents | aliadasalud/src/app/core/services/agora.service.ts:53-65 | audio unpublish changes nothing, video unpublish keeps the user, departure clears it alone, a connection change is mirrored |
| CallSession.TracksPairedByOperations | aliadasalud/src/app/core/services/agora.service.ts:110-162 | every operation keeps the two local tracks present together or absent together |
| CallSession.EventsKeepTracks | aliadasalud/src/app/core/services/agora.service.ts:38-57 | the publish and unpublish listeners leave the local tracks alone |
| CallSession.SettersChangeOneField | aliadasalud/src/app/core/services/agora.service.ts:28-65 | a connection change and an element registration each change only their own field |
| CallSession.PlaybackChangesNoField | aliadasalud/src/app/core/services/agora.service.ts:117-129 | playback changes no field; it only plays tracks |
| Agora.AgoraService.constructor | aliadasalud/src/app/core/services/agora.service.ts:14-35 | the service starts in the initial state |
| Agora.AgoraService.FetchToken | aliadasalud/src/app/core/services/agora.service.ts:68-102 | resolves to the token of `CallSession.FetchToken` and records its calls |
| Agora.AgoraService.SetRemoteVideoEl | aliadasalud/src/app/core/services/agora.service.ts:28-30 | registers the element, nothing else changes |
| Agora.AgoraService.JoinChannel | aliadasalud/src/app/core/services/agora.service.ts:104-108 | the new state and outcome are those of `CallSession.JoinChannel` |
| Agora.AgoraService.CreateAndPublishTracks | aliadasalud/src/app/core/services/agora.service.ts:110-115 | the new state and outcome are those of `CallSession.CreateAndPublishTracks`; tracks stay paired |
| Agora.AgoraService.ToggleMicrophone | aliadasalud/src/app/core/services/agora.service.ts:131-137 | the new state and outcome are those of `CallSession.ToggleMicrophone` |
| Agora.AgoraService.ToggleCamera | aliadasalud/src/app/core/services/agora.service.ts:139-145 | the new state and outcome are those of `CallSession.ToggleCamera` |
| Agora.AgoraService.LeaveChannel | aliadasalud/src/app/core/services/agora.service.ts:147-162 | the new state and outcome are those of `CallSession.LeaveChannel`; tracks stay paired |
| Agora.AgoraService.OnUserPublished | aliadasalud/src/app/core/services/agora.service.ts:38-51 | the new state is that of `CallSession.OnUserPublished` |
| Agora.AgoraService.OnUserUnpublished | aliadasalud/src/app/core/services/agora.service.ts:53-57 | the new state is that of `CallSession.OnUserUnpublished` |
| Agora.AgoraService.OnUserLeft | aliadasalud/src/app/core/services/agora.service.ts:59-61 | the remote user is cleared |
| Agora.AgoraService.OnConnectionStateChange | aliadasalud/src/app/core/services/agora.service.ts:63-65 | the reported state is stored |
| Agora.AgoraService.PlayLocalVideo | aliadasalud/src/app/core/services/agora.service.ts:117-119 | plays the camera track into the element when there is one |
| Agora.AgoraService.PlayRemoteVideo | aliadasalud/src/app/core/services/agora.service.ts:121-124 | plays the remote video track into the element when there is one |
| Agora.AgoraService.PlayRemoteAudio | aliadasalud/src/app/core/services/agora.service.ts:126-129 | plays the remote audio track when there is one |
| VideoCall.HashStepIs31 | aliadasalud/src/app/features/video-call/video-call.component.ts:122-123 | `(h << 5) - h + c` then `|0` is the 32-bit signed value of `31h + c` |
| VideoCall.Hash | aliadasalud/src/app/features/video-call/video-call.component.ts:119-124 | the hash is always a signed 32-bit value |
| VideoCall.HashIsWrappedPoly | aliadasalud/src/app/features/video-call/video-call.component.ts:119-124 | wrapping after each step equals wrapping the unbounded base-31 polynomial once |
| VideoCall.Uid | aliadasalud/src/app/features/video-call/video-call.component.ts:125 | the uid is in [1, 2147483646], never 0 |
| VideoCall.EmptyIdUid | aliadasalud/src/app/features/video-call/video-call.component.ts:118-126 | the empty id hashes to 0 and gets uid 1 |
| VideoCall.MostNegativeHashUid | aliadasalud/src/app/features/video-call/video-call.component.ts:125 | the hash -2^31 gets uid 1 |
| VideoCall.GenerateNumericUid | aliadasalud/src/app/features/video-call/video-call.component.ts:118-126 | the loop computes the uid function of the id (so it is deterministic), in [1, 2147483646] |
| VideoCall.ClassifyError | aliadasalud/src/app/features/video-call/video-call.component.ts:93-99 | the message is the permission message or the generic one |
| VideoCall.ClassifyErrorIff | aliadasalud/src/app/features/video-call/video-call.component.ts:93-99 | the permission message exactly for code PERMISSION_DENIED or name NotAllowedError, the generic one otherwise |
| VideoCall.IniciarLlamada | aliadasalud/src/app/features/video-call/video-call.component.ts:57-103 | without a user only its message; with one the message is none, the permission one or the generic one; no message means joined with both tracks; the remote user and element are untouched |
| VideoCall.NoUserNoCalls | aliadasalud/src/app/features/video-call/video-call.component.ts:62-67 | without a user nothing is called and only its message is shown |
| VideoCall.JoinFailureStops | aliadasalud/src/app/features/video-call/video-call.component.ts:70-99 | token calls then the join with the fetched token and derived uid; a throwing join ends there with its classified message |
| VideoCall.CaptureFailureStops | aliadasalud/src/app/features/video-call/video-call.component.ts:76-99 | a capture that throws after the join: no publish, its message, still joined |
| VideoCall.PublishAfterJoin | aliadasalud/src/app/features/video-call/video-call.component.ts:76-89 | the captured tracks are published after the join; success shows no error and plays the camera into a rendered preview |
| VideoCall.DeniedCaptureShowsPermissionMessage | aliadasalud/src/app/features/video-call/video-call.component.ts:93-96 | a NotAllowedError during capture shows the permission message |
| VideoCall.VideoCallComponent.constructor | aliadasalud/src/app/features/video-call/video-call.component.ts:35-37 | empty channel, no error, initializing |
| VideoCall.VideoCallComponent.NgAfterViewInit | aliadasalud/src/app/features/video-call/video-call.component.ts:39-43 | registers the remote element only when it is rendered |
| VideoCall.VideoCallComponent.IniciarLlamadaPaso | aliadasalud/src/app/features/video-call/video-call.component.ts:57-103 | the service state and message are those of the start-up function; not initializing on every exit |
| VideoCall.VideoCallComponent.NgOnInit | aliadasalud/src/app/features/video-call/video-call.component.ts:45-55 | no channel: its message and no service call; otherwise the start-up; never left initializing |
| VideoCall.VideoCallComponent.ToggleMic | aliadasalud/src/app/features/video-call/video-call.component.ts:105-107 | the service's microphone toggle |
| VideoCall.VideoCallComponent.ToggleCamera | aliadasalud/src/app/features/video-call/video-call.component.ts:109-111 | the service's camera toggle |
| VideoCall.VideoCallComponent.Colgar | aliadasalud/src/app/features/video-call/video-call.component.ts:113-116 | leaves, then navigates to `/dashboard` only if the leave completed |
| VideoCall.VideoCallComponent.NgOnDestroy | aliadasalud/src/app/features/video-call/video-call.component.ts:128-130 | always leaves the channel |
| Auth.MapSupabaseUser | aliadasalud/src/app/core/services/auth.service.ts:212-223 | the same id and metadata; the email defaulted to '' when falsy |
| Auth.CreateErrorResponse | aliadasalud/src/app/core/services/auth.service.ts:235-259 | never a user, never success, and the localised extracted message |
| Auth.ExtractMessage | aliadasalud/src/app/core/services/auth.service.ts:236-244 | an Error's message, a string itself; any other value gives its truthy `.message` or a non-empty default |
| Auth.ExtractMessageOrder | aliadasalud/src/app/core/services/auth.service.ts:236-244 | Error message, then a string, then a truthy `.message`, then the default |
| Auth.Localize | aliadasalud/src/app/core/services/auth.service.ts:246-252 | the message unchanged or one of the three Spanish texts; unchanged when no known substring occurs; the invalid-credentials text whenever that substring occurs |
| Auth.LocalizeFirstMatchWins | aliadasalud/src/app/core/services/auth.service.ts:246-252 | the three substrings are tried in order, the first match wins, other messages pass through |
| Auth.AuthService.constructor | aliadasalud/src/app/core/services/auth.service.ts:13-15 | no user, not authenticated, loading |
| Auth.AuthService.SetUser | aliadasalud/src/app/core/services/auth.service.ts:225-228 | stores the user; authenticated exactly when there is one |
| Auth.AuthService.ClearUser | aliadasalud/src/app/core/services/auth.service.ts:230-233 | no user and not authenticated |
| Auth.AuthService.InitAuthListener | aliadasalud/src/app/core/services/auth.service.ts:24-42 | loading ends on both paths; a throw clears the user; otherwise the reported user is set and the callback is registered |
| Auth.AuthService.OnAuthStateChange | aliadasalud/src/app/core/services/auth.service.ts:29-35 | a session with a user sets it, anything else clears it |
| Auth.AuthService.UserCall | aliadasalud/src/app/core/services/auth.service.ts:54-71 | an error (returned or thrown) gives the error response and keeps the user; a returned user becomes current with success; no user gives the call's failure message |
| Auth.AuthService.Register | aliadasalud/src/app/core/services/auth.service.ts:44-73 | a returned or thrown error gives `CreateErrorResponse` of that error and keeps the user; a returned user becomes the current user; no user gives "No se pudo crear el usuario" |
| Auth.AuthService.Login | aliadasalud/src/app/core/services/auth.service.ts:75-101 | a returned or thrown error gives `CreateErrorResponse` of that error and keeps the user; a returned user becomes the current user; no user gives the invalid-credentials message |
| Auth.AuthService.UpdateProfile | aliadasalud/src/app/core/services/auth.service.ts:185-210 | a returned or thrown error gives `CreateErrorResponse` of that error and keeps the user; a returned user becomes the current user; no user gives "No se pudo actualizar el perfil" |
| Auth.AuthService.Logout | aliadasalud/src/app/core/services/auth.service.ts:103-121 | only a sign-out without error clears the user and navigates to `/login`; otherwise the error response and nothing changes |

## Left out

- Timing and scheduling:
  - the 50 ms `setTimeout` of the guards is a finite trace of re-check snapshots;
  - Observables, Promises and change detection are sequential steps;
  - overlapping async calls are not modelled.
- The backend, the store, the media SDK, capture, DOM playback and `fetch` are opaque outcomes given as parameters. The model checks no property of what they return.
- JavaScript `Date` is left out:
  - `new Date(...)` parsing and time zones are a `parse` parameter;
  - "today" is a parameter;
  - an Invalid Date is not modelled.
- `CompleteProfile.FormatDateRoundTrip`: proved only for non-negative years and month/day fields in calendar range. Other Date fields are not produced by the parse the page uses.
- Strings are sequences of Unicode scalar values. `charCodeAt` and `query.length` count UTF-16 code units, so for characters above U+FFFF:
  - `VideoCall.Hash` differs from the source;
  - the two-character gate of `BuscarLocalidades` counts such a character as one character, not two.
- `fetchToken`: a `null` and an `undefined` token are both `None`.
- The `{ ...user }` copy in the `user-unpublished` listener is the same value. Object identity is not modelled.
- The catalog loads of the profile page (`cargarTiposDocumento`, `cargarCondicionesIva`) and their late patch of the selections are not modelled. The catalogs are the id lists held by the component. The page's `ngOnInit` only calls these loads and the patient load.
- Form controls hold the selected catalog entry's id rather than the entry object. The validator framework is modelled only by the required and pattern flags.
- `CompleteProfile.BuildPerfilData` requires the selections and the email that a valid form and the passed user checks guarantee. The source reads `.id` of those objects without a check.
- `PacienteService.actualizarPerfil`, and `getSession`, `refreshSession`, `resetPassword` and `updatePassword` of the auth service, are thin wrappers over the backend and are not modelled.
- The Supabase, locality, tax-condition and document-type services, the dashboard and the styling configuration are not part of this model. Only the guard table of the router configuration is.
- Console logging and the change-detection call before the local preview are left out. Whether the preview element is rendered is a parameter.
