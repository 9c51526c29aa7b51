/** The video-call page: the numeric call id derived from the user id, the
    start-up sequence (token, join, publish, local preview) with its error
    classification, hang-up and teardown. The route parameter, the current
    user, the rendered elements and the transport's outcomes are parameters. */
module VideoCall {
  import opened Common
  import opened Models
  import opened CallSession
  import opened Agora

  // ---------------------------------------------------------------------
  // The numeric uid

  /** One step of the hash as written: `(hash << 5) - hash + char`, then `|0`. */
  function HashStep(h: int, c: char): int
  {
    ToInt32(ToInt32(h * 32) - h + c as int)
  }

  /** The step is the 32-bit signed value of `31 * h + c`. */
  lemma HashStepIs31(h: int, c: char)
    ensures HashStep(h, c) == ToInt32(31 * h + c as int)
  {
    var x := ToInt32(h * 32) - h + c as int;
    assert (x - (31 * h + c as int)) % TwoTo32 == 0 by {
      assert x - (31 * h + c as int) == ToInt32(h * 32) - h * 32;
    }
    ToInt32Congruent(x, 31 * h + c as int);
  }

  /** The hash of the loop over the user id's characters, from 0. */
  function Hash(s: string): (h: int)
    ensures IsInt32(h)
  {
    if s == [] then 0 else HashStep(Hash(s[..|s| - 1]), s[|s| - 1])
  }

  /** The polynomial `s[0]*31^(n-1) + ... + s[n-1]`, unbounded. */
  function Poly31(s: string): int
  {
    if s == [] then 0 else 31 * Poly31(s[..|s| - 1]) + s[|s| - 1] as int
  }

  /** Values congruent modulo 2^32 stay congruent after one polynomial step. */
  lemma StepCongruent(a: int, b: int, c: int)
    requires (a - b) % TwoTo32 == 0
    ensures ((31 * a + c) - (31 * b + c)) % TwoTo32 == 0
  {
    var k := (a - b) / TwoTo32;
    assert a - b == k * TwoTo32;
    assert (31 * a + c) - (31 * b + c) == (31 * k) * TwoTo32;
  }

  /** The wrapping hash is the 32-bit signed value of the unbounded
      polynomial: wrapping after each step is wrapping once at the end. */
  lemma {:induction false} HashIsWrappedPoly(s: string)
    ensures Hash(s) == ToInt32(Poly31(s))
  {
    if s != [] {
      var p := s[..|s| - 1];
      var c := s[|s| - 1];
      HashIsWrappedPoly(p);
      HashStepIs31(Hash(p), c);
      assert (Hash(p) - Poly31(p)) % TwoTo32 == 0;
      StepCongruent(Hash(p), Poly31(p), c as int);
      ToInt32Congruent(31 * Hash(p) + c as int, 31 * Poly31(p) + c as int);
    }
  }

  const UidModulus: int := 2147483647

  /** `Math.abs(hash) % 2147483647 || 1`. */
  function Uid(userId: string): (uid: int)
    ensures 1 <= uid <= UidModulus - 1
  {
    var h := Hash(userId);
    var a := if h < 0 then -h else h;
    var m := a % UidModulus;
    if m == 0 then 1 else m
  }

  /** The empty id hashes to 0, which the `|| 1` turns into 1. */
  lemma EmptyIdUid()
    ensures Hash("") == 0 && Uid("") == 1
  {
  }

  /** The most negative hash, -2^31, has absolute value 2^31, which the
      modulus folds to 1; 0 never comes out. */
  lemma MostNegativeHashUid(userId: string)
    requires Hash(userId) == -TwoTo31
    ensures Uid(userId) == 1
  {
  }

  /** `generateNumericUid`: the loop over the id's characters. */
  method GenerateNumericUid(userId: string) returns (uid: int)
    ensures uid == Uid(userId)
    ensures 1 <= uid <= 2147483646
  {
    var hash := 0;
    var i := 0;
    while i < |userId|
      invariant 0 <= i <= |userId|
      invariant hash == Hash(userId[..i])
    {
      var code := userId[i] as int;
      assert userId[..i + 1][..i] == userId[..i];
      hash := ToInt32(hash * 32) - hash + code;
      hash := ToInt32(hash);
      i := i + 1;
    }
    assert userId[..i] == userId;
    var a := if hash < 0 then -hash else hash;
    uid := a % 2147483647;
    if uid == 0 {
      uid := 1;
    }
  }

  // ---------------------------------------------------------------------
  // Start-up

  const MsgNoChannel: string := "No se especifico un canal de videollamada"
  const MsgNoUser: string := "No se pudo obtener la informacion del usuario"
  const MsgPermission: string :=
    "Se necesitan permisos de camara y microfono para la videollamada. Por favor permite el acceso en tu navegador."
  const MsgGeneric: string := "Error al iniciar la videollamada. Por favor intenta de nuevo."
  const DashboardPath: string := "/dashboard"

  /** A denied camera or microphone is recognised by the SDK's code or the
      browser's error name. */
  predicate IsPermissionError(e: JsError)
  {
    e.code == Some("PERMISSION_DENIED") || e.name == Some("NotAllowedError")
  }

  /** The message `iniciarLlamada` shows for a start-up error. */
  function ClassifyError(e: JsError): (msg: string)
    ensures msg == MsgPermission || msg == MsgGeneric
  {
    if IsPermissionError(e) then MsgPermission else MsgGeneric
  }

  /** The permission message is shown exactly for permission errors. */
  lemma ClassifyErrorIff(e: JsError)
    ensures ClassifyError(e) == MsgPermission <==> IsPermissionError(e)
    ensures ClassifyError(e) == MsgGeneric <==> !IsPermissionError(e)
  {
  }

  /** The transport's outcomes for one start-up. */
  datatype StartTransport = StartTransport(session: SessionOutcome, http: HttpOutcome, join: Attempt, capture: Capture, publish: Attempt)

  /** The call state after `iniciarLlamada` and the error message it shows. */
  datatype StartResult = StartResult(state: CallState, errorMessage: Option<string>)

  /** `iniciarLlamada`: with a user, fetch the token, join with it, create
      and publish the tracks, then play the local preview when its element
      is rendered; the first step that throws ends the start-up with its
      classified message. */
  function IniciarLlamada(s: CallState, env: Environment, channelName: string, currentUser: Option<User>,
                          t: StartTransport, localEl: Option<Element>): (r: StartResult)
    ensures currentUser.None? ==> r == StartResult(s, Some(MsgNoUser))
    ensures currentUser.Some? ==> r.errorMessage.None? || r.errorMessage == Some(MsgPermission) || r.errorMessage == Some(MsgGeneric)
    ensures currentUser.Some? && r.errorMessage.None? ==>
              r.state.isJoined && r.state.localAudioTrack.Some? && r.state.localVideoTrack.Some?
    ensures r.state.remoteVideoEl == s.remoteVideoEl && r.state.remoteUser == s.remoteUser
  {
    if currentUser.None? then StartResult(s, Some(MsgNoUser))
    else
      var uid := Uid(currentUser.value.id);
      var tk := FetchTokenStep(s, env, channelName, uid, t.session, t.http);
      var j := JoinChannel(tk.state, env.agoraAppId, channelName, tk.token, uid, t.join);
      if j.outcome.Throws? then StartResult(j.state, Some(ClassifyError(j.outcome.error)))
      else
        var p := CreateAndPublishTracks(j.state, t.capture, t.publish);
        if p.outcome.Throws? then StartResult(p.state, Some(ClassifyError(p.outcome.error)))
        else StartResult(if localEl.Some? then PlayLocalVideo(p.state, localEl.value) else p.state, None)
  }

  /** Without a user nothing is called and only the message is shown. */
  lemma NoUserNoCalls(s: CallState, env: Environment, channelName: string, t: StartTransport, localEl: Option<Element>)
    ensures IniciarLlamada(s, env, channelName, None, t, localEl) == StartResult(s, Some(MsgNoUser))
  {
  }

  /** The calls a start-up with a user makes up to and including the
      join: the token fetch, then the join with the fetched token and the
      uid derived from the user id. */
  function CallsThroughJoin(s: CallState, env: Environment, channelName: string, u: User, t: StartTransport): seq<ExternalCall>
  {
    var uid := Uid(u.id);
    s.calls + TokenCalls(env, channelName, uid, t.session, t.http) +
    [Join(env.agoraAppId, channelName, FetchToken(env, channelName, uid, t.session, t.http).token, uid)]
  }

  /** A join that throws ends the start-up: no capture, and its message. */
  lemma JoinFailureStops(s: CallState, env: Environment, channelName: string, u: User, t: StartTransport, localEl: Option<Element>)
    requires t.join.Throws?
    ensures var r := IniciarLlamada(s, env, channelName, Some(u), t, localEl);
            r.state.calls == CallsThroughJoin(s, env, channelName, u, t) && r.errorMessage == Some(ClassifyError(t.join.error))
  {
  }

  /** A capture that throws after the join: no publish, and its message. */
  lemma CaptureFailureStops(s: CallState, env: Environment, channelName: string, u: User, t: StartTransport, localEl: Option<Element>)
    requires t.join.Succeeds? && t.capture.CaptureThrows?
    ensures var r := IniciarLlamada(s, env, channelName, Some(u), t, localEl);
            && r.state.calls == CallsThroughJoin(s, env, channelName, u, t) + [CreateTracks]
            && r.errorMessage == Some(ClassifyError(t.capture.error)) && r.state.isJoined
  {
  }

  /** After a join and a capture, the captured tracks are published; a
      publish that throws shows its message, one that succeeds shows none,
      leaves the call joined and plays the camera track into the preview
      when it is rendered. */
  lemma PublishAfterJoin(s: CallState, env: Environment, channelName: string, u: User, t: StartTransport, localEl: Option<Element>)
    requires t.join.Succeeds? && t.capture.Captured?
    ensures var r := IniciarLlamada(s, env, channelName, Some(u), t, localEl);
            var published := CallsThroughJoin(s, env, channelName, u, t) + [CreateTracks, Publish(t.capture.audio, t.capture.video)];
            && (t.publish.Throws? ==> r.state.calls == published && r.errorMessage == Some(ClassifyError(t.publish.error)))
            && (t.publish.Succeeds? ==>
                  r.errorMessage.None? && r.state.isJoined &&
                  r.state.calls == published + (if localEl.Some? then [Play(t.capture.video, localEl)] else []))
  {
  }

  /** A denied camera during capture shows the permission message. */
  lemma DeniedCaptureShowsPermissionMessage(s: CallState, env: Environment, channelName: string, u: User,
                                            t: StartTransport, localEl: Option<Element>)
    requires t.join.Succeeds? && t.capture.CaptureThrows? && t.capture.error.name == Some("NotAllowedError")
    ensures IniciarLlamada(s, env, channelName, Some(u), t, localEl).errorMessage == Some(MsgPermission)
  {
  }

  // ---------------------------------------------------------------------
  // The component

  class VideoCallComponent {
    const agora: AgoraService
    var channelName: string
    var errorMessage: Option<string>
    var isInitializing: bool
    /** The router navigations, in order. */
    var navigations: seq<string>

    ghost predicate Valid()
      reads this, agora
    {
      agora.Valid()
    }

    constructor(agora: AgoraService)
      requires agora.Valid()
      ensures this.agora == agora && Valid()
      ensures channelName == "" && errorMessage.None? && isInitializing && navigations == []
    {
      this.agora := agora;
      channelName := "";
      errorMessage := None;
      isInitializing := true;
      navigations := [];
    }

    /** `ngAfterViewInit`: registers the remote-video element when rendered. */
    method NgAfterViewInit(remoteEl: Option<Element>)
      requires Valid()
      modifies agora
      ensures Valid()
      ensures agora.State() == if remoteEl.Some? then SetRemoteVideoEl(old(agora.State()), remoteEl.value) else old(agora.State())
    {
      if remoteEl.Some? {
        agora.SetRemoteVideoEl(remoteEl.value);
      }
    }

    /** `iniciarLlamada`, with every exit path clearing `isInitializing`. */
    method IniciarLlamadaPaso(currentUser: Option<User>, t: StartTransport, localEl: Option<Element>)
      requires Valid()
      modifies this, agora
      ensures Valid()
      ensures var r := IniciarLlamada(old(agora.State()), agora.env, channelName, currentUser, t, localEl);
              agora.State() == r.state && errorMessage == r.errorMessage
      ensures !isInitializing
      ensures channelName == old(channelName) && navigations == old(navigations)
    {
      isInitializing := true;
      errorMessage := None;
      if currentUser.None? {
        errorMessage := Some(MsgNoUser);
        isInitializing := false;
        return;
      }
      var uid := GenerateNumericUid(currentUser.value.id);
      var token := agora.FetchToken(channelName, uid, t.session, t.http);
      var joined := agora.JoinChannel(channelName, token, uid, t.join);
      if joined.Throws? {
        errorMessage := Some(ClassifyError(joined.error));
        isInitializing := false;
        return;
      }
      var published := agora.CreateAndPublishTracks(t.capture, t.publish);
      if published.Throws? {
        errorMessage := Some(ClassifyError(published.error));
        isInitializing := false;
        return;
      }
      isInitializing := false;
      if localEl.Some? {
        agora.PlayLocalVideo(localEl.value);
      }
    }

    /** `ngOnInit`: reads the channel from the route (`param`, empty when
        absent); without one it shows its message and calls nothing,
        otherwise it starts the call. Either way it ends not initializing. */
    method NgOnInit(param: Option<string>, currentUser: Option<User>, t: StartTransport, localEl: Option<Element>)
      requires Valid()
      modifies this, agora
      ensures Valid()
      ensures channelName == (if param.Some? then param.value else "")
      ensures channelName == "" ==> errorMessage == Some(MsgNoChannel) && agora.State() == old(agora.State())
      ensures channelName != "" ==>
                var r := IniciarLlamada(old(agora.State()), agora.env, channelName, currentUser, t, localEl);
                agora.State() == r.state && errorMessage == r.errorMessage
      ensures !isInitializing && navigations == old(navigations)
    {
      channelName := if param.Some? then param.value else "";
      if channelName == "" {
        errorMessage := Some(MsgNoChannel);
        isInitializing := false;
        return;
      }
      IniciarLlamadaPaso(currentUser, t, localEl);
    }

    method ToggleMic(setEnabled: Attempt)
      requires Valid()
      modifies agora
      ensures Valid() && agora.State() == CallSession.ToggleMicrophone(old(agora.State()), setEnabled).state
    {
      var _ := agora.ToggleMicrophone(setEnabled);
    }

    method ToggleCamera(setEnabled: Attempt)
      requires Valid()
      modifies agora
      ensures Valid() && agora.State() == CallSession.ToggleCamera(old(agora.State()), setEnabled).state
    {
      var _ := agora.ToggleCamera(setEnabled);
    }

    /** `colgar`: leaves the call, then goes to the dashboard; a leave that
        throws ends the hang-up before the navigation. */
    method Colgar(leave: Attempt)
      requires Valid()
      modifies this, agora
      ensures Valid()
      ensures var st := LeaveChannel(old(agora.State()), leave);
              agora.State() == st.state &&
              navigations == old(navigations) + (if st.outcome.Succeeds? then [DashboardPath] else [])
      ensures channelName == old(channelName) && errorMessage == old(errorMessage) && isInitializing == old(isInitializing)
    {
      var left := agora.LeaveChannel(leave);
      if left.Succeeds? {
        navigations := navigations + [DashboardPath];
      }
    }

    /** `ngOnDestroy`: always leaves the call, without waiting for it. */
    method NgOnDestroy(leave: Attempt)
      requires Valid()
      modifies agora
      ensures Valid() && agora.State() == LeaveChannel(old(agora.State()), leave).state
    {
      var _ := agora.LeaveChannel(leave);
    }
  }
}
