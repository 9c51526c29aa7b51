/** The call-session service: the state of one video call (joined or not,
    the local microphone and camera tracks, the remote participant, the
    on/off flags, the connection state, the registered remote-video
    element) and the operations and transport events that change it. The
    media SDK, capture and `fetch` are a transport whose every call either
    succeeds or throws, given as a parameter; the calls the service makes
    are recorded in order. */
module CallSession {
  import opened Common

  datatype ConnectionState = Disconnected | Connecting | Connected | Disconnecting | Reconnecting

  datatype MediaType = Audio | Video

  /** A media track handle and a DOM element, by identity. */
  datatype Track = Track(id: nat)
  datatype Element = Element(id: nat)

  /** A remote participant as the SDK describes it. */
  datatype RemoteUser = RemoteUser(uid: int, audioTrack: Option<Track>, videoTrack: Option<Track>)

  /** A call the service makes into the media SDK or, for the token, into
      the auth client and the network. */
  datatype ExternalCall =
    | GetSession
    | PostToken(request: TokenRequest)
    | Join(appId: string, channelName: string, token: Option<string>, uid: int)
    | CreateTracks
    | Publish(audio: Track, video: Track)
    | SetEnabled(track: Track, enabled: bool)
    | Close(track: Track)
    | Leave
    | Subscribe(uid: int, mediaType: MediaType)
    | Play(track: Track, sink: Option<Element>)

  /** The service's fields and signals, and the SDK calls made so far. */
  datatype CallState = CallState(
    localAudioTrack: Option<Track>,
    localVideoTrack: Option<Track>,
    remoteVideoEl: Option<Element>,
    isJoined: bool,
    remoteUser: Option<RemoteUser>,
    isMicOn: bool,
    isCameraOn: bool,
    connectionState: ConnectionState,
    calls: seq<ExternalCall>)

  /** The new state after an async operation, and whether the operation
      resolved or rejected. */
  datatype Step = Step(state: CallState, outcome: Attempt)

  /** What the microphone-and-camera capture returns. */
  datatype Capture = Captured(audio: Track, video: Track) | CaptureThrows(error: JsError)

  const Initial: CallState := CallState(None, None, None, false, None, true, true, Disconnected, [])

  /** The local tracks are created together and cleared together. */
  predicate TracksPaired(s: CallState)
  {
    s.localAudioTrack.Some? <==> s.localVideoTrack.Some?
  }

  // ---------------------------------------------------------------------
  // Token

  /** The build environment the service reads. */
  datatype Environment = Environment(production: bool, agoraAppId: string, agoraDevToken: Option<string>, supabaseUrl: string)

  /** What the session lookup returns: it throws, or it gives the session's
      access token if there is a session. */
  datatype SessionOutcome = SessionThrows | SessionReturns(accessToken: Option<string>)

  /** What the token endpoint does: the request rejects, or it answers
      with an ok flag and a body whose JSON parse throws or gives the
      `token` property, if any. */
  datatype JsonOutcome = JsonThrows | JsonBody(token: Option<string>)
  datatype HttpOutcome = FetchRejects | Responds(ok: bool, json: JsonOutcome)

  /** The POST the token fetch sends. */
  datatype TokenRequest = TokenRequest(url: string, authorization: string, channelName: string, uid: int)

  /** The token `fetchToken` resolves to (null and undefined both as None)
      and the request it sent, if any. */
  datatype TokenFetch = TokenFetch(token: Option<string>, request: Option<TokenRequest>)

  function TokenUrl(env: Environment): string
  {
    env.supabaseUrl + "/functions/v1/agora-token"
  }

  /** `Bearer ${token}`, where a missing token prints as "undefined". */
  function BearerHeader(accessToken: Option<string>): string
  {
    "Bearer " + (if accessToken.Some? then accessToken.value else "undefined")
  }

  /** `fetchToken`: outside production a configured development token is
      returned without any request; otherwise the token endpoint is asked
      with the session's access token, and a thrown lookup, a rejected or
      non-ok request or an unreadable body all give no token. */
  function FetchToken(env: Environment, channelName: string, uid: int, session: SessionOutcome, http: HttpOutcome): (r: TokenFetch)
    ensures !env.production && OptTruthy(env.agoraDevToken) ==> r == TokenFetch(env.agoraDevToken, None)
    ensures (env.production || !OptTruthy(env.agoraDevToken)) && session.SessionReturns? ==>
              r.request == Some(TokenRequest(TokenUrl(env), BearerHeader(session.accessToken), channelName, uid))
    ensures (env.production || !OptTruthy(env.agoraDevToken)) ==>
              (r.token.Some? ==> session.SessionReturns? && http.Responds? && http.ok && http.json.JsonBody? &&
                                 r.token == http.json.token)
    ensures (env.production || !OptTruthy(env.agoraDevToken)) && session.SessionReturns? &&
              http.Responds? && http.ok && http.json.JsonBody? ==>
              r.token == http.json.token
    ensures session.SessionThrows? ==> r.request.None?
  {
    if !env.production && OptTruthy(env.agoraDevToken) then TokenFetch(env.agoraDevToken, None)
    else
      match session
      case SessionThrows => TokenFetch(None, None)
      case SessionReturns(accessToken) =>
        var request := Some(TokenRequest(TokenUrl(env), BearerHeader(accessToken), channelName, uid));
        match http
        case FetchRejects => TokenFetch(None, request)
        case Responds(ok, json) =>
          if !ok then TokenFetch(None, request)
          else
            match json
            case JsonThrows => TokenFetch(None, request)
            case JsonBody(token) => TokenFetch(token, request)
  }

  /** With a development token outside production the network is never
      consulted: the session and the endpoint do not affect the result. */
  lemma DevTokenIgnoresNetwork(env: Environment, channelName: string, uid: int,
                               s1: SessionOutcome, h1: HttpOutcome, s2: SessionOutcome, h2: HttpOutcome)
    requires !env.production && OptTruthy(env.agoraDevToken)
    ensures FetchToken(env, channelName, uid, s1, h1) == FetchToken(env, channelName, uid, s2, h2)
  {
  }

  /** In production a failed request or a non-ok answer gives no token,
      whatever development token is configured. */
  lemma ProductionFailureGivesNoToken(env: Environment, channelName: string, uid: int, session: SessionOutcome, http: HttpOutcome)
    requires env.production
    requires http.FetchRejects? || !http.ok
    ensures FetchToken(env, channelName, uid, session, http).token.None?
  {
  }

  /** The calls a token fetch makes: none with a development token,
      otherwise the session lookup and, when it returned, the POST. */
  function TokenCalls(env: Environment, channelName: string, uid: int, session: SessionOutcome, http: HttpOutcome): seq<ExternalCall>
  {
    var r := FetchToken(env, channelName, uid, session, http);
    if !env.production && OptTruthy(env.agoraDevToken) then []
    else [GetSession] + (if r.request.Some? then [PostToken(r.request.value)] else [])
  }

  /** The session is always consulted before the endpoint, and the endpoint
      is asked exactly when neither the development token nor a thrown
      session lookup ended the fetch first. */
  lemma TokenCallsOrder(env: Environment, channelName: string, uid: int, session: SessionOutcome, http: HttpOutcome)
    ensures var c := TokenCalls(env, channelName, uid, session, http);
            && (!env.production && OptTruthy(env.agoraDevToken) ==> c == [])
            && ((env.production || !OptTruthy(env.agoraDevToken)) ==>
                  c[0] == GetSession && (|c| == 2 <==> session.SessionReturns?) && |c| <= 2)
            && (forall i :: 0 <= i < |c| && c[i].PostToken? ==> i == 1 && session.SessionReturns?)
  {
  }

  /** A token fetch as a step of the service: its calls are recorded, and
      it resolves to the token. */
  datatype TokenStep = TokenStep(state: CallState, token: Option<string>)

  function FetchTokenStep(s: CallState, env: Environment, channelName: string, uid: int,
                          session: SessionOutcome, http: HttpOutcome): TokenStep
  {
    TokenStep(s.(calls := s.calls + TokenCalls(env, channelName, uid, session, http)),
              FetchToken(env, channelName, uid, session, http).token)
  }

  // ---------------------------------------------------------------------
  // Operations, as functions of the state

  /** `setRemoteVideoElement`: registers the sink; nothing else changes. */
  function SetRemoteVideoEl(s: CallState, el: Element): (r: CallState)
    ensures r.remoteVideoEl == Some(el) && r.(remoteVideoEl := s.remoteVideoEl) == s
  {
    s.(remoteVideoEl := Some(el))
  }

  /** `joinChannel`: the state is set to connecting before the join; only
      a join that returns marks the call joined. */
  function JoinChannel(s: CallState, appId: string, channelName: string, token: Option<string>, uid: int, join: Attempt): (r: Step)
    ensures r.outcome == join
    ensures r.state.calls == s.calls + [Join(appId, channelName, token, uid)]
    ensures r.state.isJoined <==> s.isJoined || join.Succeeds?
    ensures r.state.connectionState == Connecting
    ensures Fields(r.state).(isJoined := s.isJoined, connectionState := s.connectionState) == Fields(s)
  {
    var s1 := s.(connectionState := Connecting, calls := s.calls + [Join(appId, channelName, token, uid)]);
    if join.Succeeds? then Step(s1.(isJoined := true), Succeeds) else Step(s1, join)
  }

  /** `createAndPublishTracks`: the captured tracks are stored before they
      are published, so a failed publish keeps them; a failed capture
      changes no field. */
  function CreateAndPublishTracks(s: CallState, capture: Capture, publish: Attempt): (r: Step)
    ensures capture.CaptureThrows? ==>
              && r.outcome == Throws(capture.error) && Fields(r.state) == Fields(s)
              && r.state.calls == s.calls + [CreateTracks]
    ensures capture.Captured? ==>
              && r.outcome == publish
              && r.state.calls == s.calls + [CreateTracks, Publish(capture.audio, capture.video)]
              && r.state.localAudioTrack == Some(capture.audio) && r.state.localVideoTrack == Some(capture.video)
              && Fields(r.state).(localAudioTrack := s.localAudioTrack, localVideoTrack := s.localVideoTrack) == Fields(s)
  {
    var s1 := s.(calls := s.calls + [CreateTracks]);
    match capture
    case CaptureThrows(e) => Step(s1, Throws(e))
    case Captured(a, v) =>
      Step(s1.(localAudioTrack := Some(a), localVideoTrack := Some(v), calls := s1.calls + [Publish(a, v)]), publish)
  }

  /** `toggleMicrophone`: with a microphone track, asks it to switch and
      records the new flag once the switch succeeded; without one, nothing. */
  function ToggleMicrophone(s: CallState, setEnabled: Attempt): (r: Step)
    ensures Fields(r.state).(isMicOn := s.isMicOn) == Fields(s)
    ensures s.localAudioTrack.Some? ==> r.state.calls == s.calls + [SetEnabled(s.localAudioTrack.value, !s.isMicOn)] &&
                                        r.outcome == setEnabled
    ensures s.localAudioTrack.None? ==> r == Step(s, Succeeds)
  {
    if s.localAudioTrack.None? then Step(s, Succeeds)
    else
      var newState := !s.isMicOn;
      var s1 := s.(calls := s.calls + [SetEnabled(s.localAudioTrack.value, newState)]);
      if setEnabled.Succeeds? then Step(s1.(isMicOn := newState), Succeeds) else Step(s1, setEnabled)
  }

  /** `toggleCamera`, the same on the camera track. */
  function ToggleCamera(s: CallState, setEnabled: Attempt): (r: Step)
    ensures Fields(r.state).(isCameraOn := s.isCameraOn) == Fields(s)
    ensures s.localVideoTrack.Some? ==> r.state.calls == s.calls + [SetEnabled(s.localVideoTrack.value, !s.isCameraOn)] &&
                                        r.outcome == setEnabled
    ensures s.localVideoTrack.None? ==> r == Step(s, Succeeds)
  {
    if s.localVideoTrack.None? then Step(s, Succeeds)
    else
      var newState := !s.isCameraOn;
      var s1 := s.(calls := s.calls + [SetEnabled(s.localVideoTrack.value, newState)]);
      if setEnabled.Succeeds? then Step(s1.(isCameraOn := newState), Succeeds) else Step(s1, setEnabled)
  }

  /** The closes `leaveChannel` issues: each existing local track, audio first. */
  function CloseCalls(s: CallState): seq<ExternalCall>
  {
    (if s.localAudioTrack.Some? then [Close(s.localAudioTrack.value)] else []) +
    (if s.localVideoTrack.Some? then [Close(s.localVideoTrack.value)] else [])
  }

  /** `leaveChannel`: closes and drops the local tracks, leaves when joined,
      then resets the flags. A leave that throws stops before the reset. */
  function LeaveChannel(s: CallState, leave: Attempt): (r: Step)
    ensures r.state.localAudioTrack.None? && r.state.localVideoTrack.None?
    ensures r.state.calls == s.calls + CloseCalls(s) + (if s.isJoined then [Leave] else [])
    ensures r.outcome.Throws? <==> s.isJoined && leave.Throws?
    ensures r.outcome.Succeeds? ==> !r.state.isJoined && r.state.remoteUser.None? && r.state.connectionState == Disconnected
    ensures r.state.remoteVideoEl == s.remoteVideoEl
  {
    var s1 := s.(localAudioTrack := None, localVideoTrack := None, calls := s.calls + CloseCalls(s));
    var s2 := if s.isJoined then s1.(calls := s1.calls + [Leave]) else s1;
    if s.isJoined && leave.Throws? then Step(s2, leave)
    else Step(s2.(isJoined := false, remoteUser := None, isMicOn := true, isCameraOn := true, connectionState := Disconnected), Succeeds)
  }

  /** The `user-published` listener: subscribes; a video publish makes the
      user the remote participant and plays its video into the registered
      element, if there is one; an audio publish plays the audio. A
      subscription that throws ends the listener. */
  function OnUserPublished(s: CallState, user: RemoteUser, mediaType: MediaType, subscribe: Attempt): (r: CallState)
    ensures s.calls + [Subscribe(user.uid, mediaType)] <= r.calls && |r.calls| <= |s.calls| + 2
    ensures Fields(r).(remoteUser := s.remoteUser) == Fields(s)
    ensures r.remoteUser != s.remoteUser ==> mediaType == Video && subscribe.Succeeds? && r.remoteUser == Some(user)
  {
    var s1 := s.(calls := s.calls + [Subscribe(user.uid, mediaType)]);
    if subscribe.Throws? then s1
    else
      match mediaType
      case Video =>
        var s2 := s1.(remoteUser := Some(user));
        if s.remoteVideoEl.Some? && user.videoTrack.Some? then s2.(calls := s2.calls + [Play(user.videoTrack.value, s.remoteVideoEl)])
        else s2
      case Audio =>
        if user.audioTrack.Some? then s1.(calls := s1.calls + [Play(user.audioTrack.value, None)]) else s1
  }

  /** The `user-unpublished` listener: a video unpublish stores a copy of
      the user (a copy is the same value here); audio changes nothing. */
  function OnUserUnpublished(s: CallState, user: RemoteUser, mediaType: MediaType): (r: CallState)
    ensures r.(remoteUser := s.remoteUser) == s
    ensures mediaType == Audio ==> r == s
  {
    if mediaType == Video then s.(remoteUser := Some(user)) else s
  }

  /** The `user-left` listener. */
  function OnUserLeft(s: CallState): (r: CallState)
    ensures r.remoteUser.None? && r.(remoteUser := s.remoteUser) == s
  {
    s.(remoteUser := None)
  }

  /** The `connection-state-change` listener mirrors the reported state. */
  function OnConnectionStateChange(s: CallState, curState: ConnectionState): (r: CallState)
    ensures r.connectionState == curState && r.(connectionState := s.connectionState) == s
  {
    s.(connectionState := curState)
  }

  function PlayLocalVideo(s: CallState, el: Element): CallState
  {
    if s.localVideoTrack.Some? then s.(calls := s.calls + [Play(s.localVideoTrack.value, Some(el))]) else s
  }

  function PlayRemoteVideo(s: CallState, el: Element): CallState
  {
    if s.remoteUser.Some? && s.remoteUser.value.videoTrack.Some?
    then s.(calls := s.calls + [Play(s.remoteUser.value.videoTrack.value, Some(el))])
    else s
  }

  function PlayRemoteAudio(s: CallState): CallState
  {
    if s.remoteUser.Some? && s.remoteUser.value.audioTrack.Some?
    then s.(calls := s.calls + [Play(s.remoteUser.value.audioTrack.value, None)])
    else s
  }

  /** The state without its call log. */
  function Fields(s: CallState): CallState
  {
    s.(calls := [])
  }

  // ---------------------------------------------------------------------
  // Properties

  /** A fresh service is not joined, has no remote user or tracks, has both
      flags on and is disconnected. */
  lemma InitialState()
    ensures !Initial.isJoined && Initial.remoteUser.None? && Initial.isMicOn && Initial.isCameraOn
    ensures Initial.connectionState == Disconnected && TracksPaired(Initial) && Initial.localAudioTrack.None?
  {
  }

  /** A join leaves the state connecting and sends the join last; it marks
      the call joined exactly when the join returns, and a join that throws
      leaves `isJoined` as it was and the state connecting. */
  lemma JoinOutcome(s: CallState, appId: string, channelName: string, token: Option<string>, uid: int, join: Attempt)
    ensures var st := JoinChannel(s, appId, channelName, token, uid, join);
            && st.state.connectionState == Connecting
            && st.state.calls == s.calls + [Join(appId, channelName, token, uid)]
            && st.outcome == join
            && (join.Succeeds? ==> st.state.isJoined)
            && (join.Throws? ==> st.state.isJoined == s.isJoined)
            && Fields(st.state).(connectionState := s.connectionState, isJoined := s.isJoined) == Fields(s)
  {
  }

  /** A failed capture keeps the tracks; a capture followed by a failed
      publish keeps the new tracks, and the publish sends exactly them. */
  lemma PublishOutcome(s: CallState, capture: Capture, publish: Attempt)
    ensures var st := CreateAndPublishTracks(s, capture, publish);
            && (capture.CaptureThrows? ==> Fields(st.state) == Fields(s) && st.outcome == Throws(capture.error))
            && (capture.Captured? ==>
                  st.state.localAudioTrack == Some(capture.audio) && st.state.localVideoTrack == Some(capture.video) &&
                  st.state.calls == s.calls + [CreateTracks, Publish(capture.audio, capture.video)] &&
                  st.outcome == publish)
  {
  }

  /** A toggle without its own track changes nothing and calls nothing:
      the microphone toggle without an audio track, the camera toggle
      without a video track. */
  lemma ToggleWithoutTrackIsNoop(s: CallState, a: Attempt)
    ensures s.localAudioTrack.None? ==> ToggleMicrophone(s, a) == Step(s, Succeeds)
    ensures s.localVideoTrack.None? ==> ToggleCamera(s, a) == Step(s, Succeeds)
  {
  }

  /** A toggle flips its flag exactly when the track exists and switching
      it succeeded, and touches nothing else. */
  lemma ToggleFlipsIffSwitched(s: CallState, a: Attempt)
    ensures var m := ToggleMicrophone(s, a).state;
            && (m.isMicOn != s.isMicOn <==> s.localAudioTrack.Some? && a.Succeeds?)
            && Fields(m).(isMicOn := s.isMicOn) == Fields(s)
    ensures var c := ToggleCamera(s, a).state;
            && (c.isCameraOn != s.isCameraOn <==> s.localVideoTrack.Some? && a.Succeeds?)
            && Fields(c).(isCameraOn := s.isCameraOn) == Fields(s)
  {
  }

  /** Two successful toggles restore both flags and every other field. */
  lemma ToggleTwiceRestores(s: CallState)
    ensures Fields(ToggleMicrophone(ToggleMicrophone(s, Succeeds).state, Succeeds).state) == Fields(s)
    ensures Fields(ToggleCamera(ToggleCamera(s, Succeeds).state, Succeeds).state) == Fields(s)
  {
    var m1 := ToggleMicrophone(s, Succeeds).state;
    assert Fields(m1).(isMicOn := s.isMicOn) == Fields(s);
    var c1 := ToggleCamera(s, Succeeds).state;
    assert Fields(c1).(isCameraOn := s.isCameraOn) == Fields(s);
  }

  /** A completed leave resets every flag and drops the tracks, keeping
      only the registered element; it closes the existing tracks and sends
      a leave exactly when joined. */
  lemma LeaveResets(s: CallState, leave: Attempt)
    requires !s.isJoined || leave.Succeeds?
    ensures var st := LeaveChannel(s, leave);
            && st.outcome == Succeeds
            && Fields(st.state) == Fields(Initial).(remoteVideoEl := s.remoteVideoEl)
            && st.state.calls == s.calls + CloseCalls(s) + (if s.isJoined then [Leave] else [])
  {
  }

  /** A leave that throws has already dropped the tracks but is still joined. */
  lemma LeaveThrowsHalfway(s: CallState, e: JsError)
    requires s.isJoined
    ensures var st := LeaveChannel(s, Throws(e));
            && st.outcome == Throws(e)
            && st.state.localAudioTrack.None? && st.state.localVideoTrack.None? && st.state.isJoined
            && st.state.calls == s.calls + CloseCalls(s) + [Leave]
  {
  }

  /** Leaving twice is leaving once: the second leave, whatever it would
      do, finds nothing to close and no channel, and changes nothing. */
  lemma LeaveIdempotent(s: CallState, first: Attempt, second: Attempt)
    requires !s.isJoined || first.Succeeds?
    ensures var once := LeaveChannel(s, first).state;
            LeaveChannel(once, second) == Step(once, Succeeds)
  {
    var once := LeaveChannel(s, first).state;
    assert CloseCalls(once) == [];
    assert once.calls + [] == once.calls;
  }

  /** A subscribed video publish makes the user the remote participant, and
      plays its video into the element exactly when one is registered and
      the user has a video track. */
  lemma VideoPublishSetsRemote(s: CallState, user: RemoteUser)
    ensures var t := OnUserPublished(s, user, Video, Succeeds);
            && t.remoteUser == Some(user)
            && (s.remoteVideoEl.Some? && user.videoTrack.Some? ==>
                  t.calls == s.calls + [Subscribe(user.uid, Video), Play(user.videoTrack.value, s.remoteVideoEl)])
            && (s.remoteVideoEl.None? || user.videoTrack.None? ==> t.calls == s.calls + [Subscribe(user.uid, Video)])
  {
  }

  /** An audio publish never changes the remote participant. */
  lemma AudioPublishKeepsRemote(s: CallState, user: RemoteUser, subscribe: Attempt)
    ensures Fields(OnUserPublished(s, user, Audio, subscribe)) == Fields(s)
  {
  }

  /** A video published before an element is registered is not played when
      the element is registered later: there is no buffering of remote video. */
  lemma NoPlayForVideoBeforeElement(s: CallState, user: RemoteUser, el: Element)
    requires s.remoteVideoEl.None?
    ensures var t := SetRemoteVideoEl(OnUserPublished(s, user, Video, Succeeds), el);
            t.calls == s.calls + [Subscribe(user.uid, Video)] && t.remoteUser == Some(user)
  {
  }

  /** Unpublishing audio changes nothing; unpublishing video keeps a remote
      participant; a departure clears it; a connection change is mirrored. */
  lemma RemoteEvents(s: CallState, user: RemoteUser, st: ConnectionState)
    ensures OnUserUnpublished(s, user, Audio) == s
    ensures OnUserUnpublished(s, user, Video).remoteUser == Some(user)
    ensures OnUserLeft(s).remoteUser.None? && Fields(OnUserLeft(s)).(remoteUser := s.remoteUser) == Fields(s)
    ensures OnConnectionStateChange(s, st).connectionState == st
  {
  }

  /** Every operation keeps the local tracks paired: they are stored
      together by a capture and dropped together by a leave. */
  lemma TracksPairedByOperations(s: CallState, appId: string, channelName: string, token: Option<string>,
                                 uid: int, a: Attempt, capture: Capture)
    requires TracksPaired(s)
    ensures TracksPaired(JoinChannel(s, appId, channelName, token, uid, a).state)
    ensures TracksPaired(CreateAndPublishTracks(s, capture, a).state)
    ensures TracksPaired(ToggleMicrophone(s, a).state) && TracksPaired(ToggleCamera(s, a).state)
    ensures TracksPaired(LeaveChannel(s, a).state)
  {
  }

  /** The remote-participant events leave the local tracks alone. */
  lemma EventsKeepTracks(s: CallState, a: Attempt, user: RemoteUser, mediaType: MediaType)
    ensures var t := OnUserPublished(s, user, mediaType, a);
            t.localAudioTrack == s.localAudioTrack && t.localVideoTrack == s.localVideoTrack
    ensures var t := OnUserUnpublished(s, user, mediaType);
            t.localAudioTrack == s.localAudioTrack && t.localVideoTrack == s.localVideoTrack
  {
  }

  /** A connection change and an element registration each change their
      one field and nothing else. */
  lemma SettersChangeOneField(s: CallState, el: Element, cs: ConnectionState)
    ensures Fields(OnConnectionStateChange(s, cs)).(connectionState := s.connectionState) == Fields(s)
    ensures Fields(SetRemoteVideoEl(s, el)).(remoteVideoEl := s.remoteVideoEl) == Fields(s)
  {
  }

  /** Playback only adds to the call log. */
  lemma PlaybackChangesNoField(s: CallState, el: Element)
    ensures Fields(PlayLocalVideo(s, el)) == Fields(s) && Fields(PlayRemoteVideo(s, el)) == Fields(s)
    ensures Fields(PlayRemoteAudio(s)) == Fields(s)
  {
  }
}

/** The service class: its fields are the call state, and each method
    changes them as the operation of the same name in CallSession says. */
module Agora {
  import opened Common
  import opened CallSession

  // ---------------------------------------------------------------------
  // The service

  class AgoraService {
    const env: Environment
    var localAudioTrack: Option<Track>
    var localVideoTrack: Option<Track>
    var remoteVideoEl: Option<Element>
    var isJoined: bool
    var remoteUser: Option<RemoteUser>
    var isMicOn: bool
    var isCameraOn: bool
    var connectionState: ConnectionState
    /** The calls made into the media SDK, in order. */
    var calls: seq<ExternalCall>

    function State(): CallState
      reads this
    {
      CallState(localAudioTrack, localVideoTrack, remoteVideoEl, isJoined, remoteUser, isMicOn, isCameraOn, connectionState, calls)
    }

    ghost predicate Valid()
      reads this
    {
      TracksPaired(State())
    }

    constructor(env: Environment)
      ensures this.env == env && State() == Initial && Valid()
    {
      this.env := env;
      localAudioTrack := None;
      localVideoTrack := None;
      remoteVideoEl := None;
      isJoined := false;
      remoteUser := None;
      isMicOn := true;
      isCameraOn := true;
      connectionState := Disconnected;
      calls := [];
    }

    method FetchToken(channelName: string, uid: int, session: SessionOutcome, http: HttpOutcome) returns (token: Option<string>)
      requires Valid()
      modifies this
      ensures Valid() && TokenStep(State(), token) == FetchTokenStep(old(State()), env, channelName, uid, session, http)
    {
      if !env.production && env.agoraDevToken.Some? && env.agoraDevToken.value != "" {
        return env.agoraDevToken;
      }
      calls := calls + [GetSession];
      match session
      case SessionThrows =>
        return None;
      case SessionReturns(accessToken) =>
        var request := TokenRequest(TokenUrl(env), BearerHeader(accessToken), channelName, uid);
        calls := calls + [PostToken(request)];
        token := None;
        if http.Responds? && http.ok && http.json.JsonBody? {
          token := http.json.token;
        }
    }

    method SetRemoteVideoEl(el: Element)
      requires Valid()
      modifies this
      ensures Valid() && State() == CallSession.SetRemoteVideoEl(old(State()), el)
    {
      remoteVideoEl := Some(el);
    }

    method JoinChannel(channelName: string, token: Option<string>, uid: int, join: Attempt) returns (outcome: Attempt)
      requires Valid()
      modifies this
      ensures Valid()
      ensures Step(State(), outcome) == CallSession.JoinChannel(old(State()), env.agoraAppId, channelName, token, uid, join)
    {
      connectionState := Connecting;
      calls := calls + [Join(env.agoraAppId, channelName, token, uid)];
      if join.Throws? {
        return join;
      }
      isJoined := true;
      outcome := Succeeds;
    }

    method CreateAndPublishTracks(capture: Capture, publish: Attempt) returns (outcome: Attempt)
      requires Valid()
      modifies this
      ensures Valid()
      ensures Step(State(), outcome) == CallSession.CreateAndPublishTracks(old(State()), capture, publish)
    {
      calls := calls + [CreateTracks];
      match capture
      case CaptureThrows(e) =>
        return Throws(e);
      case Captured(a, v) =>
        localAudioTrack, localVideoTrack := Some(a), Some(v);
        calls := calls + [Publish(a, v)];
        outcome := publish;
    }

    method ToggleMicrophone(setEnabled: Attempt) returns (outcome: Attempt)
      requires Valid()
      modifies this
      ensures Valid()
      ensures Step(State(), outcome) == CallSession.ToggleMicrophone(old(State()), setEnabled)
    {
      outcome := Succeeds;
      if localAudioTrack.Some? {
        var newState := !isMicOn;
        calls := calls + [SetEnabled(localAudioTrack.value, newState)];
        if setEnabled.Throws? {
          return setEnabled;
        }
        isMicOn := newState;
      }
    }

    method ToggleCamera(setEnabled: Attempt) returns (outcome: Attempt)
      requires Valid()
      modifies this
      ensures Valid()
      ensures Step(State(), outcome) == CallSession.ToggleCamera(old(State()), setEnabled)
    {
      outcome := Succeeds;
      if localVideoTrack.Some? {
        var newState := !isCameraOn;
        calls := calls + [SetEnabled(localVideoTrack.value, newState)];
        if setEnabled.Throws? {
          return setEnabled;
        }
        isCameraOn := newState;
      }
    }

    method LeaveChannel(leave: Attempt) returns (outcome: Attempt)
      requires Valid()
      modifies this
      ensures Valid()
      ensures Step(State(), outcome) == CallSession.LeaveChannel(old(State()), leave)
    {
      var joined := isJoined;
      var c := calls;
      if localAudioTrack.Some? {
        c := c + [Close(localAudioTrack.value)];
      }
      if localVideoTrack.Some? {
        c := c + [Close(localVideoTrack.value)];
      }
      if joined {
        c := c + [Leave];
      }
      calls := c;
      localAudioTrack := None;
      localVideoTrack := None;
      if joined && leave.Throws? {
        return leave;
      }
      isJoined := false;
      remoteUser := None;
      isMicOn := true;
      isCameraOn := true;
      connectionState := Disconnected;
      outcome := Succeeds;
    }

    method OnUserPublished(user: RemoteUser, mediaType: MediaType, subscribe: Attempt)
      requires Valid()
      modifies this
      ensures Valid() && State() == CallSession.OnUserPublished(old(State()), user, mediaType, subscribe)
    {
      calls := calls + [Subscribe(user.uid, mediaType)];
      if subscribe.Throws? {
        return;
      }
      if mediaType == Video {
        remoteUser := Some(user);
        if remoteVideoEl.Some? && user.videoTrack.Some? {
          calls := calls + [Play(user.videoTrack.value, remoteVideoEl)];
        }
      } else if user.audioTrack.Some? {
        calls := calls + [Play(user.audioTrack.value, None)];
      }
    }

    method OnUserUnpublished(user: RemoteUser, mediaType: MediaType)
      requires Valid()
      modifies this
      ensures Valid() && State() == CallSession.OnUserUnpublished(old(State()), user, mediaType)
    {
      if mediaType == Video {
        remoteUser := Some(user);
      }
    }

    method OnUserLeft()
      requires Valid()
      modifies this
      ensures Valid() && State() == CallSession.OnUserLeft(old(State()))
    {
      remoteUser := None;
    }

    method OnConnectionStateChange(curState: ConnectionState)
      requires Valid()
      modifies this
      ensures Valid() && State() == CallSession.OnConnectionStateChange(old(State()), curState)
    {
      connectionState := curState;
    }

    method PlayLocalVideo(el: Element)
      requires Valid()
      modifies this
      ensures Valid() && State() == CallSession.PlayLocalVideo(old(State()), el)
    {
      if localVideoTrack.Some? {
        calls := calls + [Play(localVideoTrack.value, Some(el))];
      }
    }

    method PlayRemoteVideo(el: Element)
      requires Valid()
      modifies this
      ensures Valid() && State() == CallSession.PlayRemoteVideo(old(State()), el)
    {
      var user := remoteUser;
      if user.Some? && user.value.videoTrack.Some? {
        calls := calls + [Play(user.value.videoTrack.value, Some(el))];
      }
    }

    method PlayRemoteAudio()
      requires Valid()
      modifies this
      ensures Valid() && State() == CallSession.PlayRemoteAudio(old(State()))
    {
      var user := remoteUser;
      if user.Some? && user.value.audioTrack.Some? {
        calls := calls + [Play(user.value.audioTrack.value, None)];
      }
    }
  }
}
