/** The avatar component: it initialises the avatar client after checking
    its credentials, starts the avatar and dialogue sessions, waits for the
    dialogue session's transport object, forwards remote audio tracks to the
    avatar and mutes the dialogue session's own audio element, and tears
    both sessions down on demand.

    The SDK objects are abstract: every request the component makes of them
    is appended to `sdkCalls`, and every answer they give (a rejection, the
    presence of the transport object, the audio element a lookup finds) is an
    argument of the method that receives it. */
module SimliVapiAvatar {
  import opened Js

  /** The options passed to the avatar client's `Initialize`. The video and
      audio element references are not part of this model. */
  datatype SimliConfig = SimliConfig(
    apiKey: string,
    faceId: string,
    handleSilence: bool,
    maxSessionLengthMs: nat,
    maxIdleTimeMs: nat,
    sessionToken: string,
    enableConsoleLogs: bool,
    simliUrl: string,
    maxRetryAttempts: nat,
    retryDelayMs: nat,
    videoReceivedTimeoutMs: nat,
    enableSfu: bool,
    model: string)

  /** The fixed options the component initialises the avatar with. */
  function InitConfig(apiKey: string, faceId: string): SimliConfig
  {
    SimliConfig(apiKey, faceId, true, 3600000, 5000, "", true, "", 3, 2000, 15000, true, "fasttalk")
  }

  /** A request made of one of the two SDKs. */
  datatype SdkCall =
    | SimliInitialize(config: SimliConfig)
    | SimliStart
    | VapiStart(assistantId: Option<string>)
    | RegisterTrackListener
    | ListenToTrack(trackId: string)
    | VapiStop
    | SimliClose

  const PlaceholderFaceId: string := "your-face-id-here"
  const ApiKeyError: string := "Simli API key not configured. Please set NEXT_PUBLIC_SIMLI_API_KEY in .env.local"
  const FaceIdError: string := "Simli face ID not configured. Please set NEXT_PUBLIC_SIMLI_FACE_ID in .env.local"
  const DefaultInitError: string := "Failed to initialize Simli client"

  const StatusInitial: string := "Initializing..."
  const StatusReady: string := "Ready to start call"
  const StatusFailed: string := "Initialization failed"

  /** The credential checks of `initializeSimli`, in source order: the API
      key first, the face id only once the key is present. */
  function CredentialError(apiKey: Option<string>, faceId: Option<string>): (r: Option<string>)
    ensures !IsSet(apiKey) ==> r == Some(ApiKeyError)
    ensures IsSet(apiKey) && (!IsSet(faceId) || faceId.value == PlaceholderFaceId) ==> r == Some(FaceIdError)
    ensures r.None? <==> IsSet(apiKey) && IsSet(faceId) && faceId.value != PlaceholderFaceId
  {
    if !IsSet(apiKey) then Some(ApiKeyError)
    else if !IsSet(faceId) || faceId.value == PlaceholderFaceId then Some(FaceIdError)
    else None
  }

  /** The error `initializeSimli` ends with, or `None` when it succeeds: a
      credential error, else the message of a rejected `Initialize`. */
  function InitError(apiKey: Option<string>, faceId: Option<string>, initFailure: Option<Thrown>): (r: Option<string>)
    ensures r.None? <==> CredentialError(apiKey, faceId).None? && initFailure.None?
    ensures CredentialError(apiKey, faceId).Some? ==> r == CredentialError(apiKey, faceId)
    ensures CredentialError(apiKey, faceId).None? && initFailure.Some? ==>
      r == Some(MessageOf(initFailure.value, DefaultInitError))
  {
    match CredentialError(apiKey, faceId)
    case Some(msg) => Some(msg)
    case None =>
      match initFailure
      case Some(t) => Some(MessageOf(t, DefaultInitError))
      case None => None
  }

  /** A participant and a media track as a `track-started` event reports them. */
  datatype Participant = Participant(local: bool, sessionId: string)
  datatype MediaTrack = MediaTrack(id: string, kind: string)
  datatype TrackEvent = TrackEvent(participant: Option<Participant>, track: MediaTrack)

  /** The track a `track-started` event hands to the avatar, if any. */
  function ForwardedTrack(ev: TrackEvent): (r: Option<MediaTrack>)
    ensures r.Some? <==>
      ev.participant.Some? && !ev.participant.value.local && ev.track.kind == "audio"
    ensures r.Some? ==> r.value == ev.track
  {
    match ev.participant
    case Some(p) => if !p.local && ev.track.kind == "audio" then Some(ev.track) else None
    case None => None
  }

  /** The control button's label: one of four, and "End Call" only during
      a call. */
  function ButtonLabel(isInitialized: bool, error: string, isCallActive: bool): (text: string)
    ensures text in {"Setting up...", "Configuration Error", "End Call", "Start Call"}
    ensures text == "End Call" ==> isCallActive
    ensures text == "Start Call" ==> !isCallActive
  {
    if !isInitialized && error == "" then "Setting up..."
    else if error != "" then "Configuration Error"
    else if isCallActive then "End Call"
    else "Start Call"
  }

  /** Whether the control button is disabled: exactly when the label
      (with no call active) is not "Start Call". */
  function ButtonDisabled(isInitialized: bool, error: string): (disabled: bool)
    ensures disabled <==> ButtonLabel(isInitialized, error, false) != "Start Call"
  {
    !isInitialized || error != ""
  }

  /** The label follows its priority order: still setting up, then a
      configuration error, then the call's own state. */
  lemma ButtonLabelPriority(isInitialized: bool, error: string, isCallActive: bool)
    ensures ButtonLabel(isInitialized, error, isCallActive) == "Setting up..." <==> !isInitialized && error == ""
    ensures ButtonLabel(isInitialized, error, isCallActive) == "Configuration Error" <==> error != ""
    ensures ButtonLabel(isInitialized, error, isCallActive) == "End Call" <==> isInitialized && error == "" && isCallActive
    ensures ButtonLabel(isInitialized, error, isCallActive) == "Start Call" <==> isInitialized && error == "" && !isCallActive
  {
  }

  /** The button is usable exactly when its label offers a call action. */
  lemma ButtonEnabledIffCallAction(isInitialized: bool, error: string, isCallActive: bool)
    ensures !ButtonDisabled(isInitialized, error) <==>
      ButtonLabel(isInitialized, error, isCallActive) in {"End Call", "Start Call"}
  {
  }

  /** A DOM audio element's two settings the component touches. */
  class AudioElement {
    var muted: bool
    var volume: real

    constructor (muted: bool, volume: real)
      ensures this.muted == muted && this.volume == volume
    {
      this.muted := muted;
      this.volume := volume;
    }
  }

  class SimliVapiAvatar {
    var isInitialized: bool
    var isCallActive: bool
    var error: string
    var status: string
    /** Whether the avatar client reference is set. */
    var hasSimliClient: bool
    /** Requests made of the two SDKs, oldest first. */
    var sdkCalls: seq<SdkCall>
    /** Session ids of participants whose 100 ms mute timer is pending, in
        the order they were scheduled. */
    var pendingMutes: seq<string>

    /** Only initialisation sets the error and status, and a call can only be
        started once an avatar client exists. */
    ghost predicate Valid()
      reads this
    {
      (isInitialized ==> error == "" && status == StatusReady) &&
      (error != "" ==> !isInitialized && status == StatusFailed) &&
      (isCallActive ==> hasSimliClient)
    }

    function Label(): string
      reads this
    {
      ButtonLabel(isInitialized, error, isCallActive)
    }

    function Disabled(): bool
      reads this
    {
      ButtonDisabled(isInitialized, error)
    }

    constructor ()
      ensures Valid()
      ensures !isInitialized && !isCallActive && error == "" && status == StatusInitial
      ensures !hasSimliClient && sdkCalls == [] && pendingMutes == []
    {
      isInitialized, isCallActive := false, false;
      error, status := "", StatusInitial;
      hasSimliClient := false;
      sdkCalls, pendingMutes := [], [];
    }

    /** `initializeSimli`, run once by the mount effect. The client reference
        is set before the credentials are checked, so it exists even when
        initialisation fails. */
    method InitializeSimli(apiKey: Option<string>, faceId: Option<string>, initFailure: Option<Thrown>)
      requires Valid() && !isInitialized
      modifies this
      ensures Valid() && hasSimliClient
      ensures isInitialized <==> InitError(apiKey, faceId, initFailure).None?
      ensures isInitialized ==> status == StatusReady && error == ""
      ensures !isInitialized ==> status == StatusFailed && error == InitError(apiKey, faceId, initFailure).value
      ensures sdkCalls == old(sdkCalls) +
        (if CredentialError(apiKey, faceId).None? then [SimliInitialize(InitConfig(apiKey.value, faceId.value))] else [])
      ensures isCallActive == old(isCallActive) && pendingMutes == old(pendingMutes)
    {
      status := "Initializing Simli client...";
      hasSimliClient := true;
      if apiKey.None? || apiKey.value == "" {
        error, status := ApiKeyError, StatusFailed;
        return;
      }
      if faceId.None? || faceId.value == "" || faceId.value == PlaceholderFaceId {
        error, status := FaceIdError, StatusFailed;
        return;
      }
      sdkCalls := sdkCalls + [SimliInitialize(InitConfig(apiKey.value, faceId.value))];
      if initFailure.Some? {
        error := match initFailure.value
          case ErrorObject(msg) => msg
          case OtherValue => DefaultInitError;
        status := StatusFailed;
        return;
      }
      isInitialized := true;
      status := StatusReady;
      error := "";
    }

    /** `startCall`: start the avatar session, then the dialogue session, then
        poll for the dialogue session's transport object. `transportSeen[i]`
        says whether the transport existed at the i-th check. The first check
        that finds it registers the `track-started` listener once and ends the
        wait; only then is the call active. While the transport is absent the
        checks go on without bound: when no observation finds it the call is
        still waiting, and nothing after the wait has happened. `polls` is the
        number of checks made. A rejection from either `start` is caught and
        leaves the call inactive as it was. */
    method StartCall(assistantId: Option<string>, simliStartFailure: Option<Thrown>,
                     vapiStartFailure: Option<Thrown>, transportSeen: seq<bool>)
      returns (polls: nat)
      requires Valid()
      modifies this
      ensures Valid()
      ensures isInitialized == old(isInitialized) && error == old(error) && status == old(status)
      ensures hasSimliClient == old(hasSimliClient) && pendingMutes == old(pendingMutes)
      ensures !hasSimliClient ==> sdkCalls == old(sdkCalls) && isCallActive == old(isCallActive) && polls == 0
      ensures hasSimliClient && simliStartFailure.Some? ==>
        sdkCalls == old(sdkCalls) + [SimliStart] && isCallActive == old(isCallActive) && polls == 0
      ensures hasSimliClient && simliStartFailure.None? && vapiStartFailure.Some? ==>
        sdkCalls == old(sdkCalls) + [SimliStart, VapiStart(assistantId)] &&
        isCallActive == old(isCallActive) && polls == 0
      ensures hasSimliClient && simliStartFailure.None? && vapiStartFailure.None? ==>
        polls <= |transportSeen| &&
        (forall j :: 0 <= j < polls - 1 ==> !transportSeen[j]) &&
        if true in transportSeen then
          0 < polls && transportSeen[polls - 1] &&
          sdkCalls == old(sdkCalls) + [SimliStart, VapiStart(assistantId), RegisterTrackListener] &&
          isCallActive
        else
          polls == |transportSeen| &&
          sdkCalls == old(sdkCalls) + [SimliStart, VapiStart(assistantId)] &&
          isCallActive == old(isCallActive)
    {
      polls := 0;
      if !hasSimliClient {
        return;
      }
      sdkCalls := sdkCalls + [SimliStart];
      if simliStartFailure.Some? {
        return;
      }
      sdkCalls := sdkCalls + [VapiStart(assistantId)];
      if vapiStartFailure.Some? {
        return;
      }
      ghost var started := sdkCalls;
      var resolved := false;
      while !resolved && polls < |transportSeen|
        invariant polls <= |transportSeen|
        invariant forall j :: 0 <= j < (if resolved then polls - 1 else polls) ==> !transportSeen[j]
        invariant resolved ==> 0 < polls && transportSeen[polls - 1]
        invariant sdkCalls == started + (if resolved then [RegisterTrackListener] else [])
        invariant isCallActive == old(isCallActive)
        invariant isInitialized == old(isInitialized) && error == old(error) && status == old(status)
        invariant hasSimliClient && pendingMutes == old(pendingMutes)
        decreases |transportSeen| - polls, !resolved
      {
        if transportSeen[polls] {
          sdkCalls := sdkCalls + [RegisterTrackListener];
          resolved := true;
        }
        polls := polls + 1;
      }
      if resolved {
        isCallActive := true;
      }
    }

    /** The registered `track-started` listener. A forwarded track goes to
        the avatar client and schedules the mute of that participant's
        dialogue audio element; any other track is ignored. */
    method OnTrackStarted(ev: TrackEvent)
      requires Valid()
      modifies this
      ensures Valid()
      ensures isInitialized == old(isInitialized) && isCallActive == old(isCallActive)
      ensures error == old(error) && status == old(status) && hasSimliClient == old(hasSimliClient)
      ensures ForwardedTrack(ev).None? ==> sdkCalls == old(sdkCalls) && pendingMutes == old(pendingMutes)
      ensures ForwardedTrack(ev).Some? ==>
        sdkCalls == old(sdkCalls) + (if hasSimliClient then [ListenToTrack(ev.track.id)] else []) &&
        pendingMutes == old(pendingMutes) + [ev.participant.value.sessionId]
    {
      if ev.participant.Some? && !ev.participant.value.local && ev.track.kind == "audio" {
        if hasSimliClient {
          sdkCalls := sdkCalls + [ListenToTrack(ev.track.id)];
        }
        pendingMutes := pendingMutes + [ev.participant.value.sessionId];
      }
    }

    /** The oldest pending mute timer fires. `element` is what the lookup of
        the audio element for participant `pendingMutes[0]` found; it is
        muted and silenced only when it exists. */
    method MuteTimerFires(element: AudioElement?)
      requires Valid() && pendingMutes != []
      modifies this, element
      ensures Valid() && pendingMutes == old(pendingMutes)[1..]
      ensures isInitialized == old(isInitialized) && isCallActive == old(isCallActive)
      ensures error == old(error) && status == old(status)
      ensures hasSimliClient == old(hasSimliClient) && sdkCalls == old(sdkCalls)
      ensures element != null ==> element.muted && element.volume == 0.0
    {
      pendingMutes := pendingMutes[1..];
      if element != null {
        element.muted := true;
        element.volume := 0.0;
      }
    }

    /** `endCall`: stop the dialogue session, then close the avatar client,
        then mark the call inactive. When `stop` rejects, the rejection is
        not caught and neither later step happens. */
    method EndCall(stopRejects: bool)
      requires Valid()
      modifies this
      ensures Valid()
      ensures isInitialized == old(isInitialized) && error == old(error) && status == old(status)
      ensures hasSimliClient == old(hasSimliClient) && pendingMutes == old(pendingMutes)
      ensures stopRejects ==> sdkCalls == old(sdkCalls) + [VapiStop] && isCallActive == old(isCallActive)
      ensures !stopRejects ==>
        sdkCalls == old(sdkCalls) + (if hasSimliClient then [VapiStop, SimliClose] else [VapiStop]) &&
        !isCallActive
    {
      sdkCalls := sdkCalls + [VapiStop];
      if stopRejects {
        return;
      }
      if hasSimliClient {
        sdkCalls := sdkCalls + [SimliClose];
      }
      isCallActive := false;
    }

    /** Unmount cleanup: close the avatar client if there is one. */
    method Cleanup()
      requires Valid()
      modifies this
      ensures Valid()
      ensures isInitialized == old(isInitialized) && isCallActive == old(isCallActive)
      ensures error == old(error) && status == old(status)
      ensures hasSimliClient == old(hasSimliClient) && pendingMutes == old(pendingMutes)
      ensures sdkCalls == old(sdkCalls) + (if hasSimliClient then [SimliClose] else [])
    {
      if hasSimliClient {
        sdkCalls := sdkCalls + [SimliClose];
      }
    }
  }

  /** In every reachable state the button is disabled exactly while the
      avatar is not initialised, and once it is, the label is the call
      action. */
  lemma ButtonInValidState(a: SimliVapiAvatar)
    requires a.Valid()
    ensures a.Disabled() <==> !a.isInitialized
    ensures a.isInitialized ==> a.Label() == (if a.isCallActive then "End Call" else "Start Call")
  {
  }
}
