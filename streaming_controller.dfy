/** The webcam-with-streaming component (src/components/WebcamWithStreaming.tsx)
    as a state machine: its refs and state variables are fields, each handler
    is a method, and React's batching is read as "the handler's writes are
    visible when it returns". The component's own flags (`isActive`,
    `isStreaming`) are kept apart from the manager's `streaming`: nothing
    copies one into the other. */
module StreamingController {
  import opened Common
  import opened CameraAccess
  import opened WebcamStreaming

  const MustBeActiveMessage := "Camera must be active to start streaming"
  const NotSupportedOnMountMessage := "Your browser doesn't support camera access"
  const UnknownFailureMessage := "Failed to access camera for unknown reasons"

  /** The component's refs and state variables at one moment. Each handler
      is specified by the function giving its new state from the old one;
      the manager's part is given by the functions of `WebcamStreaming`. */
  datatype ComponentState = ComponentState(
    srcObject: MediaStream?, streamRef: MediaStream?, manager: WebcamStreamManager?,
    isAccessGranted: bool, isActive: bool, isStreaming: bool, error: Option<string>,
    streamConfig: StreamConfig, prediction: Option<Prediction>, forwarded: seq<Prediction>,
    mountTimerPending: bool, nextCallback: CallbackId)

  /** The end of `startCamera()` once the request returned `r` and no stream
      is held: the error, a missing stream, or the stream shown in the video
      element when there is one. */
  function Settled(s: ComponentState, r: AccessResult<MediaStream>, hasVideo: bool): ComponentState {
    if r.error.Some? then s.(error := r.error, isAccessGranted := false, isActive := false)
    else if r.stream.None? then s.(error := Some(UnknownFailureMessage), isAccessGranted := false, isActive := false)
    else if hasVideo then s.(streamRef := r.stream.value, isActive := true, isAccessGranted := true, srcObject := r.stream.value)
    else s.(streamRef := r.stream.value)
  }

  /** `startCamera()` by a closure that saw `activeSeen` for `isActive`. */
  function CameraStarted(s: ComponentState, activeSeen: bool, r: AccessResult<MediaStream>, hasVideo: bool): ComponentState {
    if activeSeen && s.streamRef != null then s.(error := None)
    else Settled(s.(error := None, streamRef := null), r, hasVideo)
  }

  /** `startCamera()` touches only the camera fields and the error, never
      leaves an error showing beside an active camera, and ends in one of
      four ways: nothing but the error cleared (already active with a
      stream), refused, granted with a video element, or granted without
      one. */
  lemma CameraStartedCases(s: ComponentState, activeSeen: bool, r: AccessResult<MediaStream>, hasVideo: bool)
    requires r.stream.Some? != r.error.Some?
    ensures var n := CameraStarted(s, activeSeen, r, hasVideo);
      && n.manager == s.manager && n.isStreaming == s.isStreaming && n.streamConfig == s.streamConfig
      && n.prediction == s.prediction && n.forwarded == s.forwarded
      && n.mountTimerPending == s.mountTimerPending && n.nextCallback == s.nextCallback
      && (n.error == None || !n.isActive)
      && (activeSeen && s.streamRef != null ==> n == s.(error := None))
      && (!(activeSeen && s.streamRef != null) && r.error.Some? ==>
            n == s.(error := r.error, streamRef := null, isAccessGranted := false, isActive := false))
      && (!(activeSeen && s.streamRef != null) && r.stream.Some? && hasVideo ==>
            n == s.(error := None, streamRef := r.stream.value, srcObject := r.stream.value,
                    isAccessGranted := true, isActive := true))
      && (!(activeSeen && s.streamRef != null) && r.stream.Some? && !hasVideo ==>
            n == s.(error := None, streamRef := r.stream.value))
  {
    if !(activeSeen && s.streamRef != null) {
      var t := s.(error := None, streamRef := null);
      assert CameraStarted(s, activeSeen, r, hasVideo) == Settled(t, r, hasVideo);
    }
  }

  /** `stopStreaming()`, the component's side. */
  function StreamingStopped(s: ComponentState): ComponentState {
    if s.manager != null then s.(isStreaming := false, prediction := None) else s
  }

  /** The first half of `stopCamera()`: a held stream is forgotten, taken
      out of the video element and the camera marked inactive. */
  function CameraReleased(s: ComponentState, hasVideo: bool): ComponentState {
    if s.streamRef != null then
      s.(streamRef := null, srcObject := if hasVideo then null else s.srcObject, isActive := false)
    else s
  }

  /** `stopCamera()`, the component's side. */
  function CameraStopped(s: ComponentState, hasVideo: bool): ComponentState {
    StreamingStopped(CameraReleased(s, hasVideo))
  }

  /** `startStreaming()`, the component's side; `m` is the manager it ends
      with. */
  function StreamingStarted(s: ComponentState, hasVideo: bool, m: WebcamStreamManager?): ComponentState {
    if !s.isActive || !hasVideo then s.(error := Some(MustBeActiveMessage))
    else s.(manager := m, nextCallback := s.nextCallback + 1, isStreaming := true)
  }

  /** Stopping is final: a second `stopCamera()` or `stopStreaming()`
      changes nothing, and `stopStreaming()` before `stopCamera()` (as the
      unmount cleanup does) ends where `stopCamera()` alone does. */
  lemma StopIsIdempotent(s: ComponentState, hasVideo: bool)
    ensures var c := CameraStopped(s, hasVideo);
      && c.streamRef == null && (s.manager != null ==> !c.isStreaming && c.prediction == None)
      && CameraStopped(c, hasVideo) == c
      && StreamingStopped(c) == c
      && CameraStopped(StreamingStopped(s), hasVideo) == c
  {
    var r := CameraReleased(s, hasVideo);
    var c := StreamingStopped(r);
    assert r.streamRef == null && r.manager == s.manager;
    assert CameraReleased(c, hasVideo) == c;
    assert StreamingStopped(c) == c;
    StopStreamingFirst(s, hasVideo);
  }

  /** `stopStreaming()` before `stopCamera()` ends where `stopCamera()`
      alone does. */
  lemma StopStreamingFirst(s: ComponentState, hasVideo: bool)
    ensures CameraStopped(StreamingStopped(s), hasVideo) == CameraStopped(s, hasVideo)
  {
    var t := StreamingStopped(s);
    assert t.streamRef == s.streamRef && t.manager == s.manager;
    assert CameraReleased(t, hasVideo) == StreamingStopped(CameraReleased(s, hasVideo));
  }

  class Controller {
    /** The `<video>` element, present once the component has rendered. */
    const video: Option<VideoId>
    /** What the browser offers for camera access. */
    const env: Environment
    /** Whether a canvas created by a stream manager yields a 2D context. */
    const hasContext: bool
    /** Whether the `onPrediction` prop was given. */
    const hasOnPrediction: bool

    var srcObject: MediaStream?
    var streamRef: MediaStream?
    var manager: WebcamStreamManager?
    var isAccessGranted: bool
    var isActive: bool
    var isStreaming: bool
    var error: Option<string>
    var streamConfig: StreamConfig
    var prediction: Option<Prediction>
    /** Every prediction passed on to the `onPrediction` prop. */
    var forwarded: seq<Prediction>
    /** The 500 ms start-up timer of the mount effect. */
    var mountTimerPending: bool
    /** A fresh handle for each `handlePredictionData` closure. */
    var nextCallback: CallbackId

    /** The manager is well formed, and while the component says it is
        streaming the manager exists and carries the component's config. */
    ghost predicate Valid()
      reads this, manager
    {
      && (manager != null ==> manager.Valid())
      && (isStreaming ==> manager != null && manager.config == streamConfig)
    }

    constructor (video: Option<VideoId>, env: Environment, hasContext: bool, hasOnPrediction: bool)
      ensures Valid()
      ensures this.video == video && this.env == env
      ensures this.hasContext == hasContext && this.hasOnPrediction == hasOnPrediction
      ensures srcObject == null && streamRef == null && manager == null
      ensures !isAccessGranted && !isActive && !isStreaming && error == None
      ensures streamConfig == DefaultStreamConfig && prediction == None && forwarded == []
      ensures !mountTimerPending
    {
      this.video, this.env, this.hasContext, this.hasOnPrediction := video, env, hasContext, hasOnPrediction;
      srcObject, streamRef, manager := null, null, null;
      isAccessGranted, isActive, isStreaming, error := false, false, false, None;
      streamConfig, prediction, forwarded := DefaultStreamConfig, None, [];
      mountTimerPending, nextCallback := false, 0;
    }

    /** The fields as a value. */
    function State(): ComponentState
      reads this
    {
      ComponentState(srcObject, streamRef, manager, isAccessGranted, isActive, isStreaming, error,
                     streamConfig, prediction, forwarded, mountTimerPending, nextCallback)
    }

    /** Stop every track of the held stream and forget it. */
    method ReleaseStream()
      requires Valid()
      modifies this, TracksOf(streamRef)
      ensures Valid()
      ensures streamRef == null
      ensures State() == old(State()).(streamRef := null)
      ensures forall t :: t in TracksOf(old(streamRef)) ==> t.ended
      ensures srcObject == old(srcObject) && manager == old(manager)
      ensures isAccessGranted == old(isAccessGranted) && isActive == old(isActive)
      ensures isStreaming == old(isStreaming) && error == old(error) && streamConfig == old(streamConfig)
      ensures prediction == old(prediction) && forwarded == old(forwarded)
      ensures mountTimerPending == old(mountTimerPending) && nextCallback == old(nextCallback)
    {
      StopMediaStream(streamRef);
      streamRef := null;
    }

    /** `startCamera()` as a closure that saw `activeSeen` for `isActive`
        (a closure made at the first render sees false). `outcome` is how
        the platform settles the camera request. */
    method StartCameraSeeing(activeSeen: bool, outcome: MediaOutcome<MediaStream>)
      requires Valid()
      modifies this, TracksOf(streamRef)
      ensures Valid()
      ensures State() == CameraStarted(old(State()), activeSeen, RequestCameraAccess(env, outcome), video.Some?)
      ensures error == None || !isActive
      ensures activeSeen && old(streamRef) != null ==>
        && error == None && streamRef == old(streamRef) && srcObject == old(srcObject)
        && isActive == old(isActive) && isAccessGranted == old(isAccessGranted)
      ensures !(activeSeen && old(streamRef) != null) ==> forall t :: t in TracksOf(old(streamRef)) ==> t.ended
      ensures !(activeSeen && old(streamRef) != null) && RequestCameraAccess(env, outcome).error.Some? ==>
                error == RequestCameraAccess(env, outcome).error && streamRef == null
                && !isAccessGranted && !isActive && srcObject == old(srcObject)
      ensures !(activeSeen && old(streamRef) != null) && RequestCameraAccess(env, outcome).stream.Some? ==>
                error == None && streamRef == RequestCameraAccess(env, outcome).stream.value
      ensures !(activeSeen && old(streamRef) != null) && RequestCameraAccess(env, outcome).stream.Some? && video.Some? ==>
                isActive && isAccessGranted && srcObject == streamRef
      ensures !(activeSeen && old(streamRef) != null) && RequestCameraAccess(env, outcome).stream.Some? && video.None? ==>
                isActive == old(isActive) && isAccessGranted == old(isAccessGranted) && srcObject == old(srcObject)
      ensures manager == old(manager) && isStreaming == old(isStreaming) && streamConfig == old(streamConfig)
      ensures prediction == old(prediction) && forwarded == old(forwarded)
      ensures mountTimerPending == old(mountTimerPending) && nextCallback == old(nextCallback)
    {
      error := None;
      if activeSeen && streamRef != null {
        return;
      }
      if streamRef != null {
        ReleaseStream();
      }
      AcquireStream(outcome);
    }

    /** The rest of `startCamera()` once no stream is held: ask for the
        camera, then show the stream or the error. */
    method AcquireStream(outcome: MediaOutcome<MediaStream>)
      requires Valid() && streamRef == null && error == None
      modifies this
      ensures Valid()
      ensures State() == Settled(old(State()), RequestCameraAccess(env, outcome), video.Some?)
      ensures error == None || !isActive
      ensures RequestCameraAccess(env, outcome).error.Some? ==>
                error == RequestCameraAccess(env, outcome).error && streamRef == null
                && !isAccessGranted && !isActive && srcObject == old(srcObject)
      ensures RequestCameraAccess(env, outcome).stream.Some? ==>
                error == None && streamRef == RequestCameraAccess(env, outcome).stream.value
      ensures RequestCameraAccess(env, outcome).stream.Some? && video.Some? ==>
                isActive && isAccessGranted && srcObject == streamRef
      ensures RequestCameraAccess(env, outcome).stream.Some? && video.None? ==>
                isActive == old(isActive) && isAccessGranted == old(isAccessGranted) && srcObject == old(srcObject)
      ensures manager == old(manager) && isStreaming == old(isStreaming) && streamConfig == old(streamConfig)
      ensures prediction == old(prediction) && forwarded == old(forwarded)
      ensures mountTimerPending == old(mountTimerPending) && nextCallback == old(nextCallback)
    {
      var r := RequestCameraAccess(env, outcome);
      // `requestCameraAccess` always sets a stream or an error, so the
      // source's "no stream and no error" branch is not reached.
      if r.error.Some? {
        error := r.error;
        isAccessGranted := false;
        isActive := false;
        return;
      }
      streamRef := r.stream.value;
      if video.Some? {
        isActive := true;
        isAccessGranted := true;
        srcObject := r.stream.value;
      }
    }

    /** `startCamera()` from the current render. A second start while the
        camera is on with a stream only clears the error. */
    method StartCamera(outcome: MediaOutcome<MediaStream>)
      requires Valid()
      modifies this, TracksOf(streamRef)
      ensures Valid()
      ensures State() == CameraStarted(old(State()), old(isActive), RequestCameraAccess(env, outcome), video.Some?)
      ensures old(isActive) && old(streamRef) != null ==> error == None && streamRef == old(streamRef) && isActive
      ensures !(old(isActive) && old(streamRef) != null) ==>
        && (forall t :: t in TracksOf(old(streamRef)) ==> t.ended)
        && (RequestCameraAccess(env, outcome).error.Some? ==> !isActive && streamRef == null)
        && (RequestCameraAccess(env, outcome).stream.Some? && video.Some? ==>
              isActive && isAccessGranted && error == None && srcObject == streamRef && streamRef != null)
      ensures manager == old(manager) && isStreaming == old(isStreaming) && streamConfig == old(streamConfig)
      ensures prediction == old(prediction) && forwarded == old(forwarded)
      ensures mountTimerPending == old(mountTimerPending) && nextCallback == old(nextCallback)
    {
      StartCameraSeeing(isActive, outcome);
    }

    /** `stopStreaming()`: with a manager, disconnect it and drop the
        prediction; the manager object is kept for reuse. */
    method StopStreaming()
      requires Valid()
      modifies this, manager
      ensures Valid()
      ensures State() == StreamingStopped(old(State()))
      ensures manager != null ==> manager.State() == AfterDisconnect(old(manager.State()))
      ensures manager == old(manager)
      ensures manager != null ==>
        && !isStreaming && prediction == None
        && !manager.streaming && manager.socket == None && manager.frameInterval == None
        && manager.videoElement == None && manager.onPredictionCallback == None
        && manager.config == old(manager.config) && manager.sent == old(manager.sent)
      ensures manager == null ==> isStreaming == old(isStreaming) && prediction == old(prediction)
      ensures streamRef == old(streamRef) && srcObject == old(srcObject) && isActive == old(isActive)
      ensures isAccessGranted == old(isAccessGranted) && error == old(error) && streamConfig == old(streamConfig)
      ensures forwarded == old(forwarded) && mountTimerPending == old(mountTimerPending)
      ensures nextCallback == old(nextCallback)
    {
      if manager != null {
        manager.Disconnect();
        isStreaming := false;
        prediction := None;
      }
    }

    /** `stopCamera()`: stop and forget the stream when there is one, then
        stop streaming in every case. */
    method StopCamera()
      requires Valid()
      modifies this, TracksOf(streamRef), manager
      ensures Valid()
      ensures State() == CameraStopped(old(State()), video.Some?)
      ensures manager != null ==> manager.State() == AfterDisconnect(old(manager.State()))
      ensures streamRef == null
      ensures forall t :: t in TracksOf(old(streamRef)) ==> t.ended
      ensures old(streamRef) != null ==> !isActive && (video.Some? ==> srcObject == null)
      ensures old(streamRef) == null ==> isActive == old(isActive) && srcObject == old(srcObject)
      ensures manager == old(manager)
      ensures manager != null ==> !isStreaming && prediction == None && !manager.streaming && manager.socket == None
                                  && manager.frameInterval == None
      ensures manager == null ==> isStreaming == old(isStreaming) && prediction == old(prediction)
      ensures isAccessGranted == old(isAccessGranted) && error == old(error) && streamConfig == old(streamConfig)
      ensures forwarded == old(forwarded) && mountTimerPending == old(mountTimerPending)
      ensures nextCallback == old(nextCallback)
    {
      ReleaseCamera();
      StopStreaming();
    }

    /** The `if (streamRef.current)` block of `stopCamera()`. */
    method ReleaseCamera()
      requires Valid()
      modifies this, TracksOf(streamRef)
      ensures Valid()
      ensures State() == CameraReleased(old(State()), video.Some?)
      ensures forall t :: t in TracksOf(old(streamRef)) ==> t.ended
    {
      if streamRef != null {
        ReleaseStream();
        if video.Some? {
          srcObject := null;
        }
        isActive := false;
      }
    }

    /** `toggleCamera()`. */
    method ToggleCamera(outcome: MediaOutcome<MediaStream>)
      requires Valid()
      modifies this, TracksOf(streamRef), manager
      ensures Valid()
      ensures old(isActive) ==> State() == CameraStopped(old(State()), video.Some?)
      ensures old(isActive) && manager != null ==> manager.State() == AfterDisconnect(old(manager.State()))
      ensures !old(isActive) ==>
                State() == CameraStarted(old(State()), false, RequestCameraAccess(env, outcome), video.Some?)
      ensures !old(isActive) && manager != null ==> manager.State() == old(manager.State())
      ensures forall t :: t in TracksOf(old(streamRef)) ==> t.ended
      ensures old(isActive) && old(streamRef) != null ==> !isActive && streamRef == null
      ensures old(isActive) && old(streamRef) == null ==> isActive && streamRef == null
      ensures !old(isActive) && RequestCameraAccess(env, outcome).stream.Some? && video.Some? ==>
                isActive && streamRef != null && error == None
      ensures !old(isActive) && RequestCameraAccess(env, outcome).error.Some? ==>
                !isActive && streamRef == null && error == RequestCameraAccess(env, outcome).error
      ensures manager == old(manager)
    {
      if isActive {
        StopCamera();
      } else {
        StartCameraSeeing(isActive, outcome);
      }
    }

    /** `startStreaming()`. `restartSocketCreated` is whether the socket of
        an `updateConfig` restart could be created, `socketCreated` whether
        the socket of the final `connect` could. The component's
        `isStreaming` becomes true whether or not any socket exists. */
    method StartStreaming(restartSocketCreated: bool, socketCreated: bool)
      requires Valid()
      modifies this, manager
      ensures Valid()
      ensures State() == StreamingStarted(old(State()), video.Some?, manager)
      ensures old(isActive) && video.Some? && old(manager) == null ==>
        && fresh(manager) && manager.hasContext == hasContext
        && manager.State() == AfterConnect(Initial(old(streamConfig)), video, Some(old(nextCallback)), socketCreated)
      ensures old(isActive) && video.Some? && old(manager) != null ==>
        manager.State() == AfterConnect(AfterUpdate(old(manager.State()), Full(old(streamConfig)), restartSocketCreated),
                                        video, Some(old(nextCallback)), socketCreated)
      ensures !old(isActive) || video.None? ==>
        && error == Some(MustBeActiveMessage) && manager == old(manager)
        && isStreaming == old(isStreaming) && prediction == old(prediction)
        && (manager != null ==> unchanged(manager))
      ensures old(isActive) && video.Some? ==>
        && isStreaming && manager != null && manager.config == streamConfig
        && (!manager.streaming ==> manager.videoElement == video && manager.onPredictionCallback == Some(old(nextCallback)))
        && (old(manager) == null ==>
              && fresh(manager) && !manager.streaming
              && manager.sockets == (if socketCreated then [WsUrl(streamConfig.serverUrl)] else [])
              && manager.socket == (if socketCreated then Some(0) else None))
        && (old(manager) != null ==> manager == old(manager))
        && error == old(error) && prediction == old(prediction)
      ensures streamRef == old(streamRef) && srcObject == old(srcObject) && isActive == old(isActive)
      ensures isAccessGranted == old(isAccessGranted) && streamConfig == old(streamConfig)
      ensures forwarded == old(forwarded) && mountTimerPending == old(mountTimerPending)
    {
      if !isActive || video.None? {
        error := Some(MustBeActiveMessage);
        return;
      }
      PrepareManager(restartSocketCreated);
      var callback := nextCallback;
      nextCallback := nextCallback + 1;
      manager.Connect(video, Some(callback), socketCreated);
      isStreaming := true;
    }

    /** The manager `startStreaming()` connects: a new one built from the
        component's config, or the held one given that whole config through
        `updateConfig`. */
    method PrepareManager(restartSocketCreated: bool)
      requires Valid()
      modifies this, manager
      ensures Valid()
      ensures manager != null && manager.config == streamConfig
      ensures State() == old(State()).(manager := manager)
      ensures old(manager) == null ==>
                fresh(manager) && manager.hasContext == hasContext && manager.State() == Initial(streamConfig)
      ensures old(manager) != null ==>
                manager == old(manager)
                && manager.State() == AfterUpdate(old(manager.State()), Full(streamConfig), restartSocketCreated)
    {
      if manager == null {
        manager := new WebcamStreamManager(Full(streamConfig), hasContext);
        MergeLaws(DefaultStreamConfig, Full(streamConfig), NoChange);
        assert Merge(DefaultStreamConfig, Full(streamConfig)) == streamConfig;
      } else {
        MergeLaws(streamConfig, Full(streamConfig), NoChange);
        var _ := manager.UpdateConfig(Full(streamConfig), restartSocketCreated);
      }
    }

    /** `toggleStreaming()`. */
    method ToggleStreaming(restartSocketCreated: bool, socketCreated: bool)
      requires Valid()
      modifies this, manager
      ensures Valid()
      ensures old(isStreaming) ==>
        && State() == StreamingStopped(old(State()))
        && manager.State() == AfterDisconnect(old(manager.State()))
      ensures !old(isStreaming) ==> State() == StreamingStarted(old(State()), video.Some?, manager)
      ensures !old(isStreaming) && !(old(isActive) && video.Some?) && manager != null ==> unchanged(manager)
      ensures !old(isStreaming) && old(isActive) && video.Some? && old(manager) == null ==>
        && fresh(manager) && manager.hasContext == hasContext
        && manager.State() == AfterConnect(Initial(old(streamConfig)), video, Some(old(nextCallback)), socketCreated)
      ensures !old(isStreaming) && old(isActive) && video.Some? && old(manager) != null ==>
        manager.State() == AfterConnect(AfterUpdate(old(manager.State()), Full(old(streamConfig)), restartSocketCreated),
                                        video, Some(old(nextCallback)), socketCreated)
      ensures old(isStreaming) ==> !isStreaming && prediction == None
      ensures !old(isStreaming) && old(isActive) && video.Some? ==> isStreaming
      ensures !old(isStreaming) && !(old(isActive) && video.Some?) ==>
                !isStreaming && error == Some(MustBeActiveMessage)
    {
      if isStreaming {
        StopStreaming();
      } else {
        StartStreaming(restartSocketCreated, socketCreated);
      }
    }

    /** `updateStreamConfig(partial)`: the component's config always takes
        the keys; the manager does only while the component says it is
        streaming. */
    method UpdateStreamConfig(p: PartialConfig, restartSocketCreated: bool)
      requires Valid()
      modifies this, manager
      ensures Valid()
      ensures State() == old(State()).(streamConfig := Merge(old(streamConfig), p))
      ensures isStreaming ==> manager.State() == AfterUpdate(old(manager.State()), p, restartSocketCreated)
      ensures streamConfig == Merge(old(streamConfig), p)
      ensures manager == old(manager)
      ensures isStreaming ==> manager.config == streamConfig
      ensures !isStreaming && manager != null ==> unchanged(manager)
      ensures isStreaming == old(isStreaming) && prediction == old(prediction) && error == old(error)
      ensures streamRef == old(streamRef) && srcObject == old(srcObject) && isActive == old(isActive)
      ensures isAccessGranted == old(isAccessGranted) && forwarded == old(forwarded)
      ensures mountTimerPending == old(mountTimerPending) && nextCallback == old(nextCallback)
    {
      streamConfig := Merge(streamConfig, p);
      if manager != null && isStreaming {
        var _ := manager.UpdateConfig(p, restartSocketCreated);
      }
    }

    /** The mount effect: report an unsupported browser (in words of its
        own, not those of `requestCameraAccess`), or arm the start-up timer. */
    method Mount()
      modifies this
      ensures State() == if IsCameraSupported(env) then old(State()).(mountTimerPending := true)
                         else old(State()).(error := Some(NotSupportedOnMountMessage), mountTimerPending := false)
      ensures !IsCameraSupported(env) ==> error == Some(NotSupportedOnMountMessage) && !mountTimerPending
      ensures IsCameraSupported(env) ==> mountTimerPending && error == old(error)
      ensures streamRef == old(streamRef) && srcObject == old(srcObject) && isActive == old(isActive)
      ensures isAccessGranted == old(isAccessGranted) && isStreaming == old(isStreaming)
      ensures manager == old(manager) && streamConfig == old(streamConfig) && prediction == old(prediction)
      ensures forwarded == old(forwarded) && nextCallback == old(nextCallback)
    {
      if !IsCameraSupported(env) {
        error := Some(NotSupportedOnMountMessage);
        mountTimerPending := false;
        return;
      }
      mountTimerPending := true;
    }

    /** The start-up timer fires: the first render's `startCamera`, which
        sees the camera as inactive and so always requests it. */
    method MountTimerFires(outcome: MediaOutcome<MediaStream>)
      requires Valid()
      modifies this, TracksOf(streamRef)
      ensures Valid()
      ensures old(mountTimerPending) ==>
                State() == CameraStarted(old(State()).(mountTimerPending := false), false,
                                         RequestCameraAccess(env, outcome), video.Some?)
      ensures !old(mountTimerPending) ==> State() == old(State())
      ensures !mountTimerPending
      ensures !old(mountTimerPending) ==> streamRef == old(streamRef) && isActive == old(isActive) && error == old(error)
      ensures old(mountTimerPending) ==> forall t :: t in TracksOf(old(streamRef)) ==> t.ended
      ensures old(mountTimerPending) && RequestCameraAccess(env, outcome).stream.Some? && video.Some? ==>
                isActive && streamRef == RequestCameraAccess(env, outcome).stream.value
      ensures manager == old(manager) && isStreaming == old(isStreaming)
    {
      if mountTimerPending {
        mountTimerPending := false;
        StartCameraSeeing(false, outcome);
      }
    }

    /** The unmount cleanup: the start-up timer is cleared, streaming
        stops and the camera is released. */
    method Unmount()
      requires Valid()
      modifies this, TracksOf(streamRef), manager
      ensures Valid()
      ensures State() == CameraStopped(old(State()).(mountTimerPending := false), video.Some?)
      ensures manager != null ==> manager.State() == AfterDisconnect(old(manager.State()))
      ensures !mountTimerPending && streamRef == null
      ensures forall t :: t in TracksOf(old(streamRef)) ==> t.ended
      ensures manager == old(manager)
      ensures manager != null ==> !isStreaming && !manager.streaming && manager.socket == None
                                  && manager.frameInterval == None
    {
      ghost var before := State().(mountTimerPending := false);
      ghost var managerBefore := if manager != null then manager.State() else Initial(streamConfig);
      mountTimerPending := false;
      StopStreaming();
      StopCamera();
      StopStreamingFirst(before, video.Some?);
      DisconnectIdempotent(managerBefore);
    }

    // -------------------------------------------------------------------
    // Events delivered by the manager's socket and timer

    method OnSocketOpen()
      requires Valid()
      modifies manager
      ensures Valid()
      ensures State() == old(State())
      ensures manager != null ==> manager.State() == AfterOpen(old(manager.State()), manager.hasContext)
      ensures manager != null ==> manager.streaming
    {
      if manager != null {
        manager.HandleSocketOpen();
      }
    }

    /** A message on the socket: a prediction reaching the registered
        `handlePredictionData` becomes the shown prediction and is passed
        on to the prop when there is one. */
    method OnSocketMessage(m: Inbound)
      requires Valid()
      modifies this, manager
      ensures Valid()
      ensures State() == old(State()).(prediction := prediction, forwarded := forwarded)
      ensures manager != null ==> manager.State() == AfterMessage(old(manager.State()), m)
      ensures manager == old(manager)
      ensures var reached := manager != null && m.PredictionMessage? && old(manager.onPredictionCallback).Some?;
        && (reached ==> prediction == Some(m.prediction)
                        && forwarded == old(forwarded) + (if hasOnPrediction then [m.prediction] else []))
        && (!reached ==> prediction == old(prediction) && forwarded == old(forwarded))
      ensures isStreaming == old(isStreaming) && streamConfig == old(streamConfig) && error == old(error)
      ensures streamRef == old(streamRef) && isActive == old(isActive)
    {
      if manager != null {
        var invoked := manager.HandleSocketMessage(m);
        if invoked.Some? {
          prediction := Some(invoked.value.1);
          if hasOnPrediction {
            forwarded := forwarded + [invoked.value.1];
          }
        }
      }
    }

    /** The socket errs or closes: the manager stops, but the component's
        `isStreaming` is left as it was. */
    method OnSocketClosed(isError: bool)
      requires Valid()
      modifies manager
      ensures Valid()
      ensures State() == old(State())
      ensures manager != null ==> manager.State() == AfterSocketStopped(old(manager.State()))
      ensures manager != null ==> !manager.streaming && manager.frameInterval == None
    {
      if manager != null {
        if isError {
          manager.HandleSocketError();
        } else {
          manager.HandleSocketClose();
        }
      }
    }

    /** A tick of any interval timer the manager started. */
    method OnFrameTick(dataUrl: string, now: int, fails: bool)
      requires Valid()
      modifies manager
      ensures Valid()
      ensures State() == old(State())
      ensures manager != null ==>
                manager.State() == AfterCapture(old(manager.State()), manager.hasContext, dataUrl, now, fails)
      ensures manager != null ==>
        var ready := manager.streaming && manager.videoElement.Some? && manager.hasContext && manager.socket.Some?;
        manager.sent == old(manager.sent) + (if ready && !fails then [(manager.socket.value, FramePayload(dataUrl, now))] else [])
    {
      if manager != null {
        manager.CaptureAndSendFrame(dataUrl, now, fails);
      }
    }
  }

  /** The component's `isStreaming` does not follow the socket: after the
      socket closes the component still reports streaming while the manager
      has stopped. */
  method StreamingFlagOutlivesSocket(v: VideoId, s: MediaStream)
    returns (componentStreaming: bool, managerStreaming: bool)
    ensures componentStreaming && !managerStreaming
  {
    var c := new Controller(Some(v), Environment(Some(MediaDevices(true))), true, false);
    c.StartCamera(Resolved(s));
    c.StartStreaming(true, true);
    c.OnSocketOpen();
    c.OnSocketClosed(false);
    componentStreaming := c.isStreaming;
    managerStreaming := c.manager.streaming;
  }
}
