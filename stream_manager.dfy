/** The frame-streaming manager (src/lib/webcamStreaming.ts).

    A `WebcamStreamManager` owns one socket at a time, an interval timer that
    captures and sends frames, the stream configuration and the prediction
    callback. Browser facilities are abstract here:
    - a socket is a number (its position in `sockets`, which records the URL
      of every socket the manager created); `closedSockets` records which ones
      `close()` was called on;
    - an interval timer is a number (its position in `timers`, which records
      the period each was started with); `clearedTimers` records which ones
      `clearInterval` was called on;
    - the socket's four events and each timer tick are method calls that the
      environment may make at any time. The source's handlers never ask which
      socket fired, so neither do these methods: a late `close` from a socket
      already replaced is covered;
    - a frame handed to `send` is appended to `sent`, a callback invocation to
      `delivered`. */
module WebcamStreaming {
  import opened Common
  import JsText

  /** `WebcamStreamConfig`. Frame rate and quality are JavaScript numbers. */
  datatype StreamConfig = StreamConfig(serverUrl: string, frameRate: real, quality: real, width: int, height: int)

  /** `Partial<WebcamStreamConfig>`: None is a key that is absent. A key
      present with the value `undefined` would overwrite the field in a
      spread, but no caller passes one, so None stands for both. */
  datatype PartialConfig = PartialConfig(
    serverUrl: Option<string>, frameRate: Option<real>, quality: Option<real>,
    width: Option<int>, height: Option<int>)

  const DefaultStreamConfig := StreamConfig("http://localhost:5000", 10.0, 0.7, 320, 240)

  const NoChange := PartialConfig(None, None, None, None, None)

  /** The partial with every key of `c` present (a full config passed where a
      partial is expected). */
  function Full(c: StreamConfig): PartialConfig {
    PartialConfig(Some(c.serverUrl), Some(c.frameRate), Some(c.quality), Some(c.width), Some(c.height))
  }

  function Pick<T>(o: Option<T>, d: T): T {
    match o
    case Some(v) => v
    case None => d
  }

  /** `{ ...c, ...p }`: every key present in `p` wins. */
  function Merge(c: StreamConfig, p: PartialConfig): StreamConfig {
    StreamConfig(Pick(p.serverUrl, c.serverUrl), Pick(p.frameRate, c.frameRate), Pick(p.quality, c.quality),
                 Pick(p.width, c.width), Pick(p.height, c.height))
  }

  /** Two partials applied one after the other: the later key wins. */
  function Then(p: PartialConfig, q: PartialConfig): PartialConfig {
    PartialConfig(
      if q.serverUrl.Some? then q.serverUrl else p.serverUrl,
      if q.frameRate.Some? then q.frameRate else p.frameRate,
      if q.quality.Some? then q.quality else p.quality,
      if q.width.Some? then q.width else p.width,
      if q.height.Some? then q.height else p.height)
  }

  lemma MergeLaws(c: StreamConfig, p: PartialConfig, q: PartialConfig)
    ensures Merge(c, NoChange) == c
    ensures Merge(c, Full(c)) == c
    ensures Merge(Merge(c, p), p) == Merge(c, p)
    ensures Merge(Merge(c, p), q) == Merge(c, Then(p, q))
    ensures Merge(c, Full(DefaultStreamConfig)) == DefaultStreamConfig
  {
  }

  /** The restart test of `updateConfig`: streaming, and a `frameRate` or
      `serverUrl` key present, whatever its value. */
  function NeedsRestart(streaming: bool, p: PartialConfig): (r: bool)
    ensures r ==> streaming
    ensures streaming && p.frameRate == None && p.serverUrl == None ==> !r
  {
    streaming && (p.frameRate.Some? || p.serverUrl.Some?)
  }

  /** The key, not a change of value, decides: re-sending the current frame
      rate restarts a streaming manager although the merged config is
      unchanged. */
  lemma RestartOnUnchangedValue(c: StreamConfig)
    ensures Merge(c, PartialConfig(None, Some(c.frameRate), None, None, None)) == c
    ensures NeedsRestart(true, PartialConfig(None, Some(c.frameRate), None, None, None))
    ensures NeedsRestart(true, Full(c))
  {
  }

  /** `serverUrl.replace(/^http/, 'ws') + '/stream'`. */
  function WsUrl(serverUrl: string): string {
    (if "http" <= serverUrl then "ws" + serverUrl[4..] else serverUrl) + "/stream"
  }

  /** The URL always ends in "/stream"; a leading "http" (so also "https")
      becomes "ws" and the rest is kept; any other URL is kept whole. */
  lemma WsUrlShape(serverUrl: string)
    ensures var r := WsUrl(serverUrl);
            && |r| >= 7 && r[|r| - 7..] == "/stream"
            && ("http" <= serverUrl ==> |r| == |serverUrl| + 5 && r[..2] == "ws" && r[2..|r| - 7] == serverUrl[4..])
            && (!("http" <= serverUrl) ==> r[..|r| - 7] == serverUrl)
  {
  }

  /** An http(s) URL keeps everything after the scheme's "http". */
  lemma WsUrlOfHttp(rest: string)
    ensures WsUrl("http" + rest) == "ws" + rest + "/stream"
  {
    assert ("http" + rest)[..4] == "http";
    assert ("http" + rest)[4..] == rest;
  }

  lemma WsUrlSecure()
    ensures WsUrl("https://h") == "wss://h/stream"
  {
    var rest := "s://h";
    assert "ws" + rest + "/stream" == "wss://h/stream";
    assert "https://h" == "http" + rest;
    WsUrlOfHttp(rest);
  }

  lemma WsUrlDefault()
    ensures WsUrl("http://localhost:5000") == "ws://localhost:5000/stream"
  {
    var rest := "://localhost:5000";
    assert "ws" + rest + "/stream" == "ws://localhost:5000/stream";
    assert "http://localhost:5000" == "http" + rest;
    WsUrlOfHttp(rest);
  }

  /** The timer period `1000 / frameRate`; a frame rate of 0 gives
      JavaScript's Infinity, which `setInterval` treats as 0 (see
      `TimerDelay`). */
  datatype Delay = Millis(ms: real) | Infinite

  function IntervalMs(frameRate: real): (d: Delay)
    ensures frameRate != 0.0 ==> d.Millis? && d.ms * frameRate == 1000.0
    ensures frameRate == 0.0 ==> d == Infinite
  {
    if frameRate == 0.0 then Infinite else Millis(1000.0 / frameRate)
  }

  /** The delay `setInterval` runs the timer at: the period converted to a
      whole number of milliseconds, with Infinity and negative periods
      becoming 0, so a frame rate of 0 fires as often as the browser
      allows rather than never. */
  function TimerDelay(d: Delay): (ms: nat)
    ensures d.Infinite? ==> ms == 0
    ensures d.Millis? && d.ms < 0.0 ==> ms == 0
    ensures d.Millis? && d.ms >= 0.0 ==> ms as real <= d.ms < ms as real + 1.0
  {
    match d
    case Infinite => 0
    case Millis(p) => if p < 0.0 then 0 else p.Floor
  }

  /** A frame rate of 0 gives a timer that fires with no delay, and any
      rate above 1000 frames a second does too. */
  lemma ZeroFrameRateFiresAtOnce(frameRate: real)
    requires frameRate == 0.0 || frameRate > 1000.0
    ensures TimerDelay(IntervalMs(frameRate)) == 0
  {
  }

  /** The prediction object the server sends, passed to the callback as is. */
  datatype Prediction = Prediction(letter: string, confidence: real) | Undefined

  /** An inbound socket message as `JSON.parse` and the `type` test see it. */
  datatype Inbound =
    | PredictionMessage(prediction: Prediction)
    | ErrorMessage(message: string)
    | OtherType(kind: string)
    | Unparseable

  /** The frame message handed to `send`. */
  datatype FrameMessage = FrameMessage(kind: string, image: string, timestamp: int)

  const JpegDataUrlPrefix := "data:image/jpeg;base64,"

  /** The payload of one frame: the canvas data URL with its JPEG prefix cut out. */
  function FramePayload(dataUrl: string, now: int): (m: FrameMessage)
    ensures m.kind == "frame" && m.timestamp == now
    ensures JpegDataUrlPrefix <= dataUrl ==> m.image == dataUrl[|JpegDataUrlPrefix|..]
  {
    FrameMessage("frame", JsText.RemoveFirst(dataUrl, JpegDataUrlPrefix), now)
  }

  /** Opaque handles for a video element and for a prediction callback. */
  type VideoId = nat
  type CallbackId = nat

  /** The manager's variable fields at one moment. Each handler below is
      specified by the function giving its new state from the old one. */
  datatype ManagerState = ManagerState(
    socket: Option<nat>, sockets: seq<string>, closedSockets: set<nat>,
    videoElement: Option<VideoId>, canvasWidth: int, canvasHeight: int,
    streaming: bool, frameInterval: Option<nat>, timers: seq<Delay>, clearedTimers: set<nat>,
    config: StreamConfig, onPredictionCallback: Option<CallbackId>,
    sent: seq<(nat, FrameMessage)>, delivered: seq<(CallbackId, Prediction)>)

  /** A fresh manager with config `c`: nothing connected, a 300 by 150 canvas. */
  function Initial(c: StreamConfig): ManagerState {
    ManagerState(None, [], {}, None, 300, 150, false, None, [], {}, c, None, [], [])
  }

  /** The handle a nullable field holds, as a set. */
  function Handles(h: Option<nat>): set<nat> {
    if h.Some? then {h.value} else {}
  }

  /** `connect(video, onPrediction)`; see `WebcamStreamManager.Connect`. */
  function AfterConnect(s: ManagerState, video: Option<VideoId>, onPrediction: Option<CallbackId>, socketCreated: bool): ManagerState {
    if s.streaming then s
    else
      s.(videoElement := video,
         onPredictionCallback := if onPrediction.Some? then onPrediction else s.onPredictionCallback,
         canvasWidth := s.config.width, canvasHeight := s.config.height,
         sockets := if socketCreated then s.sockets + [WsUrl(s.config.serverUrl)] else s.sockets,
         socket := if socketCreated then Some(|s.sockets|) else s.socket)
  }

  /** `startStreaming()`: a new timer when video, context and socket exist. */
  function AfterStartTimer(s: ManagerState, hasContext: bool): ManagerState {
    if s.videoElement.Some? && hasContext && s.socket.Some? then
      s.(timers := s.timers + [IntervalMs(s.config.frameRate)], frameInterval := Some(|s.timers|))
    else s
  }

  /** The socket's `open` event. */
  function AfterOpen(s: ManagerState, hasContext: bool): ManagerState {
    AfterStartTimer(s.(streaming := true), hasContext)
  }

  /** The current timer is cleared and forgotten. */
  function AfterStopTimer(s: ManagerState): ManagerState {
    s.(clearedTimers := s.clearedTimers + Handles(s.frameInterval), frameInterval := None)
  }

  /** The socket's `error` or `close` event. */
  function AfterSocketStopped(s: ManagerState): ManagerState {
    AfterStopTimer(s.(streaming := false))
  }

  /** One timer tick. */
  function AfterCapture(s: ManagerState, hasContext: bool, dataUrl: string, now: int, fails: bool): ManagerState {
    if s.streaming && s.videoElement.Some? && hasContext && s.socket.Some? && !fails then
      s.(sent := s.sent + [(s.socket.value, FramePayload(dataUrl, now))])
    else s
  }

  /** The socket's `message` event. */
  function AfterMessage(s: ManagerState, m: Inbound): ManagerState {
    if m.PredictionMessage? && s.onPredictionCallback.Some? then
      s.(delivered := s.delivered + [(s.onPredictionCallback.value, m.prediction)])
    else s
  }

  /** `disconnect()`. */
  function AfterDisconnect(s: ManagerState): ManagerState {
    AfterStopTimer(s).(streaming := false, socket := None, closedSockets := s.closedSockets + Handles(s.socket),
                       videoElement := None, onPredictionCallback := None)
  }

  /** The merge and canvas resize that begin `updateConfig(p)`. */
  function Reconfigured(s: ManagerState, p: PartialConfig): ManagerState {
    var merged := s.(config := Merge(s.config, p));
    if p.width.Some? || p.height.Some? then
      merged.(canvasWidth := merged.config.width, canvasHeight := merged.config.height)
    else merged
  }

  /** `updateConfig(p)`: the restart reconnects with the video element and
      callback that the disconnect has just cleared. */
  function AfterUpdate(s: ManagerState, p: PartialConfig, socketCreated: bool): ManagerState {
    var sized := Reconfigured(s, p);
    if NeedsRestart(s.streaming, p) && s.videoElement.Some? then
      var d := AfterDisconnect(sized);
      AfterConnect(d, d.videoElement, d.onPredictionCallback, socketCreated)
    else sized
  }

  /** After `disconnect()` the manager holds nothing: the socket and timer it
      held are closed and cleared, a second `disconnect()` changes nothing,
      a late tick sends nothing and a late `open` starts no timer. */
  lemma DisconnectIsFinal(s: ManagerState, hasContext: bool, dataUrl: string, now: int, fails: bool)
    ensures var d := AfterDisconnect(s);
      && d.socket == None && d.frameInterval == None && !d.streaming
      && Handles(s.socket) <= d.closedSockets && Handles(s.frameInterval) <= d.clearedTimers
      && AfterDisconnect(d) == d
      && AfterCapture(d, hasContext, dataUrl, now, fails) == d
      && AfterOpen(d, hasContext) == d.(streaming := true)
  {
  }

  /** A second `disconnect()` changes nothing. */
  lemma DisconnectIdempotent(s: ManagerState)
    ensures AfterDisconnect(AfterDisconnect(s)) == AfterDisconnect(s)
  {
  }

  /** A restart by `updateConfig` leaves a manager that no `open` can bring
      back to sending: the reconnected manager has no video element, so
      the timer is never started and no tick sends. */
  lemma RestartIsMute(s: ManagerState, p: PartialConfig, socketCreated: bool, hasContext: bool,
                      dataUrl: string, now: int, fails: bool)
    requires NeedsRestart(s.streaming, p) && s.videoElement.Some?
    ensures var r := AfterUpdate(s, p, socketCreated);
      && r.videoElement == None && r.onPredictionCallback == None && r.frameInterval == None
      && r.config == Merge(s.config, p)
      && r.closedSockets == s.closedSockets + Handles(s.socket)
      && r.sockets == s.sockets + (if socketCreated then [WsUrl(r.config.serverUrl)] else [])
      && AfterOpen(r, hasContext).timers == s.timers
      && AfterCapture(AfterOpen(r, hasContext), hasContext, dataUrl, now, fails).sent == s.sent
  {
  }

  class WebcamStreamManager {
    var socket: Option<nat>
    var sockets: seq<string>
    var closedSockets: set<nat>
    var videoElement: Option<VideoId>
    const hasContext: bool
    var canvasWidth: int
    var canvasHeight: int
    var streaming: bool
    var frameInterval: Option<nat>
    var timers: seq<Delay>
    var clearedTimers: set<nat>
    var config: StreamConfig
    var onPredictionCallback: Option<CallbackId>
    var sent: seq<(nat, FrameMessage)>
    var delivered: seq<(CallbackId, Prediction)>

    /** Handles always name sockets and timers that were created. */
    ghost predicate Valid()
      reads this
    {
      && (socket.Some? ==> socket.value < |sockets|)
      && (frameInterval.Some? ==> frameInterval.value < |timers|)
      && (forall i :: i in closedSockets ==> i < |sockets|)
      && (forall i :: i in clearedTimers ==> i < |timers|)
    }

    /** The fields as a value. */
    function State(): ManagerState
      reads this
    {
      ManagerState(socket, sockets, closedSockets, videoElement, canvasWidth, canvasHeight,
                   streaming, frameInterval, timers, clearedTimers, config, onPredictionCallback,
                   sent, delivered)
    }

    /** Is timer `t` still firing? */
    ghost predicate Running(t: nat)
      reads this
    {
      t < |timers| && t !in clearedTimers
    }

    /** `new WebcamStreamManager(config)`; `hasContext` says whether the canvas
        gave a 2D context. A fresh canvas is 300 by 150. */
    constructor (partial: PartialConfig, hasContext: bool)
      ensures Valid()
      ensures State() == Initial(Merge(DefaultStreamConfig, partial))
      ensures config == Merge(DefaultStreamConfig, partial)
      ensures this.hasContext == hasContext
      ensures canvasWidth == 300 && canvasHeight == 150
      ensures socket == None && sockets == [] && closedSockets == {}
      ensures videoElement == None && onPredictionCallback == None
      ensures !streaming && frameInterval == None && timers == [] && clearedTimers == {}
      ensures sent == [] && delivered == []
    {
      config := Merge(DefaultStreamConfig, partial);
      this.hasContext := hasContext;
      canvasWidth, canvasHeight := 300, 150;
      socket, sockets, closedSockets := None, [], {};
      videoElement, onPredictionCallback := None, None;
      streaming, frameInterval, timers, clearedTimers := false, None, [], {};
      sent, delivered := [], [];
    }

    /** `connect(videoElement, onPrediction)`. `socketCreated` is whether the
        `WebSocket` constructor returned (it may throw, which is caught and
        leaves `socket` as it was). The guard looks only at `streaming`, so a
        second call before the first socket opens creates another socket and
        drops the first one without closing it. */
    method Connect(video: Option<VideoId>, onPrediction: Option<CallbackId>, socketCreated: bool)
      requires Valid()
      modifies this
      ensures Valid()
      ensures State() == AfterConnect(old(State()), video, onPrediction, socketCreated)
      ensures old(streaming) ==>
                videoElement == old(videoElement) && onPredictionCallback == old(onPredictionCallback)
                && canvasWidth == old(canvasWidth) && canvasHeight == old(canvasHeight)
                && sockets == old(sockets) && socket == old(socket)
      ensures !old(streaming) ==> videoElement == video
      ensures !old(streaming) ==>
                onPredictionCallback == (if onPrediction.Some? then onPrediction else old(onPredictionCallback))
      ensures !old(streaming) ==> canvasWidth == config.width && canvasHeight == config.height
      ensures !old(streaming) ==>
                sockets == old(sockets) + (if socketCreated then [WsUrl(config.serverUrl)] else [])
      ensures !old(streaming) ==> socket == (if socketCreated then Some(|old(sockets)|) else old(socket))
      ensures streaming == old(streaming) && config == old(config)
      ensures closedSockets == old(closedSockets)
      ensures frameInterval == old(frameInterval) && timers == old(timers) && clearedTimers == old(clearedTimers)
      ensures sent == old(sent) && delivered == old(delivered)
    {
      if streaming {
        return;
      }
      videoElement := video;
      if onPrediction.Some? {
        onPredictionCallback := onPrediction;
      }
      canvasWidth, canvasHeight := config.width, config.height;
      OpenSocket(socketCreated);
    }

    /** The `try` block of `connect`: a socket to `WsUrl(serverUrl)` when the
        constructor returns, and nothing when it throws. */
    method OpenSocket(socketCreated: bool)
      requires Valid()
      modifies this
      ensures Valid()
      ensures State() == old(State()).(sockets := if socketCreated then old(sockets) + [WsUrl(config.serverUrl)] else old(sockets),
                                       socket := if socketCreated then Some(|old(sockets)|) else old(socket))
    {
      if socketCreated {
        var url := WsUrl(config.serverUrl);
        socket := Some(|sockets|);
        sockets := sockets + [url];
      }
    }

    /** The socket's `open` event: the only place `streaming` becomes true. */
    method HandleSocketOpen()
      requires Valid()
      modifies this
      ensures Valid()
      ensures State() == AfterOpen(old(State()), hasContext)
      ensures streaming
      ensures var ready := videoElement.Some? && hasContext && socket.Some?;
        && (ready ==> frameInterval == Some(|old(timers)|) && timers == old(timers) + [IntervalMs(config.frameRate)])
        && (!ready ==> frameInterval == old(frameInterval) && timers == old(timers))
      ensures clearedTimers == old(clearedTimers)
      ensures socket == old(socket) && sockets == old(sockets) && closedSockets == old(closedSockets)
      ensures videoElement == old(videoElement) && onPredictionCallback == old(onPredictionCallback)
      ensures config == old(config) && canvasWidth == old(canvasWidth) && canvasHeight == old(canvasHeight)
      ensures sent == old(sent) && delivered == old(delivered)
    {
      streaming := true;
      StartStreaming();
    }

    /** `startStreaming()`: nothing without a video element, a context and a
        socket; otherwise a new interval timer of period 1000/frameRate. A
        timer already held is overwritten, not cleared. */
    method StartStreaming()
      requires Valid()
      modifies this
      ensures Valid()
      ensures State() == AfterStartTimer(old(State()), hasContext)
      ensures var ready := videoElement.Some? && hasContext && socket.Some?;
        && (ready ==> frameInterval == Some(|old(timers)|) && timers == old(timers) + [IntervalMs(config.frameRate)])
        && (!ready ==> frameInterval == old(frameInterval) && timers == old(timers))
      ensures clearedTimers == old(clearedTimers) && streaming == old(streaming)
      ensures socket == old(socket) && sockets == old(sockets) && closedSockets == old(closedSockets)
      ensures videoElement == old(videoElement) && onPredictionCallback == old(onPredictionCallback)
      ensures config == old(config) && canvasWidth == old(canvasWidth) && canvasHeight == old(canvasHeight)
      ensures sent == old(sent) && delivered == old(delivered)
    {
      if videoElement.None? || !hasContext || socket.None? {
        return;
      }
      timers := timers + [IntervalMs(config.frameRate)];
      frameInterval := Some(|timers| - 1);
    }

    /** The socket's `message` event. Only a prediction reaches the callback,
        once, and only when one is registered; an error message, another type
        or text that does not parse changes nothing. */
    method HandleSocketMessage(m: Inbound) returns (invoked: Option<(CallbackId, Prediction)>)
      requires Valid()
      modifies this
      ensures Valid()
      ensures State() == AfterMessage(old(State()), m)
      ensures invoked.Some? <==> m.PredictionMessage? && onPredictionCallback.Some?
      ensures invoked.Some? ==> invoked.value == (onPredictionCallback.value, m.prediction)
      ensures delivered == old(delivered) + (if invoked.Some? then [invoked.value] else [])
      ensures streaming == old(streaming) && frameInterval == old(frameInterval)
      ensures timers == old(timers) && clearedTimers == old(clearedTimers)
      ensures socket == old(socket) && sockets == old(sockets) && closedSockets == old(closedSockets)
      ensures videoElement == old(videoElement) && onPredictionCallback == old(onPredictionCallback)
      ensures config == old(config) && canvasWidth == old(canvasWidth) && canvasHeight == old(canvasHeight)
      ensures sent == old(sent)
    {
      invoked := None;
      match m {
        case PredictionMessage(p) =>
          if onPredictionCallback.Some? {
            invoked := Some((onPredictionCallback.value, p));
            delivered := delivered + [invoked.value];
          }
        case ErrorMessage(_) =>
        case OtherType(_) =>
        case Unparseable =>
      }
    }

    /** Clears and forgets the current interval timer, if any. */
    method StopTimer()
      requires Valid()
      modifies this
      ensures Valid()
      ensures State() == AfterStopTimer(old(State()))
      ensures frameInterval == None
      ensures clearedTimers == old(clearedTimers) + (if old(frameInterval).Some? then {old(frameInterval).value} else {})
      ensures timers == old(timers) && streaming == old(streaming)
      ensures socket == old(socket) && sockets == old(sockets) && closedSockets == old(closedSockets)
      ensures videoElement == old(videoElement) && onPredictionCallback == old(onPredictionCallback)
      ensures config == old(config) && canvasWidth == old(canvasWidth) && canvasHeight == old(canvasHeight)
      ensures sent == old(sent) && delivered == old(delivered)
    {
      if frameInterval.Some? {
        clearedTimers := clearedTimers + {frameInterval.value};
        frameInterval := None;
      }
    }

    /** The socket's `error` event. */
    method HandleSocketError()
      requires Valid()
      modifies this
      ensures Valid()
      ensures State() == AfterSocketStopped(old(State()))
      ensures !streaming && frameInterval == None
      ensures old(frameInterval).Some? ==> !Running(old(frameInterval).value)
      ensures clearedTimers == old(clearedTimers) + (if old(frameInterval).Some? then {old(frameInterval).value} else {})
      ensures timers == old(timers)
      ensures socket == old(socket) && sockets == old(sockets) && closedSockets == old(closedSockets)
      ensures videoElement == old(videoElement) && onPredictionCallback == old(onPredictionCallback)
      ensures config == old(config) && canvasWidth == old(canvasWidth) && canvasHeight == old(canvasHeight)
      ensures sent == old(sent) && delivered == old(delivered)
    {
      streaming := false;
      StopTimer();
    }

    /** The socket's `close` event: the same effect as `error`. */
    method HandleSocketClose()
      requires Valid()
      modifies this
      ensures Valid()
      ensures State() == AfterSocketStopped(old(State()))
      ensures !streaming && frameInterval == None
      ensures old(frameInterval).Some? ==> !Running(old(frameInterval).value)
      ensures clearedTimers == old(clearedTimers) + (if old(frameInterval).Some? then {old(frameInterval).value} else {})
      ensures timers == old(timers)
      ensures socket == old(socket) && sockets == old(sockets) && closedSockets == old(closedSockets)
      ensures videoElement == old(videoElement) && onPredictionCallback == old(onPredictionCallback)
      ensures config == old(config) && canvasWidth == old(canvasWidth) && canvasHeight == old(canvasHeight)
      ensures sent == old(sent) && delivered == old(delivered)
    {
      streaming := false;
      StopTimer();
    }

    /** One timer tick: `captureAndSendFrame()`. `dataUrl` is what the canvas
        encodes, `now` is `Date.now()`, and `fails` says whether drawing,
        encoding or sending threw (the error is caught and nothing is sent).
        A frame goes out only while streaming with a video element, a
        context and a socket, and it goes to the current socket. */
    method CaptureAndSendFrame(dataUrl: string, now: int, fails: bool)
      requires Valid()
      modifies this
      ensures Valid()
      ensures State() == AfterCapture(old(State()), hasContext, dataUrl, now, fails)
      ensures var ready := streaming && videoElement.Some? && hasContext && socket.Some?;
        sent == old(sent) + (if ready && !fails then [(socket.value, FramePayload(dataUrl, now))] else [])
      ensures streaming == old(streaming) && frameInterval == old(frameInterval)
      ensures timers == old(timers) && clearedTimers == old(clearedTimers)
      ensures socket == old(socket) && sockets == old(sockets) && closedSockets == old(closedSockets)
      ensures videoElement == old(videoElement) && onPredictionCallback == old(onPredictionCallback)
      ensures config == old(config) && canvasWidth == old(canvasWidth) && canvasHeight == old(canvasHeight)
      ensures delivered == old(delivered)
    {
      if !streaming || videoElement.None? || !hasContext || socket.None? {
        return;
      }
      if !fails {
        sent := sent + [(socket.value, FramePayload(dataUrl, now))];
      }
    }

    /** `disconnect()`: clear the timer, stop streaming, close and forget the
        socket, forget the video element and the callback. */
    method Disconnect()
      requires Valid()
      modifies this
      ensures Valid()
      ensures State() == AfterDisconnect(old(State()))
      ensures !streaming && frameInterval == None && socket == None
      ensures videoElement == None && onPredictionCallback == None
      ensures clearedTimers == old(clearedTimers) + (if old(frameInterval).Some? then {old(frameInterval).value} else {})
      ensures closedSockets == old(closedSockets) + (if old(socket).Some? then {old(socket).value} else {})
      ensures timers == old(timers) && sockets == old(sockets)
      ensures config == old(config) && canvasWidth == old(canvasWidth) && canvasHeight == old(canvasHeight)
      ensures sent == old(sent) && delivered == old(delivered)
      ensures old(frameInterval) == None && old(socket) == None ==>
                clearedTimers == old(clearedTimers) && closedSockets == old(closedSockets)
    {
      StopTimer();
      streaming := false;
      if socket.Some? {
        closedSockets := closedSockets + {socket.value};
        socket := None;
      }
      videoElement := None;
      onPredictionCallback := None;
    }

    /** `updateConfig(partial)`: merge, resize the canvas when a size key is
        present, and restart when `NeedsRestart` held before the merge and a
        video element is held. The restart disconnects first, which forgets
        the video element and the callback, and then connects with those
        forgotten values. */
    method UpdateConfig(p: PartialConfig, socketCreated: bool) returns (restarted: bool)
      requires Valid()
      modifies this
      ensures Valid()
      ensures State() == AfterUpdate(old(State()), p, socketCreated)
      ensures restarted <==> NeedsRestart(old(streaming), p) && old(videoElement).Some?
      ensures config == Merge(old(config), p)
      ensures !restarted && (p.width.Some? || p.height.Some?) ==>
                canvasWidth == config.width && canvasHeight == config.height
      ensures !restarted && p.width.None? && p.height.None? ==>
                canvasWidth == old(canvasWidth) && canvasHeight == old(canvasHeight)
      ensures !restarted ==>
        && streaming == old(streaming) && socket == old(socket) && sockets == old(sockets)
        && closedSockets == old(closedSockets) && frameInterval == old(frameInterval)
        && clearedTimers == old(clearedTimers) && videoElement == old(videoElement)
        && onPredictionCallback == old(onPredictionCallback)
      ensures restarted ==>
        && !streaming && frameInterval == None
        && videoElement == None && onPredictionCallback == None
        && canvasWidth == config.width && canvasHeight == config.height
        && clearedTimers == old(clearedTimers) + (if old(frameInterval).Some? then {old(frameInterval).value} else {})
        && closedSockets == old(closedSockets) + (if old(socket).Some? then {old(socket).value} else {})
        && sockets == old(sockets) + (if socketCreated then [WsUrl(config.serverUrl)] else [])
        && socket == (if socketCreated then Some(|old(sockets)|) else None)
      ensures timers == old(timers) && sent == old(sent) && delivered == old(delivered)
    {
      var needsRestart := NeedsRestart(streaming, p);
      ApplyConfig(p);
      restarted := needsRestart && videoElement.Some?;
      if restarted {
        Disconnect();
        Connect(videoElement, onPredictionCallback, socketCreated);
      }
    }

    /** The merge and canvas resize of `updateConfig(p)`. */
    method ApplyConfig(p: PartialConfig)
      requires Valid()
      modifies this
      ensures Valid()
      ensures State() == Reconfigured(old(State()), p)
    {
      config := Merge(config, p);
      if p.width.Some? || p.height.Some? {
        canvasWidth, canvasHeight := config.width, config.height;
      }
    }

    /** `isStreaming()`. */
    method IsStreaming() returns (r: bool)
      ensures r == streaming
    {
      r := streaming;
    }
  }

  /** After an `updateConfig` restart the new socket may open, but no timer
      is started and no tick sends anything, because the restart handed
      `connect` the video element and callback that `disconnect` had just
      cleared. Returns how many frames were sent before and after the
      restart, and the number of running timers at the end. */
  method RestartSendsNoFrames(video: VideoId, callback: CallbackId, url: string)
    returns (framesBefore: nat, framesAfter: nat, timersCreated: nat, timerHeld: bool, restarted: bool)
    ensures restarted
    ensures framesBefore == 1 && framesAfter == 1
    ensures timersCreated == 1 && !timerHeld
  {
    var m := new WebcamStreamManager(NoChange, true);
    m.Connect(Some(video), Some(callback), true);
    m.HandleSocketOpen();
    assert m.frameInterval == Some(0);
    m.CaptureAndSendFrame(JpegDataUrlPrefix + "AAAA", 1, false);
    framesBefore := |m.sent|;

    restarted := m.UpdateConfig(PartialConfig(Some(url), None, None, None, None), true);
    assert m.videoElement == None && m.socket == Some(1);
    m.HandleSocketOpen();
    assert m.streaming && m.frameInterval == None;
    m.CaptureAndSendFrame(JpegDataUrlPrefix + "BBBB", 2, false);
    framesAfter := |m.sent|;
    timersCreated := |m.timers|;
    timerHeld := m.frameInterval.Some?;
  }

  /** Two `connect` calls before any socket opens create two sockets; the
      first is never closed. */
  method DoubleConnectLeaksSocket(video: VideoId) returns (created: nat, closed: nat)
    ensures created == 2 && closed == 0
  {
    var m := new WebcamStreamManager(NoChange, true);
    m.Connect(Some(video), None, true);
    m.Connect(Some(video), None, true);
    created := |m.sockets|;
    closed := |m.closedSockets|;
  }
}
