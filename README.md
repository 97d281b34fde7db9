# Lingo Sign Explorer, modelled in Dafny

Lingo Sign Explorer is a sign-language learning application. It has a React
client and a Python hand-tracking server. This project models its core
logic and proves properties of that model:

- **Camera access** (`camera_access.dfy`): the capability probe. It also covers
  the sorting of every `getUserMedia` failure into a fixed set of causes and
  messages, and the stopping of a stream's tracks.
- **Frame streaming** (`stream_manager.dfy`): the `WebcamStreamManager`.
  - Configuration merging and the restart test.
  - The socket URL, the interval timer and the frame payload.
  - The socket's open/message/error/close events, `disconnect` and
    `updateConfig`.
  - A class whose fields are the manager's own fields, plus logs of created
    sockets and timers, sent frames and delivered predictions.
- **The streaming component** (`streaming_controller.dfy`): camera start and
  stop, streaming start and stop, the mount timer and unmount. It is a class
  whose fields are the component's refs and state variables.
- **Learning progress** (`progress.dfy`):
  - Lesson locking, the weighted letter accuracy and the daily streak.
  - Lesson completion and reset.
  - A store class that records every save.
- **Letter geometry**:
  - `landmarks.dfy`: the four finger states and the 25-arm letter chain,
    shared by both Python programs.
  - `process_webcam.dfy`: the streaming server's per-frame detection.
  - `hand_tracking.dfy`: the desktop program's `handDetector`, model/geometry
    confirmation and per-frame flow.
- **Community** (`ranking.dfy`, `leaderboards.dfy`, `community_stats.dfy`):
  - The leaderboards: scores, a stable descending sort, ranks, the top ten,
    names and initials.
  - The statistics card: totals, mastered-letter counts, the top five, the
    weekly cap and the percentage.
- **Lesson page and typewriter** (`lesson_page.dfy`, `typed_text.dfy`): two
  small UI state machines.

JavaScript and Python built-ins are written out, in `js_text.dfy` and
`common.dfy`, where their edge cases matter:

- `substring` clamping;
- `parseInt` returning NaN;
- `replace` with a string pattern;
- `split`;
- Python negative indexing.

Numbers are modelled as unbounded integers (see "## Left out" for what
that leaves aside).

Socket events, timer ticks and React handlers are method calls. Outcomes the
code cannot see become parameters:

- the `getUserMedia` result;
- whether the socket constructor throws;
- whether drawing or sending a frame fails;
- `Date.now()`;
- `Math.random()`;
- the query results.

### Behaviour of the code as written

- **Key presence triggers a restart.** `updateConfig` restarts whenever a
  `frameRate` or `serverUrl` key is present, even with an unchanged value
  (`RestartOnUnchangedValue`).
- **A restart stops the frames.** `disconnect()` clears the video element
  before `connect(this.videoElement, …)` reads it. The new socket may open,
  but no frame timer starts (`RestartSendsNoFrames`).
- **`connect` does not guard against a second call.** It is guarded only by
  `streaming`. Two calls before the first socket opens create two sockets,
  and the first is never closed (`DoubleConnectLeaksSocket`).
- **No tick is skipped.** A timer tick that finds no video frame is not
  skipped: the code draws and sends whatever the canvas yields.
- **A frame rate of 0 does not stop the frames.** The interval becomes
  `1000 / 0 = Infinity`, which the model writes as `Infinite`. `setInterval`
  turns Infinity into a delay of 0, so the timer fires as often as the
  browser allows (`TimerDelay`, `ZeroFrameRateFiresAtOnce`).
- **`startStreaming` overwrites the timer handle.** It does not clear an
  earlier timer, so a second open event leaves the first timer running.
- **The component's flag does not follow the socket.** The component's
  `isStreaming` stays true after the socket closes
  (`StreamingFlagOutlivesSocket`).
- **The mount message is a different text.** The mount effect reports an
  unsupported browser as "Your browser doesn't support camera access", which
  is not the text `requestCameraAccess` uses.
- **`completeLesson` saves twice.** It saves the marked record. The streak
  update it queues then runs on that marked record and, when the day
  changed, saves it again with the new streak and `lastActive`. Both saves
  are in `ProgressStore.CompleteLesson`'s contract.

## Model

| member | source | states |
|---|---|---|
| Common.PyIndex | server/secret-sauce/main.py:232-235 | A Python index `i` into a list of length `n` is valid iff `-n <= i < n`; a negative index counts from the end |
| JsText.Substring | src/components/TypedText.tsx:50 | `substring(a, b)` clamps both ends into the string; an in-range pair gives the slice, and a full or empty range gives the whole or empty string |
| JsText.ParseIntOfIntToString | src/contexts/ProgressContext.tsx:294-300 | `parseInt` of a printed whole number gives the number back |
| JsText.ParseIntOfMinus | src/contexts/ProgressContext.tsx:294 | A leading minus sign negates what the digits after it read as |
| JsText.ParseIntSkipsSpace | src/contexts/ProgressContext.tsx:294 | `parseInt` skips a leading white-space or line-terminator character, the Unicode space separators included |
| JsText.ParseIntSkipsIdeographicSpace | src/contexts/ProgressContext.tsx:294 | `parseInt("\u3000 5")` is 5 |
| JsText.SplitOfJoined | src/contexts/ProgressContext.tsx:293 | Splitting `a + sep + b` on the first `sep`, where `a` has no `sep`, gives `a` and `b` |
| JsText.FieldsOfJoined | src/contexts/ProgressContext.tsx:293 | `"a-b".split('-')` read as `[category, numStr]` gives `a` and `b` back |
| JsText.RemoveFirst | src/lib/webcamStreaming.ts:155 | `replace(prefix, '')` strips a leading prefix and leaves a string without it unchanged |
| JsText.UpperAscii | src/components/community/Leaderboards.tsx:208 | Upper-casing maps `a`–`z` to `A`–`Z` and leaves other characters alone |
| CameraAccess.IsCameraSupported | src/lib/webcam.ts:8-10 | Supported iff `mediaDevices` exists and has `getUserMedia` |
| CameraAccess.ClassifyCases | src/lib/webcam.ts:32-62 | Each error name maps to exactly one cause (iff per name set); unknown names become "other" with their message |
| CameraAccess.MessageCases | src/lib/webcam.ts:32-62 | Every cause has a non-empty message; an unknown error reads "Camera error: " plus its message, or "Unknown error" |
| CameraAccess.RequestCameraAccessCases | src/lib/webcam.ts:15-63 | Exactly one of stream and error is set; unsupported gives the fixed message without calling the platform; rejection gives the classified message |
| CameraAccess.StopMediaStream | src/lib/webcam.ts:69-73 | Every track of a non-null stream is stopped; null changes nothing |
| WebcamStreaming.MergeLaws | src/lib/webcamStreaming.ts:195 | Spread merging: the empty partial and the config itself are identities, merging is idempotent, two merges compose into one, and a full default resets |
| WebcamStreaming.NeedsRestart | src/lib/webcamStreaming.ts:190-192 | A restart needs streaming and a `frameRate` or `serverUrl` key |
| WebcamStreaming.RestartOnUnchangedValue | src/lib/webcamStreaming.ts:190-195 | Re-sending the current frame rate leaves the config unchanged yet still demands a restart |
| WebcamStreaming.WsUrlShape | src/lib/webcamStreaming.ts:59 | The URL ends in "/stream"; a leading "http" becomes "ws" with the rest kept; other URLs are kept as they are |
| WebcamStreaming.WsUrlSecure | src/lib/webcamStreaming.ts:59 | "https://h" becomes "wss://h/stream" |
| WebcamStreaming.WsUrlDefault | src/lib/webcamStreaming.ts:59 | The default server URL becomes "ws://localhost:5000/stream" |
| WebcamStreaming.IntervalMs | src/lib/webcamStreaming.ts:126 | The period times the frame rate is 1000 ms; a zero rate gives Infinity |
| WebcamStreaming.TimerDelay | src/lib/webcamStreaming.ts:126-132 | The delay `setInterval` runs at: Infinity and negative periods become 0, other periods their whole milliseconds |
| WebcamStreaming.ZeroFrameRateFiresAtOnce | src/lib/webcamStreaming.ts:126-132 | A frame rate of 0, or above 1000, gives a timer with no delay rather than one that never fires |
| WebcamStreaming.FramePayload | src/lib/webcamStreaming.ts:150-160 | A frame message has type "frame", the capture time, and the data URL without its JPEG prefix |
| WebcamStreaming.WebcamStreamManager.constructor | src/lib/webcamStreaming.ts:35-39 | The config is the defaults overridden by the given keys; the canvas is 300×150; nothing is connected |
| WebcamStreaming.WebcamStreamManager.Connect | src/lib/webcamStreaming.ts:42-70 | A no-op while streaming; otherwise stores the video and callback and records a new socket when its constructor succeeds, overwriting the old handle without closing it |
| WebcamStreaming.WebcamStreamManager.OpenSocket | src/lib/webcamStreaming.ts:58-69 | A socket to the derived URL is recorded and becomes current when its constructor returns; when it throws nothing changes |
| WebcamStreaming.WebcamStreamManager.HandleSocketOpen | src/lib/webcamStreaming.ts:73-77 | Opening sets `streaming` and starts a timer exactly when the video, the canvas context and the socket are all present |
| WebcamStreaming.WebcamStreamManager.StartStreaming | src/lib/webcamStreaming.ts:119-133 | With video, context and socket present, a new timer at `1000 / frameRate` becomes the current one and the old one is not cleared; otherwise nothing changes |
| WebcamStreaming.WebcamStreamManager.HandleSocketMessage | src/lib/webcamStreaming.ts:80-96 | The callback receives the prediction iff the message is a prediction and a callback is registered; errors, other types and bad JSON deliver nothing |
| WebcamStreaming.WebcamStreamManager.StopTimer | src/lib/webcamStreaming.ts:101-104 | The current timer, if any, is cleared and forgotten |
| WebcamStreaming.WebcamStreamManager.HandleSocketError | src/lib/webcamStreaming.ts:99-106 | An error stops streaming, and the current timer stops running |
| WebcamStreaming.WebcamStreamManager.HandleSocketClose | src/lib/webcamStreaming.ts:109-116 | A close stops streaming, and the current timer stops running |
| WebcamStreaming.WebcamStreamManager.CaptureAndSendFrame | src/lib/webcamStreaming.ts:136-166 | A frame is sent on the current socket iff streaming with video, context and socket, and capture does not fail; nothing else changes |
| WebcamStreaming.WebcamStreamManager.Disconnect | src/lib/webcamStreaming.ts:169-186 | The new state is `AfterDisconnect`: the timer is cleared and the socket closed and forgotten; the video and callback are dropped; nothing else changes |
| WebcamStreaming.WebcamStreamManager.UpdateConfig | src/lib/webcamStreaming.ts:189-208 | The new state is `AfterUpdate`: the config becomes the merge; a size key resizes the canvas; a restart happens iff the restart test held before the merge and a video is set, and it reconnects with the video and callback already dropped |
| WebcamStreaming.WebcamStreamManager.ApplyConfig | src/lib/webcamStreaming.ts:195-201 | The config becomes the merge, and the canvas takes its size only when a width or height key is present; nothing else changes |
| WebcamStreaming.WebcamStreamManager.IsStreaming | src/lib/webcamStreaming.ts:211-213 | Reports the `streaming` flag |
| WebcamStreaming.RestartSendsNoFrames | src/lib/webcamStreaming.ts:189-208 | After a frame-rate change while streaming, the new socket opens but no timer is started, so the frame count stays at one |
| WebcamStreaming.DoubleConnectLeaksSocket | src/lib/webcamStreaming.ts:42-70 | Two connects before an open create two sockets and close none |
| WebcamStreaming.DisconnectIsFinal | src/lib/webcamStreaming.ts:169-186 | After `disconnect` no socket, timer or streaming flag is held, the held socket and timer are closed and cleared, a second disconnect and a late tick change nothing, and a late open starts no timer |
| WebcamStreaming.DisconnectIdempotent | src/lib/webcamStreaming.ts:169-186 | A second `disconnect` changes nothing |
| WebcamStreaming.RestartIsMute | src/lib/webcamStreaming.ts:189-208 | After an `updateConfig` restart the video and callback are gone, the old socket is closed and a new one recorded, and a later open and tick start no timer and send nothing |
| StreamingController.Controller.constructor | src/components/WebcamWithStreaming.tsx:40-50 | The initial refs and state: no stream, no manager, inactive, not streaming, the default config |
| StreamingController.Controller.StartCameraSeeing | src/components/WebcamWithStreaming.tsx:53-131 | The new state is `CameraStarted`: the error is cleared and, if the closure saw the camera active with a stream held, nothing else changes; otherwise the old stream's tracks are stopped and the request settles by `Settled` (refused: that error shown, access and active cleared, no stream; granted: the stream held and, with a video element, shown with access and active set). The manager is untouched |
| StreamingController.Controller.ReleaseStream | src/components/WebcamWithStreaming.tsx:64-67 | Every track of the held stream is stopped and the ref cleared; every other field keeps its value |
| StreamingController.Controller.AcquireStream | src/components/WebcamWithStreaming.tsx:69-130 | The new state is `Settled` on the request's result: a refused request shows the access error and clears access and active; a granted one is held, and with a video element shown, with access and active set; no other field changes |
| StreamingController.Controller.StartCamera | src/components/WebcamWithStreaming.tsx:53-131 | `startCamera` from the current render, which sees the current `isActive`: the new state is `CameraStarted` with that flag, so an active camera with a stream only loses its error; otherwise as `StartCameraSeeing` |
| StreamingController.Controller.StopStreaming | src/components/WebcamWithStreaming.tsx:193-200 | With a manager: the manager's state becomes `AfterDisconnect` of its old state (timer cleared, socket closed and forgotten, video and callback dropped), `isStreaming` and the prediction are cleared, and the manager is kept for reuse; without one nothing changes |
| StreamingController.Controller.StopCamera | src/components/WebcamWithStreaming.tsx:134-147 | The new state is `CameraStopped`: only when a stream is held are its tracks stopped, the ref cleared, the video detached (when there is a video element) and `isActive` cleared; then, in every case, streaming stops as in `StopStreaming` |
| StreamingController.Controller.ReleaseCamera | src/components/WebcamWithStreaming.tsx:135-143 | The new state is `CameraReleased`: with a stream held its tracks are stopped, the ref cleared, the video detached when present and `isActive` cleared; without one nothing changes |
| StreamingController.Controller.ToggleCamera | src/components/WebcamWithStreaming.tsx:150-156 | Active: exactly `StopCamera`'s new component and manager state. Inactive: exactly `startCamera`'s state for a closure seeing the camera inactive, with the manager unchanged |
| StreamingController.Controller.StartStreaming | src/components/WebcamWithStreaming.tsx:159-190 | An inactive camera or a missing video element only sets the must-be-active error. Otherwise the manager is a fresh one in its initial state with the component's config, or the held one after `updateConfig` with the whole config; it is then connected to the video with a new prediction handler, and `isStreaming` is set; nothing else changes |
| StreamingController.Controller.PrepareManager | src/components/WebcamWithStreaming.tsx:166-172 | The manager becomes a fresh one whose state is the initial state with the component's config, or the held one after `updateConfig` with the whole config; either way its config is the component's |
| StreamingController.Controller.ToggleStreaming | src/components/WebcamWithStreaming.tsx:203-209 | Streaming: exactly `StopStreaming`'s new component and manager state. Not streaming: exactly `StartStreaming`'s, case by case |
| StreamingController.Controller.UpdateStreamConfig | src/components/WebcamWithStreaming.tsx:212-219 | The component's config becomes the merge and nothing else in the component changes; while streaming, the manager's state becomes `AfterUpdate` with the same partial (including a restart); otherwise the manager is untouched |
| StreamingController.Controller.Mount | src/components/WebcamWithStreaming.tsx:231-244 | Unsupported browsers get the mount message and no timer; otherwise the start-up timer is pending; nothing else changes |
| StreamingController.Controller.MountTimerFires | src/components/WebcamWithStreaming.tsx:238-241 | A pending timer is consumed and the new state is `CameraStarted` for a closure seeing the camera inactive (so the camera is always requested, with its error, missing-video and success outcomes); with no timer pending nothing changes |
| StreamingController.Controller.Unmount | src/components/WebcamWithStreaming.tsx:222-228 | The start-up timer is cleared and the new state is `CameraStopped`; the manager's state is `AfterDisconnect` of its old state, the second disconnect changing nothing (`DisconnectIdempotent`) |
| StreamingController.Controller.OnSocketOpen | src/lib/webcamStreaming.ts:73-77 | The live manager's state becomes `AfterOpen`: streaming set, and a new timer started exactly when video, context and socket are present; the component does not change |
| StreamingController.Controller.OnSocketMessage | src/components/WebcamWithStreaming.tsx:175-186 | A prediction reaching the handler becomes the shown prediction and is passed to the prop when one is given; the manager's state is `AfterMessage`; nothing else changes |
| StreamingController.Controller.OnSocketClosed | src/lib/webcamStreaming.ts:99-116 | The live manager's state becomes `AfterSocketStopped` (streaming cleared, timer cleared and forgotten, socket kept); the component does not change |
| StreamingController.Controller.OnFrameTick | src/lib/webcamStreaming.ts:136-166 | The live manager's state becomes `AfterCapture`: one frame on the current socket exactly when the manager is ready and capture succeeds, nothing else; the component does not change |
| StreamingController.StreamingFlagOutlivesSocket | src/components/WebcamWithStreaming.tsx:159-190 | After the socket closes the component still says streaming while the manager does not |
| StreamingController.CameraStartedCases | src/components/WebcamWithStreaming.tsx:53-131 | `startCamera` changes only the camera fields and the error, never leaves an error beside an active camera, and ends in one of four exact states: error cleared only, refused, granted with a video, granted without one |
| StreamingController.StopIsIdempotent | src/components/WebcamWithStreaming.tsx:134-147 | After `stopCamera` no stream is held and, with a manager, streaming is off; a second `stopCamera` or `stopStreaming` changes nothing |
| StreamingController.StopStreamingFirst | src/components/WebcamWithStreaming.tsx:222-228 | `stopStreaming` then `stopCamera`, as the unmount cleanup runs them, ends where `stopCamera` alone does |
| Progress.IsLessonCompleted | src/contexts/ProgressContext.tsx:279-281 | True exactly when the lesson's entry is present and true; a missing entry counts as not completed |
| Progress.CompletionPersists | src/contexts/ProgressContext.tsx:279-281 | Once completed, a lesson stays completed through any completion, accuracy update and streak update; a reset clears it exactly when the reset takes effect |
| Progress.CompletionOpensNext | src/contexts/ProgressContext.tsx:283-302 | Completing "category-(n-1)" unlocks "category-n", and later accuracy or streak updates keep it unlocked |
| Progress.IsLessonLocked | src/contexts/ProgressContext.tsx:283-302 | The first lesson is never locked; a given prerequisite decides alone; otherwise "category-1" is open and "category-n" waits for "category-(n-1)" |
| Progress.LessonNumberOfId | src/contexts/ProgressContext.tsx:293-294 | "category-n" splits and parses back to the category and n |
| Progress.LockedByNumber | src/contexts/ProgressContext.tsx:293-301 | Without a prerequisite, a lesson numbered k is open for k = 1 and otherwise locked iff "category-(k-1)" is not completed |
| Progress.NoDashInNatToString | src/contexts/ProgressContext.tsx:300 | A printed lesson number has no '-', so the predecessor id splits back into category and number |
| Progress.LockedByPredecessor | src/contexts/ProgressContext.tsx:293-301 | Without a prerequisite, "category-n" with n ≥ 2 is locked iff "category-(n-1)" is not completed |
| Progress.NumberlessIdWaitsForNaN | src/contexts/ProgressContext.tsx:293-301 | An id without '-' is locked until "id-NaN" is completed |
| Progress.WeightedAccuracy | src/contexts/ProgressContext.tsx:217-223 | A first result is stored as is; later ones are 0.7·new + 0.3·old rounded to nearest, and lie between the two |
| Progress.WithLetterAccuracy | src/contexts/ProgressContext.tsx:215-238 | Only the letter's accuracy changes, to the weighted value |
| Progress.SameAccuracyIsFixed | src/contexts/ProgressContext.tsx:217-223 | Re-submitting the stored accuracy leaves the record unchanged |
| Progress.StreakUpdate | src/contexts/ProgressContext.tsx:132-183 | First activity starts a streak of 1; the same day changes nothing; the next day adds 1; a longer gap restarts at 1; an earlier day changes nothing |
| Progress.StreakUpdateIdempotent | src/contexts/ProgressContext.tsx:150-151 | A second update on the same day changes nothing |
| Progress.StreakUpdateKeepsConsistent | src/contexts/ProgressContext.tsx:132-183 | After an update a day is recorded and the streak is at least 1 |
| Progress.ConsecutiveDaysStreak | src/contexts/ProgressContext.tsx:160-170 | k+1 consecutive active days from no recorded day give a streak of k+1 |
| Progress.GapRestartsStreak | src/contexts/ProgressContext.tsx:171-181 | A gap of two days or more after any run restarts the streak at 1 |
| Progress.WithLessonCompleted | src/contexts/ProgressContext.tsx:185-213 | The lesson is marked, others unchanged, the xp added, accuracy untouched, and the streak fields those of the streak update |
| Progress.CompleteTwice | src/contexts/ProgressContext.tsx:185-213 | Completing twice on a day adds the xp twice but marks the lesson once |
| Progress.AfterReset | src/contexts/ProgressContext.tsx:240-277 | Without a user, or after a successful remote update, progress is the initial record; after a failed update it is unchanged |
| Progress.InitialProgressFacts | src/contexts/ProgressContext.tsx:8-14 | The initial record has no completed lesson, no accuracy, a consistent streak, and a first activity gives streak 1 |
| Progress.ProgressStore.constructor | src/contexts/ProgressContext.tsx:8-14 | The store starts at the initial record with nothing saved |
| Progress.ProgressStore.UpdateStreak | src/contexts/ProgressContext.tsx:132-183 | The record becomes the streak update and is saved exactly when the day changed |
| Progress.ProgressStore.CompleteLesson | src/contexts/ProgressContext.tsx:185-213 | The record becomes the completion; the saves are exactly the marked record and then, when the day changed, the marked record with its streak updated |
| Progress.ProgressStore.UpdateLetterAccuracy | src/contexts/ProgressContext.tsx:215-238 | The record becomes the accuracy update, which is saved |
| Progress.ProgressStore.ResetProgress | src/contexts/ProgressContext.tsx:240-277 | The record becomes the reset outcome; the reset itself saves nothing through the save path |
| HandGeometry.Count | server/secret_sauce/process_webcam.py:86 | `fingers.count(s)` is at most the length, equals it iff all are `s`, and is 0 iff none is |
| HandGeometry.LaterTests | server/secret_sauce/process_webcam.py:74-81 | The tests after the first never raise: each reads only landmarks the first test already reached |
| HandGeometry.FirstTestThen | server/secret_sauce/process_webcam.py:72-81 | The first test reads landmarks 16 and 20, so it raises only on 20 or fewer landmarks |
| HandGeometry.GuardedStep | server/secret_sauce/process_webcam.py:70-82 | The length guard skips a finger whose tip is missing; a raise needs the tip present but fewer than 21 landmarks |
| HandGeometry.UnguardedStep | server/secret-sauce/main.py:425-436 | Without the guard a missing tip raises `IndexError`; otherwise as the first test |
| HandGeometry.Scan | server/secret-sauce/main.py:425-436 | A completed scan has at most n states, and n states only if every finger appended |
| HandGeometry.RaisedStaysRaised | server/secret_sauce/process_webcam.py:70-82 | Once a finger raises, the loop is left: every longer scan raises too |
| HandGeometry.FingerStates | server/secret_sauce/process_webcam.py:70-82 | The loop raises iff the scan does, and otherwise yields the scan's states, at most four |
| HandGeometry.FourStatesNeedAllLandmarks | server/secret_sauce/process_webcam.py:70-85 | Four finger states imply more than 20 landmarks |
| HandGeometry.UnguardedScanNeedsAllLandmarks | server/secret-sauce/main.py:425-436 | The unguarded loop raises on 8 or fewer landmarks and completes only with more than 20 |
| HandGeometry.And | server/secret_sauce/process_webcam.py:86-137 | Python's short-circuit `and`: a false left side stops before an index error on the right |
| HandGeometry.FingerIs | server/secret_sauce/process_webcam.py:92 | Reading `fingers[k]` fails exactly when there are at most k states |
| HandGeometry.FirstMatch | server/secret_sauce/process_webcam.py:86-137 | The `if`/`elif` chain: the first true arm decides, all-false gives "", a letter comes from an arm, and with no failing test there is a result |
| HandGeometry.ArmAt | server/secret_sauce/process_webcam.py:86-137 | Arm i is the chain's i-th test and letter in source order; with four states no test fails, and every letter is in the alphabet set |
| HandGeometry.ArmsFrom | server/secret_sauce/process_webcam.py:86-137 | The chain from arm i lists arms i..24 in order |
| HandGeometry.ChainLetter | server/secret_sauce/process_webcam.py:85-138 | With four states the chain yields "" or a letter of the set A–Y without J |
| HandGeometry.InnerCheckStopsChain | server/secret_sauce/process_webcam.py:102-104 | When the I arm decides the chain (thumb tip left of landmark 6, three fingers down) but the fourth finger is not up, the chain ends with no letter |
| ProcessWebcam.DetectLetter | server/secret_sauce/process_webcam.py:57-143 | No landmarks or a raise give ("", 0); confidence 0.95 iff four finger states, and then the letter is the chain's |
| ProcessWebcam.ShortListsDetectNothing | server/secret_sauce/process_webcam.py:70-85 | Twenty or fewer landmarks never reach the letter chain |
| HandTracking.MinOf | server/secret-sauce/main.py:247-249 | `min` is a lower bound attained by an element |
| HandTracking.MaxOf | server/secret-sauce/main.py:247-249 | `max` is an upper bound attained by an element |
| HandTracking.Midpoint | server/secret-sauce/main.py:349 | `(a + b) // 2` floors and lies between a and b |
| HandTracking.MidpointFloors | server/secret-sauce/main.py:349 | Floor division rounds down for negative sums too |
| HandTracking.Confirm | server/secret-sauce/main.py:547-581 | Model only gives the model letter. Agreement gives the letter. A disagreement uses a custom rule if one exists, else the geometry letter when it is in the top three. No model letter gives "" |
| HandTracking.RuleOverridesBoth | server/secret-sauce/main.py:376-403 | A custom rule can confirm a letter neither source proposed |
| HandTracking.HandDetector.constructor | server/secret-sauce/main.py:168-195 | No landmarks, no top three, no letter, confidence 0; the recognizer flag as loaded |
| HandTracking.HandDetector.FindPosition | server/secret-sauce/main.py:223-259 | An absent or out-of-range hand gives an empty list and no box. Otherwise the list holds the hand's points numbered in order, the box is the tightest around them, and with the recognizer the top three and best letter are stored |
| HandTracking.HandDetector.ReadLandmarks | server/secret-sauce/main.py:237-243 | The loop numbers each point by its place and collects its x and y coordinates |
| HandTracking.BoxOfCoordinates | server/secret-sauce/main.py:247-249 | The minima and maxima of the coordinate lists bound every point, and each side touches one |
| HandTracking.HandDetector.RecognizeGesture | server/secret-sauce/main.py:287-314 | A prediction's top three are stored and its first entry becomes the best letter and confidence; a failed or empty prediction keeps the old best guess |
| HandTracking.HandDetector.FingersUp | server/secret-sauce/main.py:327-343 | No landmarks give []; 1–20 landmarks raise; otherwise the thumb and four finger bits by the tip comparisons |
| HandTracking.HandDetector.DistanceMidpoint | server/secret-sauce/main.py:345-358 | Defined iff both indices are valid Python indices; the midpoint floors each coordinate |
| HandTracking.MainFrame | server/secret-sauce/main.py:415-594 | No landmarks give no hand; a raise while reading the fingers gives the warning; once the fingers are read (so at least 21 landmarks), the chain's letter and its confirmation are shown when the chain yields one, and the warning when it raises; four finger states always yield a letter |
| Ranking.InsertDescPerm | src/components/community/Leaderboards.tsx:119-120 | Insertion adds one element and keeps the rest: the multiset grows by it |
| Ranking.InsertDescElems | src/components/community/Leaderboards.tsx:119-120 | Every element after insertion is the new one or was already there |
| Ranking.InsertDescSorted | src/components/community/Leaderboards.tsx:119-120 | Inserting into a non-increasing sequence keeps it non-increasing |
| Ranking.InsertDescStable | src/components/community/Leaderboards.tsx:119-120 | Insertion keeps equal-key elements in order, the new one last |
| Ranking.SortDesc | src/components/community/Leaderboards.tsx:119-120 | The sort is a permutation of its input |
| Ranking.SortDescSorted | src/components/community/Leaderboards.tsx:119-120 | The sort's output is non-increasing by key |
| Ranking.SortDescStable | src/components/community/Leaderboards.tsx:119-120 | Elements with equal keys keep their input order (a stable sort) |
| Ranking.TopCut | src/components/community/Leaderboards.tsx:132 | An input element not among the first n sorted ones keys no higher than each of them |
| Ranking.Take | src/components/community/Leaderboards.tsx:132 | `slice(0, n)` is a prefix of length min(n, length) |
| Leaderboards.RoundedMean | src/components/community/Leaderboards.tsx:107-109 | `Math.round(sum / n)` is the nearest integer to the mean, halves up |
| Leaderboards.Score | src/components/community/Leaderboards.tsx:80-116 | xp and streak default to 0; lessons counts the keys; accuracy is the rounded mean, or 0 without letters |
| Leaderboards.RoundedMeanIsPercentage | src/components/community/Leaderboards.tsx:107-109 | The rounded mean of values in [0, 100] is in [0, 100] |
| Leaderboards.AccuracyScoreIsPercentage | src/components/community/Leaderboards.tsx:103-115 | A mean of percentages rounds to a percentage |
| Leaderboards.ScoreAll | src/components/community/Leaderboards.tsx:80-116 | One score per record, in order |
| Leaderboards.BuildUserMap | src/components/community/Leaderboards.tsx:70-75 | The `forEach` loop builds the lookup object of the fold |
| Leaderboards.UserMapLastWins | src/components/community/Leaderboards.tsx:70-75 | An id is looked up iff a profile has it, and it maps to the last such profile |
| Leaderboards.LookupUser | src/components/community/Leaderboards.tsx:123-129 | A missing profile gives the placeholder with the id and null fields |
| Leaderboards.Ranked | src/components/community/Leaderboards.tsx:121-131 | Each entry keeps its id and score, gets its user, and has rank position + 1 |
| Leaderboards.Leaderboard | src/components/community/Leaderboards.tsx:54-132 | No records give []; there are min(10, n) entries with ranks 1, 2, … |
| Leaderboards.LeaderboardAt | src/components/community/Leaderboards.tsx:119-132 | Entry i is the i-th sorted score with its user and rank i+1 |
| Leaderboards.LeaderboardSorted | src/components/community/Leaderboards.tsx:120 | Scores are non-increasing down the board |
| Leaderboards.LeaderboardEntryFromRow | src/components/community/Leaderboards.tsx:80-132 | Every entry is some record's user id and score |
| Leaderboards.LeaderboardEntryUser | src/components/community/Leaderboards.tsx:121-129 | An entry's user is the last profile with its id, or the placeholder when none has it |
| Leaderboards.LeaderboardKeepsTopScores | src/components/community/Leaderboards.tsx:119-132 | A record missing from the board scores no more than any entry, and the board then has ten entries |
| Leaderboards.FormatUserName | src/components/community/Leaderboards.tsx:184-197 | "Unknown User" without a user; else the username; else "First L." or "First"; else "Anonymous User"; never empty |
| Leaderboards.GetUserInitials | src/components/community/Leaderboards.tsx:200-212 | Both first characters when both names are set; else the username's first character upper-cased; else "?"; one or two characters |
| CommunityStats.TotalsAppend | src/components/community/CommunityStats.tsx:37-43 | Both totals add up over any split of the records |
| CommunityStats.TotalLessonsCoversRecords | src/components/community/CommunityStats.tsx:38-43 | Each record's completed-lesson count is part of the total, and the total is 0 exactly when no record has a completed lesson (a record without a map counting none) |
| CommunityStats.Bump | src/components/community/CommunityStats.tsx:51 | Incrementing a letter either updates its entry in place or appends it with count 1 |
| CommunityStats.MasteryCounts | src/components/community/CommunityStats.tsx:46-54 | The nested loops compute the tally of mastered entries, record by record |
| CommunityStats.BumpCount | src/components/community/CommunityStats.tsx:51 | An increment adds 1 to that letter's count and leaves every other count alone |
| CommunityStats.TallyEntriesCount | src/components/community/CommunityStats.tsx:48-53 | A user's entries add their mastered entries to each letter's count |
| CommunityStats.TallyCounts | src/components/community/CommunityStats.tsx:46-54 | Each letter's count is the number of entries for it with accuracy ≥ 80 |
| CommunityStats.MasteredInOne | src/components/community/CommunityStats.tsx:48-53 | With one entry per letter, a user adds 1 to a letter iff their accuracy for it is ≥ 80 |
| CommunityStats.MasteryCountIsUsers | src/components/community/CommunityStats.tsx:46-54 | A letter's count is the number of users whose accuracy for it is ≥ 80 |
| CommunityStats.MastersAreUsers | src/components/community/CommunityStats.tsx:46-54 | Mastered entries and mastering users coincide when letters are distinct per user |
| CommunityStats.BumpWellFormed | src/components/community/CommunityStats.tsx:51 | Increments keep letters distinct and counts positive, and add no letter but the incremented one |
| CommunityStats.TallyWellFormed | src/components/community/CommunityStats.tsx:46-54 | The tally lists each letter once, with a count of at least 1 |
| CommunityStats.TallyEntriesWellFormed | src/components/community/CommunityStats.tsx:48-53 | A user's entries keep the tally well formed |
| CommunityStats.MostMastered | src/components/community/CommunityStats.tsx:56-59 | At most five letters, and five whenever there are five |
| CommunityStats.MostMasteredFacts | src/components/community/CommunityStats.tsx:56-59 | The top five are non-increasing by count, each is a tallied letter, and a letter left out counts no more than any shown |
| CommunityStats.WeeklySigns | src/components/community/CommunityStats.tsx:63 | The weekly figure is 15 per lesson, capped at 10000 |
| CommunityStats.Compute | src/components/community/CommunityStats.tsx:22-73 | A null user count reads as 0; the weekly figure is capped; at most five letters |
| CommunityStats.ShownLettersMastered | src/components/community/CommunityStats.tsx:46-59 | Every shown letter was mastered by someone, and its count is its tally |
| CommunityStats.CountOfDistinct | src/components/community/CommunityStats.tsx:56-59 | In a well-formed tally, looking up an entry's letter gives its count |
| CommunityStats.SelectedRows | src/components/community/CommunityStats.tsx:30-32 | The query keeps each record's xp and completed lessons and drops the other columns |
| CommunityStats.ComputeAsWritten | src/components/community/CommunityStats.tsx:30-73 | The card computed from the selected columns |
| CommunityStats.TallyWithoutAccuracy | src/components/community/CommunityStats.tsx:48 | Records without accuracy maps tally nothing |
| CommunityStats.TotalsOfSelected | src/components/community/CommunityStats.tsx:30-43 | Dropping the unselected columns does not change the totals |
| CommunityStats.AsWrittenNeverShowsMastery | src/components/community/CommunityStats.tsx:30-59 | As written, the most-mastered list is always empty, and the totals are right |
| CommunityStats.RoundedShare | src/components/community/CommunityStats.tsx:142 | The rounded share is the nearest whole percent, never negative, and at least 100 once the count reaches the total |
| CommunityStats.Percentage | src/components/community/CommunityStats.tsx:142 | In [0, 100]; 100 when the count reaches the user count or when there are no users; otherwise the rounded share |
| LessonPage.LessonDataWellFormed | src/pages/Lesson.tsx:10-51 | Every lesson is stored under its own id and has at least four letters |
| LessonPage.LookupAsWritten | src/pages/Lesson.tsx:64-70 | The effect's test accepts the table's own ids and the names every object inherits |
| LessonPage.InheritedIdPassesTest | src/pages/Lesson.tsx:64-70 | "constructor" passes the test without being a lesson |
| LessonPage.Lookup | src/pages/Lesson.tsx:64-70 | Finds a lesson iff the id is one of the table's own, with letters |
| LessonPage.LookupsAgreeOnOwnKeys | src/pages/Lesson.tsx:64-70 | The two lookups agree except on inherited names |
| LessonPage.ProgressPercent | src/pages/Lesson.tsx:115 | Progress is in (0, 100] and reaches 100 exactly at the last letter |
| LessonPage.ProgressIncreases | src/pages/Lesson.tsx:115 | A later letter shows more progress |
| LessonPage.Page.constructor | src/pages/Lesson.tsx:58-62 | No lesson, index 0, no status, no attempts, camera off |
| LessonPage.Page.Load | src/pages/Lesson.tsx:64-70 | A known id sets the lesson; an unknown id leaves it and navigates to /lessons; the index is not reset |
| LessonPage.Page.NextLetter | src/pages/Lesson.tsx:72-80 | Moves on only with a lesson and before the last letter, then clears status and attempts; the index stays in range |
| LessonPage.Page.PreviousLetter | src/pages/Lesson.tsx:82-88 | Moves back only past the first letter, then clears status and attempts |
| LessonPage.Page.SignDetection | src/pages/Lesson.tsx:95-100 | Attempts grow by exactly 1 and the status is the draw's outcome |
| LessonPage.Page.ToggleCamera | src/pages/Lesson.tsx:102-104 | Flips the camera flag only |
| LessonPage.Page.FinishLesson | src/pages/Lesson.tsx:90-92 | Navigates to /lessons |
| LessonPage.Page.CurrentLetter | src/pages/Lesson.tsx:114 | The shown letter is one of the lesson's |
| LessonPage.Page.Progress | src/pages/Lesson.tsx:115 | The bar's value is in (0, 100], 100 exactly on the last letter |
| LessonPage.WalkFirstLesson | src/pages/Lesson.tsx:72-100 | In a four-letter lesson "next" stops at the last letter (100%), and "previous" steps back with attempts cleared |
| TypedText.Step | src/components/TypedText.tsx:24-61 | A tick keeps the word index in range |
| TypedText.InitialInv | src/components/TypedText.tsx:19-22 | The initial state satisfies the invariant |
| TypedText.StepEffect | src/components/TypedText.tsx:29-57 | Typing appends the word's next character and pauses on the full word; pausing turns to deleting; deleting drops the last character and from one character moves to the next word; the invariant is kept |
| TypedText.EmptyWordStalls | src/components/TypedText.tsx:31-34 | An empty word pauses at once and then deletes forever without advancing |
| TypedText.Steps | src/components/TypedText.tsx:24-61 | Any number of ticks keeps the word index in range |
| TypedText.StepsAdd | src/components/TypedText.tsx:24-61 | a + b ticks are a ticks then b ticks |
| TypedText.TypingPhase | src/components/TypedText.tsx:48-57 | Typing from a prefix reaches the paused full word in as many ticks as characters remain |
| TypedText.DeletingPhase | src/components/TypedText.tsx:29-38 | Deleting j characters takes j ticks and ends on the next word with empty text |
| TypedText.FullCycle | src/components/TypedText.tsx:29-57 | A non-empty word takes 2·length + 1 ticks to type, show and delete, then the next word starts |
| TypedText.StepEffectAny | src/components/TypedText.tsx:29-57 | Any tick from a state satisfying the invariant keeps it |
| TypedText.Typewriter.constructor | src/components/TypedText.tsx:19-22 | Starts at word 0 with empty text, neither deleting nor paused |
| TypedText.Typewriter.Tick | src/components/TypedText.tsx:29-57 | The timer callback leaves the state the step function gives, and keeps the invariant |

## Left out

- All Supabase reads and writes, and the progress fetch effect (src/contexts/ProgressContext.tsx:35-81). These are network I/O. The records they return are inputs; a write's outcome is a success flag.
- The Supabase write inside `saveProgress`. The model records every record handed to it.
- `WebSocket` transport, `setInterval`/`setTimeout` scheduling and `JSON.parse`/`stringify`. Events are method calls, and an inbound message arrives already classified.
- Canvas drawing and `toDataURL`. The data URL is a parameter, and whether drawing throws is a flag.
- Floating point:
  - Frame rate and quality are reals.
  - Stream width and height are integers. The settings inputs read them with `Number(value)`, which can give a fraction, a negative number, or 0 for an empty field; the canvas then converts that value itself. Only the integer values the canvas ends up with are modelled.
  - `Math.round(0.7a + 0.3c)` is computed exactly on integers, so it can differ from floating point at an exact .5.
  - Both percentages are computed exactly.
  - Confidences are reals.
- Video `play()`, `onloadedmetadata` and `onerror` in `startCamera`, and the `catch` branches of `startCamera`/`startStreaming`. The modelled code paths in them do not throw.
- React re-rendering and stale closures, except the mount timer's `startCamera`, which sees the first render's `isActive == false`.
- StreamingController.Controller.StartCameraSeeing: the camera request and its settling are one atomic step. Two starts that overlap across the `await` (the mount timer's and a click on Start) would both find no stream held, and the second would overwrite the first stream without stopping its tracks, leaving the camera on. That interleaving is not modelled, so the contract's "an old stream is stopped before it is replaced" holds only for starts that do not overlap.
- JavaScript numbers are doubles, and the model takes them as exact integers. It does not capture two things:
  - precision lost past 2^53: `parseInt` rounds the lesson number, so "cat-9007199254740993" waits for "cat-9007199254740991" in the code but for "cat-9007199254740992" in Progress.IsLessonLocked and Progress.LockedByPredecessor; XP and lesson totals past 2^53 also round;
  - the exponent form `${n}` prints from 1e21 on, so JsText.ParseIntOfIntToString holds for the code only below 1e21.
- WebcamStreaming.TimerDelay: periods of 2^31 ms or more, which the browser's integer conversion wraps, are taken as they are.
- Malformed date strings in the streak update. Days are day numbers.
- The mediapipe/cv2 capture, drawing, FPS and `math.hypot` code in server/secret-sauce/main.py. server/secret_sauce/asl_recognition.py is not part of this model (TensorFlow inference); its top three and best letter are parameters.
- `int()` pixel conversion in `findPosition`. Coordinates arrive as integers.
- HandTracking.HandDetector.FindPosition: requires a non-empty point list for the selected hand, because Python's `min([])` on an empty hand would raise.
- JsText.UpperAscii: only ASCII letters are upper-cased. Unicode case mapping (for example 'ß' to "SS") is not modelled, so `GetUserInitials` may show a longer string for such names.
- Strings are sequences of Unicode scalar values, not UTF-16 code units. `substring` and `charAt` on astral characters are not modelled.
- Object key order in `letterCounts`: entries are listed in insertion order. That is JavaScript's order for non-numeric keys such as letters. Integer-like keys would come first.
- Inherited `Object.prototype` names (such as `constructor` or `toString`) as keys. Every object lookup is modelled as an own-key lookup. The code reads inherited names in these places:
  - the leaderboard's `userMap` lookup by user id;
  - `!!completedLessons[id]` in `isLessonCompleted` (Progress.IsLessonCompleted);
  - `letterAccuracy[letter] || 0` in `updateLetterAccuracy` (Progress.WithLetterAccuracy);
  - `letterCounts[letter] || 0` in the community letter tally (CommunityStats.Bump);
  - `lessonData[id]` in the lesson page's load effect. LessonPage.Page.Load uses the own-key LessonPage.Lookup instead, and the "## Findings" row for src/pages/Lesson.tsx:64-70 shows what the inherited names do there.
- The page component's rendering and toasts.
- TypedText.Typewriter.Tick: requires a current word, because with an empty word list the callback throws on `undefined.substring`.
- Changing the `words` prop or the delays of a mounted typewriter.
- LessonPage.Page.Load: models a change of route id on a mounted page without resetting the index, as the code does. The index bound is proved only for the first load.

## Findings

| source | as written | input that shows it | evidently intended | confidence | as-written member | corrected member |
|---|---|---|---|---|---|---|
| src/components/community/CommunityStats.tsx:30-32 | The query selects only `xp_earned, completed_lessons`, so `user.letter_accuracy` is undefined for every record and the most-mastered list is always empty | Any records, for example one user with `letter_accuracy = {A: 95}`: the card shows no mastered letters | Count, per letter, the users whose accuracy is at least 80 | high (not executed) | CommunityStats.AsWrittenNeverShowsMastery | CommunityStats.MasteryCountIsUsers |
| src/pages/Lesson.tsx:64-70 | `lessonData[id]` also finds names inherited from `Object.prototype`, so an id like "constructor" neither redirects nor yields a lesson with letters | The route `/lesson/constructor` | Accept only the table's own lesson ids and redirect every other id to /lessons | high (not executed) | LessonPage.InheritedIdPassesTest | LessonPage.Lookup |
