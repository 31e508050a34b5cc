# Tab audio capture extension: background session and popup view

This project models the two scripts of a browser extension. The extension
captures the audio of the current tab and streams it over a WebSocket to a
local sink at `ws://localhost:8765`. A popup shows the state of the
recording.

- **The background script** (`extension/background.js`) keeps one recording
  session in module-level variables: the socket, the media recorder, the
  start time, the captured stream, the duration timer, the statistics
  (`recordingStats`) and the current state (`currentState`).
  - It answers three messages: `startCapture`, `stopCapture` and
    `getStatus`.
  - It reacts to the browser's callbacks: the capture result, the socket's
    `onopen`, `onerror` and `onclose`, the recorder's `ondataavailable`, the
    one-second timer and the runtime's `onSuspend`.
  - `cleanupResources` releases each handle it finds and resets the state.
    It runs on a start, a stop, a denied capture, a socket that cannot be
    created, a socket error, a close during a recording, and suspension.
  - Two paths throw without running it. The first is `onopen` on a stream
    without an audio track, which throws after it marks the session
    recording. The second is a non-empty chunk that arrives with no socket,
    which throws and changes nothing.
  - A non-empty chunk on a socket that is held but not open is dropped
    without an error, a report or a cleanup.
  - It broadcasts `statusUpdate` messages to the popup.
- **The popup** (`extension/popup.js`) renders a status payload: the status
  line, the enabled button, the duration as `HH:MM:SS`, the format, the
  sample rate and the channel count.

The Dafny files:

- `status.dfy` (module `Status`): the payload the two scripts exchange.
- `session.dfy` (module `Session`): the globals as one value `Globals`, with
  one function per handler.
  - Browser calls and broadcasts are appended, in order, to an effect log.
  - `Step` and `Run` apply a sequence of callbacks.
  - The lemmas state what each handler does, the invariants it keeps, and a
    whole start–stream–stop scenario.
- `background.dfy` (module `Background`): the script in its own imperative
  form.
  - A class `BackgroundScript` has one field per global variable and one
    method per handler.
  - Each method is proved to leave the fields as the matching `Session`
    function says.
  - The cleanup stops the tracks of a `MediaStream` in place, in a loop over
    its `tracks` array.
- `popup.dfy` (module `Popup`): `formatDuration`, with JavaScript's `Math.floor`,
  truncating `%`, `toString` and `padStart` written out, and `updateUI` as
  a function from a status to a `View`.
  - `ParseDuration` reads the text back.
  - The lemmas prove the round trip, the length of the text, and what each
    view field shows.
- `extension.dfy` (module `Extension`): both scripts together.
  - The popup shows the status of the last broadcast in the log.
  - `InSync` says that this is the status `getStatus` would return.

The model follows the code throughout. The code keeps one global
session, and its cleanup closes the socket before it stops the recorder.

## Model

| member | source | states |
|---|---|---|
| Session.Initial | extension/background.js:1-18 | the script starts with no handle, no start time, zero statistics, not recording, no error |
| Session.StopAll | extension/background.js:54-57 | every track is stopped and disabled, in place and in order, keeping its settings |
| Session.StatusOf | extension/background.js:24-25 | the status payload: the current state and statistics; no contract of its own, and `Background.BackgroundScript.GetStatus` is proved to answer with it |
| Session.Broadcast | extension/background.js:20-28 | `updatePopup`: appends one `statusUpdate` snapshot to the log; no contract of its own, and `Extension.BroadcastSyncs` proves the popup then shows the current status |
| Session.Started | extension/background.js:31 | the truthiness of `startTime`: present and not 0; no contract of its own, and `Session.UpdateDurationWrites` states its use |
| Session.UpdateDuration | extension/background.js:30-35 | the timer callback; no contract of its own, and `Session.UpdateDurationWrites`, `Session.DurationMonotone` and `Session.RunningTimerTicks` state what it does |
| Session.StartCapture | extension/background.js:80-87 | the `startCapture` message; no contract of its own, and `Session.StartCleansFirst` states it |
| Session.CaptureResult | extension/background.js:87-148 | the capture callback, with the thrown message of `new WebSocket` as a parameter; no contract of its own, and `Session.CaptureDenied`, `Session.CaptureGrantedOpensSocket` and `Session.CaptureSocketFailure` state its three branches |
| Session.SocketOpen | extension/background.js:93-122 | the socket's `onopen`, given the first track's sample rate or its absence; no contract of its own, and `Session.OpenStartsRecording` and `Session.OpenWithoutTrack` state both cases |
| Session.OpenOutcome | extension/background.js:99-100 | `onopen` throws exactly when there is no audio track; no contract of its own, and `Session.OpenWithoutTrack` and `Background.BackgroundScript.OnOpen` state it |
| Session.Chunk | extension/background.js:109-115 | the recorder's `ondataavailable`; no contract of its own, and `Session.ChunkCounts`, `Session.ChunkAfterCleanupThrows` and `Session.CountedOnlyWhileRecording` state it |
| Session.SocketError | extension/background.js:124-128 | the socket's `onerror`; no contract of its own, and `Session.RunsCleanupCleans` and `Extension.ErrorLeavesPopupRecording` state it |
| Session.SocketClose | extension/background.js:131-137 | the socket's `onclose`; no contract of its own, and `Session.CloseIgnoredUnlessRecording` and `Session.ErrorThenClose` state it |
| Session.StopCapture | extension/background.js:150-152 | the `stopCapture` message; no contract of its own, and `Session.StopCleansAndReports` states it |
| Session.Suspend | extension/background.js:162-164 | the runtime's `onSuspend`; no contract of its own, and `Session.SuspendCleans` states it |
| Session.Step | extension/background.js:79-164 | one callback of the script, dispatched to its handler; a status request changes nothing; no contract of its own, and `Session.StepValid` states the invariant it keeps |
| Session.Run | extension/background.js:79-164 | callbacks applied one by one in order; no contract of its own, and `Session.RunAppend`, `Session.RunValid` and `Session.DataSizeMonotone` state what it keeps |
| Session.ReleaseCalls | extension/background.js:37-65 | the cleanup closes the socket exactly when one is held, stops the recorder exactly when it is held and not inactive, clears the timer exactly when it is set, and makes no other call |
| Session.ReleaseSocket | extension/background.js:39-42 | the socket is closed only when present, is absent (and so not open) afterwards, and nothing else changes |
| Session.ReleaseRecorder | extension/background.js:45-50 | a recorder that is not inactive is stopped; the recorder is absent afterwards, and nothing else changes |
| Session.StopTrack | extension/background.js:55-56 | a stopped track is not live and not enabled, and keeps its sample rate |
| Session.ReleaseStream | extension/background.js:53-59 | the stream is dropped when held; no contract of its own, and `Background.BackgroundScript.ReleaseStream` states that its tracks are stopped in place |
| Session.ReleaseTimer | extension/background.js:62-65 | the timer is cleared only when set, is absent afterwards, and nothing else changes |
| Session.Reset | extension/background.js:67-76 | the final reset of start time, recording flag and statistics; no contract of its own, and `Session.Cleanup` states it |
| Session.Cleanup | extension/background.js:37-77 | after cleanup every handle is gone, the start time is cleared, not recording, statistics zero, error kept; the log gains exactly the release calls |
| Session.CleanupIdempotent | extension/background.js:37-77 | cleaning up twice is the same as once |
| Session.UpdateDurationWrites | extension/background.js:30-35 | a tick while started and recording sets the duration to the floor of elapsed milliseconds over 1000 and broadcasts, changing nothing else; otherwise it does nothing |
| Session.DurationMonotone | extension/background.js:30-35 | ticks at non-decreasing times never make the duration go back |
| Session.StartCleansFirst | extension/background.js:80-87 | a start cleans up, keeps the last error, then requests the capture |
| Session.CaptureDenied | extension/background.js:144-148 | a missing stream is reported with its message, broadcast, then cleaned up |
| Session.CaptureGrantedOpensSocket | extension/background.js:80-91 | after a start, a granted stream is held and a socket to the sink URL is opened, with no recorder, start time or timer and zero statistics yet; the log is the cleanup's calls, the capture request and the socket |
| Session.CaptureSocketFailure | extension/background.js:139-143 | an exception while opening the socket is broadcast with its message, then the held stream is cleaned up with the message kept |
| Session.SampleRate | extension/background.js:105 | the sample rate is the track's setting when positive, and 48000 when the setting is 0 |
| Session.OpenStartsRecording | extension/background.js:93-122 | onopen sets recording, no error, the start time, fresh statistics with the recorder's format, sample rate and 2 channels; starts the recorder with a 100 ms slice, broadcasts, then sets a 1000 ms timer |
| Session.OpenWithoutTrack | extension/background.js:94-100 | with no audio track onopen throws with the session marked recording, no timer started, statistics unchanged, nothing called or broadcast, and an inactive recorder that a later cleanup does not stop |
| Session.ChunkOutcome | extension/background.js:110 | a chunk throws exactly when it is non-empty and no socket is held, and a chunk that throws changes nothing, whatever the `readyState` |
| Session.ChunkCounts | extension/background.js:109-115 | a non-empty chunk on an open socket adds its size to the count, is sent and broadcast; any other chunk changes nothing |
| Session.ChunkAfterCleanupThrows | extension/background.js:109-115 | a chunk that arrives after cleanup throws exactly when non-empty and changes nothing |
| Session.CloseIgnoredUnlessRecording | extension/background.js:131-137 | onclose changes the state exactly when recording, then it reports the closed socket and cleans up |
| Session.ErrorThenClose | extension/background.js:124-137 | after onerror the following onclose changes nothing and the failure message stays |
| Session.StopCleansAndReports | extension/background.js:150-152 | a stop cleans up and then broadcasts not-recording, the kept error and zero statistics |
| Session.SuspendCleans | extension/background.js:162-164 | suspension cleans up without broadcasting |
| Session.StepValid | extension/background.js:93-121 | every handler keeps: recording implies a start time and a recorder, and a set timer and an open socket imply recording |
| Session.RunValid | extension/background.js:79-164 | any sequence of callbacks keeps that invariant |
| Session.ReachableValid | extension/background.js:1-164 | every state reached from the initial globals keeps that invariant |
| Session.RunningTimerTicks | extension/background.js:30-35 | in such a state each tick of a running timer with a non-zero start time writes the elapsed seconds and broadcasts them |
| Session.CountedOnlyWhileRecording | extension/background.js:91-115 | in such a state, with a socket reported open only after its `onopen`, an event that raises the byte count is a chunk that arrives while recording, and a chunk changes nothing when not recording |
| Session.NoBytesBeforeOpen | extension/background.js:91-115 | from such a state that is not recording, a run with no `onopen` never starts a recording and never raises the byte count |
| Session.RunsCleanupCleans | extension/background.js:37-77 | every handler that runs the cleanup leaves no handle and no recording |
| Session.DataSizeDropsOnlyOnReset | extension/background.js:109-115 | the byte count only drops on a cleanup or a new onopen |
| Session.DataSizeMonotone | extension/background.js:109-115 | between resets the byte count never decreases |
| Session.SetupScenario | extension/background.js:80-122 | start, granted stream and open socket leave a recording with a socket and no bytes |
| Session.ChunkScenario | extension/background.js:109-115 | three chunks of 10, 20, 30 bytes on an open socket add 60 bytes |
| Session.StreamScenario | extension/background.js:79-152 | start, open, three chunks count 60 bytes while recording; a stop then leaves the session clean |
| Session.SocketCloseReported | extension/background.js:131-136 | the corrected onclose ends in the same state as the original, with the broadcast after the release calls |
| Session.SocketErrorReported | extension/background.js:124-128 | the corrected onerror ends in the same state as the original, with the broadcast after the release calls |
| Background.BackgroundScript.constructor | extension/background.js:1-18 | the fields start as the initial globals |
| Background.BackgroundScript.UpdatePopup | extension/background.js:20-28 | one broadcast of the current state and statistics |
| Background.BackgroundScript.UpdateDuration | extension/background.js:30-35 | the fields end as the tick function says |
| Background.BackgroundScript.StopTracks | extension/background.js:54-57 | the loop leaves the track array stopped and disabled, element by element |
| Background.BackgroundScript.ReleaseSocket | extension/background.js:39-42 | the fields end as the socket release says |
| Background.BackgroundScript.ReleaseRecorder | extension/background.js:45-50 | the fields end as the recorder release says |
| Background.BackgroundScript.ReleaseStream | extension/background.js:53-59 | the held stream's tracks are all stopped in place and the stream is dropped |
| Background.BackgroundScript.ReleaseTimer | extension/background.js:62-65 | the fields end as the timer release says |
| Background.BackgroundScript.CleanupResources | extension/background.js:37-77 | the fields end as `Cleanup` says and the old stream's tracks are stopped |
| Background.BackgroundScript.StartCapture | extension/background.js:80-87 | the fields end as the start function says |
| Background.BackgroundScript.OnCaptureResult | extension/background.js:87-148 | the fields end as the capture result says; the stream's tracks are stopped when a failure cleans up, untouched when the socket opens |
| Background.BackgroundScript.OnOpen | extension/background.js:93-122 | the fields end as onopen says for the stream's first track; it throws exactly when the stream has no track |
| Background.BackgroundScript.OnDataAvailable | extension/background.js:109-115 | the fields and the thrown error are as the chunk functions say |
| Background.BackgroundScript.OnSocketError | extension/background.js:124-128 | the fields end as onerror says and the stream's tracks are stopped |
| Background.BackgroundScript.OnSocketClose | extension/background.js:131-137 | the fields end as onclose says; the tracks are stopped exactly when recording |
| Background.BackgroundScript.StopCapture | extension/background.js:150-152 | the fields end as the stop function says |
| Background.BackgroundScript.GetStatus | extension/background.js:153-157 | the reply carries the current state and statistics; nothing changes |
| Background.BackgroundScript.OnSuspend | extension/background.js:162-164 | the fields end as `Cleanup` says |
| Background.BackgroundScript.OnMessage | extension/background.js:79-159 | dispatch on the action: start and stop run their handlers and stop the held stream's tracks; getStatus replies and changes nothing, the tracks included; any other action does nothing |
| Background.FirstTrackRate | extension/background.js:99-100 | `onopen` throws exactly when the stream has no audio track; otherwise the rate it reads is the first track's setting |
| Popup.NatToString | extension/popup.js:7 | `toString` of a number yields at least one decimal digit |
| Popup.NatToStringValue | extension/popup.js:7 | the digits read back as the number, have no leading zero, and are at most two exactly below 100 |
| Popup.LeadingZerosValue | extension/popup.js:7 | zeros put in front by `padStart` do not change the value |
| Popup.PadStart | extension/popup.js:7 | `padStart` keeps a long enough string, otherwise fills it on the left up to the width |
| Popup.JsRem | extension/popup.js:5-6 | JavaScript's `%` has the sign of the dividend and is smaller than the divisor in magnitude |
| Popup.JsRemTruncates | extension/popup.js:5-6 | JavaScript's `%` leaves the remainder of the quotient truncated toward zero |
| Popup.IntToString | extension/popup.js:7 | `toString` of an integer: a minus sign before the digits of a negative one; no contract of its own, and `Popup.FormatDurationNegative` shows its use |
| Popup.ClockOf | extension/popup.js:4-6 | the three fields, with `Math.floor` for the hours and JavaScript's `%` for the others; no contract of its own, and `Popup.ClockOfNonNegative` states it |
| Popup.Pad2 | extension/popup.js:7 | one field padded to two characters with zeros; no contract of its own, and `Popup.Pad2Value` states it |
| Popup.FormatDuration | extension/popup.js:3-8 | `formatDuration`; no contract of its own, and `Popup.FormatDurationRoundTrip`, `Popup.FormatDurationInjective`, `Popup.FormatDurationLength`, `Popup.FormatDurationZero` and `Popup.FormatDurationNegative` state it |
| Popup.ParseDuration | extension/popup.js:3-8 | reads a duration text back: fields split at the last two colons; no contract of its own, and `Popup.ParseFields` and `Popup.FormatDurationRoundTrip` prove it inverts `formatDuration` |
| Popup.ClockOfNonNegative | extension/popup.js:4-6 | for a non-negative count: whole hours, minutes and seconds below 60, summing back to the count |
| Popup.Pad2Value | extension/popup.js:7 | a field pads to at least two digits that read back as it, exactly two below 100 |
| Popup.ParseFields | extension/popup.js:7 | three fields joined by colons split back field by field |
| Popup.FormatDurationRoundTrip | extension/popup.js:3-8 | the text of a non-negative count reads back as that count |
| Popup.FormatDurationInjective | extension/popup.js:3-8 | two non-negative counts show the same text exactly when equal |
| Popup.FormatDurationLength | extension/popup.js:3-8 | the text has eight characters exactly below 100 hours, more from there on |
| Popup.FormatDurationZero | extension/popup.js:3-8 | zero shows as `00:00:00` |
| Popup.FormatDurationNegative | extension/popup.js:3-8 | a negative count shows each field with its own sign: -5 shows as `-1:-1:-5` |
| Popup.ErrorText | extension/popup.js:32 | the error template around the message; no contract of its own, and `Popup.StatusTextShowsError` states that the status text carries the message |
| Popup.Truthy | extension/popup.js:32 | JavaScript truthiness of `state.error`: present and not empty; no contract of its own, and `Popup.StatusTextShowsError` uses it |
| Popup.StatusText | extension/popup.js:25-35 | the text of the status line; no contract of its own, and `Popup.StatusTextShowsError` states all three cases |
| Popup.UpdateUI | extension/popup.js:18-41 | `updateUI` as a function from a status to a `View`; no contract of its own, and `Popup.ViewShowsMode`, `Popup.ViewShowsStats` and `Popup.ZeroStatsView` state each field |
| Popup.ZeroStatsView | extension/popup.js:38-41 | reset statistics show `00:00:00`, `audio/webm`, `0 Hz` and `0` channels |
| Popup.ViewShowsMode | extension/popup.js:25-35 | exactly one button is enabled; start is disabled, the class is `recording` and the text says recording, each exactly while recording |
| Popup.StatusTextShowsError | extension/popup.js:25-35 | the error text appears exactly when not recording with a non-empty error, and carries the message; the recording text appears exactly while recording; the ready text appears otherwise |
| Popup.ViewShowsStats | extension/popup.js:38-41 | the duration reads back as the count; the format is the recorder's when it has one and `audio/webm` when it is empty; the sample rate (before ` Hz`) and the channels read back |
| Extension.LastShown | extension/popup.js:50-55 | the popup shows a status that was broadcast, and nothing before the first broadcast |
| Extension.LastShownAfter | extension/popup.js:50-55 | calls after a broadcast that are not broadcasts leave it shown |
| Extension.BroadcastSyncs | extension/background.js:20-28 | after a broadcast the popup shows the current state |
| Extension.CleanupAfterBroadcast | extension/background.js:37-77 | the cleanup broadcasts nothing, so the popup keeps the status of the broadcast before it |
| Extension.StopShowsReady | extension/background.js:150-152 | after a stop the popup is in step: ready, start enabled, zero duration, default format, kept error shown |
| Extension.OpenShowsRecording | extension/background.js:93-122 | after onopen the popup is in step: recording, stop enabled, the format, sample rate and 2 channels |
| Extension.ChunkSyncs | extension/background.js:109-115 | a sent chunk keeps the popup in step, showing the new byte count |
| Extension.TickSyncs | extension/background.js:30-35 | a tick keeps the popup in step and the shown duration reads back as the elapsed whole seconds |
| Extension.OpenWithoutTrackUnseen | extension/background.js:94-100 | onopen without an audio track broadcasts nothing, so a popup in step with a stopped script stops being in step once the script marks itself recording |
| Extension.CloseLeavesPopupRecording | extension/background.js:131-136 | as written, onclose while recording leaves the popup showing a running recording after the script has stopped |
| Extension.ErrorLeavesPopupRecording | extension/background.js:124-128 | as written, onerror while recording leaves the popup showing a running recording after the script has stopped |
| Extension.ReportedCloseShowsError | extension/background.js:131-136 | broadcasting after the cleanup keeps the popup in step, showing the close error with start enabled |
| Extension.ReportedErrorShowsError | extension/background.js:124-128 | broadcasting after the cleanup keeps the popup in step, showing the socket error with start enabled |

## Left out

- The sink (`server.py`) is not part of this model.
- `formatBytes` (popup.js:10-16) is not modelled, because it computes with floating-point `Math.log`, `Math.pow` and `toFixed`. The view has no data-size field.
- DOM wiring (popup.js:45-63) is not modelled. The page-load `getStatus` request, the `statusUpdate` listener and the two click handlers only send or render messages already modelled by `OnMessage` and `UpdateUI`. `LastShown` stands for what the listener displays.
- The captured `MediaStream` is a modelled object whose `tracks` the cleanup stops in place, and the recorder's state is one of the globals. The other browser APIs are parameters of the callbacks.
  - The capture result is a stream or `null`.
  - An exception from `new WebSocket` is its message.
  - `mediaRecorder.mimeType` and the time of `Date.now()` are values passed in.
  - The socket's `readyState` is a value passed with each chunk. Nothing forces it to agree with the globals. `Session.HonestReadyState` states the browser's promise that it is `OPEN` only once the socket's `onopen` has fired. `Session.CountedOnlyWhileRecording` and `Session.NoBytesBeforeOpen` assume that promise.
  - The chunk itself is only its size; the bytes sent are not modelled.
- Asynchronous scheduling: each callback runs to completion as one `Step`, in the order of the event sequence.
  - The model does not decide which orders the browser can produce.
  - The model does not decide whether the recorder's final chunk after `stop()` arrives. `ChunkAfterCleanupThrows` says what happens if it does.
  - Like the code, callbacks carry no identity of the socket or recorder that fired them. An old socket's late `onclose` acts on the current globals.
- Uncaught exceptions other than two `TypeError`s are not modelled.
  - The two that are modelled: a non-empty chunk with no socket, and `onopen` with no audio track.
  - The exception of `new WebSocket`, caught at background.js:139-143, is modelled as the `socketFailure` of `Session.CaptureResult`.
  - Left out: `new MediaRecorder` or `start` throwing, and a `stop` that throws.
- The recorder is created inactive and started by `onopen`; nothing pauses it (`Paused` is never produced) and no event lets it go inactive on its own, such as its track ending. With the model's events, the branch at background.js:46 that skips `stop()` is reached only after an `onopen` without an audio track.
- The one `tracks` array of a `MediaStream` stands for both `getTracks()` (background.js:54) and `getAudioTracks()` (background.js:99). They agree because the capture asks for audio only (background.js:85-86).
- A track setting without a sample rate is modelled as 0, which `||` replaces by 48000. A non-numeric setting is not modelled.
- Numbers are unbounded integers. JavaScript doubles are exact for the sizes and times involved, and `recordingStats.dataSize` is never near 2^53.
- The message payload is a snapshot of `currentState` and `recordingStats` taken when the message is sent. This matches the serialisation `sendMessage` performs.
- `Session.SocketCloseReported` and `Session.SocketErrorReported` are kept beside the faithful handlers. `Step` uses the handlers as written.

## Findings

| source | as written | input that shows it | evidently intended | confidence | as-written member | corrected member |
|---|---|---|---|---|---|---|
| extension/background.js:131-136 | `onclose` sets the error, broadcasts, then cleans up, so the last `statusUpdate` still says `isRecording: true` | the socket closes while recording and no later broadcast arrives: the popup shows "录制中" with start disabled, while the script has stopped | broadcast after the cleanup, so the popup shows the close error with start enabled | not executed | Extension.CloseLeavesPopupRecording | Extension.ReportedCloseShowsError |
| extension/background.js:124-128 | `onerror` sets the error, broadcasts, then cleans up; the same stale `isRecording: true` is the last broadcast | the socket fails while recording | broadcast after the cleanup | not executed | Extension.ErrorLeavesPopupRecording | Extension.ReportedErrorShowsError |
