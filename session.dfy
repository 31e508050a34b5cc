/**
 * The single recording session of the background script, as a value.
 *
 * `Globals` holds every module-level variable of the script: the socket
 * handle, the recorder, the start timestamp, the captured stream, the
 * duration timer, the statistics and the current state. The browser objects
 * are reduced to what the script looks at: the socket and the timer are
 * present or absent, with whether the socket has opened, the recorder is absent or in one of its three states,
 * the stream is a reference to a `MediaStream`. The calls the script makes
 * on them (close, stop, send, clearInterval, a `statusUpdate` broadcast)
 * are appended to `log` in the order they are made.
 *
 * Each callback of the script is one function from the old globals (and
 * what the browser delivers with the callback) to the new globals.
 */
module Session {
  import opened Status

  const SOCKET_URL := "ws://localhost:8765"
  /** `mediaRecorder.start(100)`: a chunk every 100 ms. */
  const TIMESLICE_MS := 100
  /** `setInterval(updateDuration, 1000)`. */
  const TIMER_PERIOD_MS := 1000
  const DEFAULT_SAMPLE_RATE := 48000
  const CHANNELS := 2
  const SOCKET_FAILED := "WebSocket连接失败"
  const SOCKET_CLOSED := "WebSocket连接已关闭"
  const NO_STREAM := "无法获取音频流"

  /** `MediaRecorder.state`. */
  datatype RecorderState = Inactive | Recording | Paused

  /** `WebSocket.readyState`. */
  datatype ReadyState = Connecting | Open | Closing | Closed

  /** A media track: its reported sample rate (0 when the setting is
      missing, both being falsy), whether it is live, and `enabled`. */
  datatype Track = Track(sampleRate: nat, live: bool, enabled: bool)

  /** The captured stream. Its tracks are objects the cleanup changes in place. */
  class MediaStream {
    const tracks: array<Track>

    constructor(ts: seq<Track>)
      ensures fresh(tracks) && tracks[..] == ts
    {
      tracks := new Track[|ts|](i requires 0 <= i < |ts| => ts[i]);
    }
  }

  /** `track.stop(); track.enabled = false`. */
  function StopTrack(t: Track): (r: Track)
    ensures !r.live && !r.enabled && r.sampleRate == t.sampleRate
  {
    t.(live := false, enabled := false)
  }

  /** Every track of `ts`, stopped and disabled, in the same order. */
  function StopAll(ts: seq<Track>): (r: seq<Track>)
    ensures |r| == |ts|
    ensures forall i :: 0 <= i < |ts| ==> r[i] == StopTrack(ts[i])
  {
    seq(|ts|, i requires 0 <= i < |ts| => StopTrack(ts[i]))
  }

  /** The calls the script makes on the browser, in order. */
  datatype Effect =
    | CloseSocket
    | StopRecorder
    | ClearDurationTimer
    | RequestCapture
    | OpenSocket(url: string)
    | StartRecorder(timesliceMs: nat)
    | SetDurationTimer(periodMs: nat)
    | Send(size: nat)
    | StatusUpdate(status: Status)

  /** What a callback does when it ends: normally, or by throwing a `TypeError`. */
  datatype Outcome = Completed | TypeError

  /** `socketOpen`: the held socket's `readyState` has reached `OPEN`, which
      it does only as its `onopen` fires. */
  datatype Globals = Globals(
    socket: bool,
    socketOpen: bool,
    recorder: Option<RecorderState>,
    startTime: Option<int>,
    stream: MediaStream?,
    timer: bool,
    stats: Stats,
    isRecording: bool,
    error: Option<string>,
    log: seq<Effect>)

  /** The globals when the script is loaded. */
  function Initial(): (g: Globals)
    ensures IsClean(g) && g.error == None && g.log == []
  {
    Globals(false, false, None, None, null, false, ZERO_STATS, false, None, [])
  }

  /** No handle is held and status and statistics are reset. */
  predicate IsClean(g: Globals) {
    && !g.socket && !g.socketOpen && g.recorder == None && g.stream == null && !g.timer
    && g.startTime == None && !g.isRecording && g.stats == ZERO_STATS
  }

  /** A state the script can reach: the recording flag is only ever set
      together with the start time and a recorder, and the timer and an
      open socket only while recording. */
  predicate Valid(g: Globals) {
    && (g.isRecording ==> g.startTime.Some? && g.recorder.Some?)
    && (g.timer ==> g.isRecording)
    && (g.socketOpen ==> g.isRecording)
  }

  /** The status object the script sends or answers with. */
  function StatusOf(g: Globals): Status {
    Status(RecordingState(g.isRecording, g.error), g.stats)
  }

  /** `updatePopup`: broadcast the current state and statistics. */
  function Broadcast(g: Globals): Globals {
    g.(log := g.log + [StatusUpdate(StatusOf(g))])
  }

  function SocketCalls(g: Globals): seq<Effect> {
    if g.socket then [CloseSocket] else []
  }

  function RecorderCalls(g: Globals): seq<Effect> {
    if g.recorder.Some? && g.recorder.value != Inactive then [StopRecorder] else []
  }

  function TimerCalls(g: Globals): seq<Effect> {
    if g.timer then [ClearDurationTimer] else []
  }

  /** The release calls `cleanupResources` makes, in its order: close the
      socket, stop the recorder unless it is inactive, clear the timer. */
  function ReleaseCalls(g: Globals): (calls: seq<Effect>)
    ensures |calls| <= 3
    ensures CloseSocket in calls <==> g.socket
    ensures StopRecorder in calls <==> g.recorder.Some? && g.recorder.value != Inactive
    ensures ClearDurationTimer in calls <==> g.timer
    ensures forall e :: e in calls ==> e == CloseSocket || e == StopRecorder || e == ClearDurationTimer
  {
    SocketCalls(g) + RecorderCalls(g) + TimerCalls(g)
  }

  /** The four guarded steps of `cleanupResources`, in its order. Each one
      releases its handle only when the handle is present. */
  function ReleaseSocket(g: Globals): (r: Globals)
    ensures r.log == g.log + SocketCalls(g)
    ensures !r.socket && !r.socketOpen && r.(socket := g.socket, socketOpen := g.socketOpen, log := g.log) == g
  {
    if g.socket then g.(socket := false, socketOpen := false, log := g.log + [CloseSocket])
    else g.(socketOpen := false)
  }

  function ReleaseRecorder(g: Globals): (r: Globals)
    ensures r.log == g.log + RecorderCalls(g)
    ensures r.recorder == None && r.(recorder := g.recorder, log := g.log) == g
  {
    match g.recorder
    case None => g
    case Some(state) =>
      if state != Inactive then g.(recorder := None, log := g.log + [StopRecorder])
      else g.(recorder := None)
  }

  /** The stream's tracks are stopped in place; see `Background`. */
  function ReleaseStream(g: Globals): Globals {
    if g.stream != null then g.(stream := null) else g
  }

  function ReleaseTimer(g: Globals): (r: Globals)
    ensures r.log == g.log + TimerCalls(g)
    ensures !r.timer && r.(timer := g.timer, log := g.log) == g
  {
    if g.timer then g.(timer := false, log := g.log + [ClearDurationTimer]) else g
  }

  /** The final reset of status and statistics. */
  function Reset(g: Globals): Globals {
    g.(startTime := None, isRecording := false, stats := ZERO_STATS)
  }

  /** `cleanupResources`: release each handle that is present, then reset
      the status and the statistics. The error message is kept. */
  function Cleanup(g: Globals): (r: Globals)
    ensures IsClean(r) && r.error == g.error
    ensures r.log == g.log + ReleaseCalls(g)
  {
    var a := ReleaseSocket(g);
    var b := ReleaseRecorder(a);
    var c := ReleaseTimer(ReleaseStream(b));
    ghost var sc, rc, tc := SocketCalls(g), RecorderCalls(g), TimerCalls(g);
    assert a.log == g.log + sc;
    assert RecorderCalls(a) == rc;
    assert b.log == g.log + sc + rc;
    assert TimerCalls(ReleaseStream(b)) == tc;
    assert c.log == g.log + sc + rc + tc;
    assert g.log + sc + rc + tc == g.log + (sc + rc + tc);
    Reset(c)
  }

  /** `startTime` is truthy: present and not 0. */
  predicate Started(g: Globals) {
    g.startTime.Some? && g.startTime.value != 0
  }

  /** `updateDuration`: while recording, the duration becomes the whole
      seconds elapsed since the start, rounded down (Dafny's `/` by a
      positive divisor rounds down, as `Math.floor` does), and is broadcast. */
  function UpdateDuration(g: Globals, now: int): Globals {
    if Started(g) && g.isRecording then
      Broadcast(g.(stats := g.stats.(duration := (now - g.startTime.value) / 1000)))
    else g
  }

  /** The `startCapture` message: clean up, then ask for the tab's audio. */
  function StartCapture(g: Globals): Globals {
    var c := Cleanup(g);
    c.(log := c.log + [RequestCapture])
  }

  /** The capture callback. A granted stream is kept and a socket to the
      sink is opened; `socketFailure` is the message of an exception thrown
      while opening it. Either failure is reported, then cleaned up. */
  function CaptureResult(g: Globals, s: MediaStream?, socketFailure: Option<string>): Globals {
    if s == null then Cleanup(Broadcast(g.(error := Some(NO_STREAM))))
    else
      match socketFailure
      case None => g.(stream := s, socket := true, socketOpen := false, log := g.log + [OpenSocket(SOCKET_URL)])
      case Some(msg) => Cleanup(Broadcast(g.(stream := s, error := Some(msg))))
  }

  /** `settings.sampleRate || 48000`. */
  function SampleRate(setting: nat): (r: nat)
    ensures r > 0
    ensures setting > 0 ==> r == setting
    ensures setting == 0 ==> r == DEFAULT_SAMPLE_RATE
  {
    if setting != 0 then setting else DEFAULT_SAMPLE_RATE
  }

  /** The socket's `onopen`: a recorder is made on the captured stream and
      the recording starts. `firstTrackRate` is the sample rate of the
      stream's first audio track, `None` when there is none; then reading
      its settings throws after the first four assignments. */
  function SocketOpen(g: Globals, now: int, mimeType: string, firstTrackRate: Option<nat>): Globals {
    var made := g.(socketOpen := true, recorder := Some(Inactive), startTime := Some(now), isRecording := true, error := None);
    match firstTrackRate
    case None => made
    case Some(rate) =>
      var started := made.(
        stats := Stats(0, 0, mimeType, SampleRate(rate), CHANNELS),
        recorder := Some(Recording),
        log := made.log + [StartRecorder(TIMESLICE_MS)]);
      var shown := Broadcast(started);
      shown.(timer := true, log := shown.log + [SetDurationTimer(TIMER_PERIOD_MS)])
  }

  function OpenOutcome(firstTrackRate: Option<nat>): Outcome {
    if firstTrackRate.None? then TypeError else Completed
  }

  /** The recorder's `ondataavailable`, which reads the global socket: a
      non-empty chunk while that socket is open is counted, sent and
      broadcast. */
  function Chunk(g: Globals, size: nat, readyState: ReadyState): Globals {
    if size > 0 && g.socket && readyState == Open then
      var counted := g.(stats := g.stats.(dataSize := g.stats.dataSize + size));
      Broadcast(counted.(log := counted.log + [Send(size)]))
    else g
  }

  /** `ws.readyState` on a null `ws` throws before anything changes; `&&`
      skips it for an empty chunk. */
  function ChunkOutcome(g: Globals, size: nat): (o: Outcome)
    ensures o == TypeError <==> size > 0 && !g.socket
    ensures o == TypeError ==> forall rs :: Chunk(g, size, rs) == g
  {
    if size > 0 && !g.socket then TypeError else Completed
  }

  /** The socket's `onerror`: report, then clean up. */
  function SocketError(g: Globals): Globals {
    Cleanup(Broadcast(g.(error := Some(SOCKET_FAILED))))
  }

  /** The socket's `onclose`: only while recording, report, then clean up. */
  function SocketClose(g: Globals): Globals {
    if g.isRecording then Cleanup(Broadcast(g.(error := Some(SOCKET_CLOSED)))) else g
  }

  /** The `stopCapture` message: clean up, then broadcast. */
  function StopCapture(g: Globals): Globals {
    Broadcast(Cleanup(g))
  }

  /** The runtime's `onSuspend`. */
  function Suspend(g: Globals): Globals {
    Cleanup(g)
  }

  /** The variant of `onclose` that cleans up before it broadcasts, so that
      the last status the popup receives is the final one. */
  function SocketCloseReported(g: Globals): (r: Globals)
    ensures g.isRecording ==>
      r.(log := SocketClose(g).log) == SocketClose(g)
      && r.log == Cleanup(g).log + [StatusUpdate(StatusOf(r))]
    ensures !g.isRecording ==> r == g
  {
    if g.isRecording then Broadcast(Cleanup(g.(error := Some(SOCKET_CLOSED)))) else g
  }

  /** The variant of `onerror` that cleans up before it broadcasts. */
  function SocketErrorReported(g: Globals): (r: Globals)
    ensures r.(log := SocketError(g).log) == SocketError(g)
    ensures r.log == Cleanup(g).log + [StatusUpdate(StatusOf(r))]
  {
    Broadcast(Cleanup(g.(error := Some(SOCKET_FAILED))))
  }

  /** One callback of the script, with what the browser delivers to it. */
  datatype Event =
    | StartRequested
    | CaptureGranted(stream: MediaStream?, socketFailure: Option<string>)
    | SocketOpened(now: int, mimeType: string, firstTrackRate: Option<nat>)
    | ChunkReady(size: nat, readyState: ReadyState)
    | SocketErrored
    | SocketClosed
    | StopRequested
    | StatusRequested
    | Suspended
    | TimerFired(now: int)

  function Step(g: Globals, e: Event): Globals {
    match e
    case StartRequested => StartCapture(g)
    case CaptureGranted(s, failure) => CaptureResult(g, s, failure)
    case SocketOpened(now, mimeType, rate) => SocketOpen(g, now, mimeType, rate)
    case ChunkReady(size, readyState) => Chunk(g, size, readyState)
    case SocketErrored => SocketError(g)
    case SocketClosed => SocketClose(g)
    case StopRequested => StopCapture(g)
    case StatusRequested => g
    case Suspended => Suspend(g)
    case TimerFired(now) => UpdateDuration(g, now)
  }

  /** The events applied one at a time, in order. */
  function Run(g: Globals, es: seq<Event>): Globals
    decreases |es|
  {
    if es == [] then g else Run(Step(g, es[0]), es[1..])
  }

  /** The events whose handler runs `cleanupResources` in state `g`. */
  predicate RunsCleanup(g: Globals, e: Event) {
    || e.StartRequested? || e.SocketErrored? || e.StopRequested? || e.Suspended?
    || (e.SocketClosed? && g.isRecording)
    || (e.CaptureGranted? && (e.stream == null || e.socketFailure.Some?))
  }

  /** No event of `es`, applied from `g` on, cleans up or starts a new recording. */
  predicate NoReset(g: Globals, es: seq<Event>)
    decreases |es|
  {
    es == [] || (!RunsCleanup(g, es[0]) && !es[0].SocketOpened? && NoReset(Step(g, es[0]), es[1..]))
  }

  // ---------------------------------------------------------------------
  // Properties of the handlers.

  /** Cleaning up twice is cleaning up once: every release is guarded by a
      presence check, so the second pass makes no call and changes nothing. */
  lemma CleanupIdempotent(g: Globals)
    ensures Cleanup(Cleanup(g)) == Cleanup(g)
  {
  }

  /** A timer tick while recording writes the whole seconds elapsed since
      the start and broadcasts them, changing nothing else; at any other
      time it does nothing. */
  lemma UpdateDurationWrites(g: Globals, now: int)
    ensures Started(g) && g.isRecording ==>
      && UpdateDuration(g, now).stats == g.stats.(duration := (now - g.startTime.value) / 1000)
      && UpdateDuration(g, now).log == g.log + [StatusUpdate(StatusOf(UpdateDuration(g, now)))]
      && UpdateDuration(g, now).(stats := g.stats, log := g.log) == g
    ensures !(Started(g) && g.isRecording) ==> UpdateDuration(g, now) == g
  {
  }

  lemma DivMonotone(a: int, b: int)
    requires a <= b
    ensures a / 1000 <= b / 1000
  {
  }

  /** Two timer ticks at non-decreasing times never make the duration go
      back, and ticks outside a recording change nothing. */
  lemma DurationMonotone(g: Globals, t1: int, t2: int)
    requires t1 <= t2
    ensures Started(g) && g.isRecording ==>
      UpdateDuration(UpdateDuration(g, t1), t2).stats.duration >= UpdateDuration(g, t1).stats.duration
    ensures !(Started(g) && g.isRecording) ==> UpdateDuration(UpdateDuration(g, t1), t2) == g
  {
    if Started(g) && g.isRecording {
      DivMonotone(t1 - g.startTime.value, t2 - g.startTime.value);
    }
  }

  /** Starting always cleans up first and then asks for the capture; the
      previous error message is kept until a socket opens. */
  lemma StartCleansFirst(g: Globals)
    ensures StartCapture(g).(log := Cleanup(g).log) == Cleanup(g)
    ensures StartCapture(g).log == g.log + ReleaseCalls(g) + [RequestCapture]
    ensures IsClean(StartCapture(g)) && StartCapture(g).error == g.error
  {
  }

  /** A denied capture reports the missing stream and leaves the session clean. */
  lemma CaptureDenied(g: Globals, socketFailure: Option<string>)
    ensures IsClean(CaptureResult(g, null, socketFailure))
    ensures CaptureResult(g, null, socketFailure).error == Some(NO_STREAM)
    ensures CaptureResult(g, null, socketFailure).log
      == g.log + [StatusUpdate(Status(RecordingState(g.isRecording, Some(NO_STREAM)), g.stats))] + ReleaseCalls(g)
  {
  }

  /** After a start, a granted stream is held and a socket to the sink is
      opened, but nothing is recorded yet: no recorder, no start time, no
      timer and zero statistics. The calls so far are the cleanup's, the
      capture request and the socket. */
  lemma CaptureGrantedOpensSocket(g: Globals, s: MediaStream)
    ensures var r := CaptureResult(StartCapture(g), s, None);
      && r.socket && !r.socketOpen && r.stream == s && !r.isRecording && r.startTime == None && !r.timer
      && r.recorder == None && r.stats == ZERO_STATS && r.error == g.error
      && r.log == g.log + ReleaseCalls(g) + [RequestCapture, OpenSocket(SOCKET_URL)]
  {
    StartCleansFirst(g);
  }

  /** An exception while opening the socket is reported with its message,
      and the session, including the granted stream, is cleaned up. */
  lemma CaptureSocketFailure(g: Globals, s: MediaStream, msg: string)
    ensures IsClean(CaptureResult(g, s, Some(msg))) && CaptureResult(g, s, Some(msg)).error == Some(msg)
    ensures CaptureResult(g, s, Some(msg)).log
      == g.log + [StatusUpdate(Status(RecordingState(g.isRecording, Some(msg)), g.stats))] + ReleaseCalls(g)
  {
  }

  /** Opening the socket starts a fresh recording: the state says recording
      with no error, the start time is now, the statistics are reset with
      the recorder's format, the track's sample rate or 48000 when it reports
      none, and two channels; the recorder is started with a 100 ms slice,
      the state is broadcast, and a one-second timer is set. */
  lemma OpenStartsRecording(g: Globals, now: int, mimeType: string, rate: nat)
    ensures
      var r := SocketOpen(g, now, mimeType, Some(rate));
      && r.isRecording && r.error == None && r.startTime == Some(now)
      && r.stats == Stats(0, 0, mimeType, if rate == 0 then 48000 else rate, 2)
      && r.recorder == Some(Recording) && r.timer && r.socketOpen
      && r.socket == g.socket && r.stream == g.stream
      && r.log == g.log + [StartRecorder(100), StatusUpdate(StatusOf(r)), SetDurationTimer(1000)]
  {
  }

  /** With no audio track, `onopen` throws part-way: the session is marked
      recording with no error and the start time, but no timer is started,
      the statistics stay as they were, nothing is called or broadcast, and
      the recorder it made is inactive, so a later cleanup does not stop it. */
  lemma OpenWithoutTrack(g: Globals, now: int, mimeType: string)
    ensures OpenOutcome(None) == TypeError
    ensures var r := SocketOpen(g, now, mimeType, None);
      && r.isRecording && r.error == None && r.startTime == Some(now)
      && r.timer == g.timer && r.stats == g.stats && r.log == g.log
      && r.socket == g.socket && r.socketOpen && r.stream == g.stream && r.recorder == Some(Inactive)
      && RecorderCalls(r) == [] && ReleaseCalls(r) == SocketCalls(g) + TimerCalls(g)
  {
  }

  /** A chunk changes the byte count by exactly its size when it is
      non-empty and the socket is held and open, and otherwise leaves every
      global as it was; only a sent chunk is logged and broadcast. */
  lemma ChunkCounts(g: Globals, size: nat, readyState: ReadyState)
    ensures Chunk(g, size, readyState).stats.dataSize
      == g.stats.dataSize + (if size > 0 && g.socket && readyState == Open then size else 0)
    ensures Chunk(g, size, readyState).(log := g.log, stats := g.stats) == g
    ensures size > 0 && g.socket && readyState == Open ==>
      Chunk(g, size, readyState).log == g.log + [Send(size), StatusUpdate(StatusOf(Chunk(g, size, readyState)))]
    ensures !(size > 0 && g.socket && readyState == Open) ==> Chunk(g, size, readyState) == g
  {
  }

  /** A chunk that arrives after cleanup, such as the last one a stopped
      recorder delivers, finds no socket: a non-empty one throws. */
  lemma ChunkAfterCleanupThrows(g: Globals, size: nat, readyState: ReadyState)
    ensures ChunkOutcome(Cleanup(g), size) == TypeError <==> size > 0
    ensures Chunk(Cleanup(g), size, readyState) == Cleanup(g)
  {
  }

  /** A close outside a recording is ignored; during one it reports the
      closed socket and cleans up. */
  lemma CloseIgnoredUnlessRecording(g: Globals)
    ensures SocketClose(g) == g <==> !g.isRecording
    ensures g.isRecording ==> IsClean(SocketClose(g)) && SocketClose(g).error == Some(SOCKET_CLOSED)
  {
    if g.isRecording {
      assert SocketClose(g).isRecording != g.isRecording;
    }
  }

  /** After a socket error the close that follows it changes nothing, so the
      error message stays the one of the failure. */
  lemma ErrorThenClose(g: Globals)
    ensures SocketClose(SocketError(g)) == SocketError(g)
    ensures SocketError(g).error == Some(SOCKET_FAILED) && IsClean(SocketError(g))
  {
  }

  /** A stop cleans up, keeps the error, and broadcasts the cleaned state. */
  lemma StopCleansAndReports(g: Globals)
    ensures StopCapture(g).(log := Cleanup(g).log) == Cleanup(g)
    ensures StopCapture(g).log == Cleanup(g).log + [StatusUpdate(Status(RecordingState(false, g.error), ZERO_STATS))]
  {
  }

  /** Suspension cleans up and broadcasts nothing. */
  lemma SuspendCleans(g: Globals)
    ensures Suspend(g) == Cleanup(g) && IsClean(Suspend(g)) && Suspend(g).error == g.error
  {
  }

  /** Every handler keeps `Valid`. */
  lemma StepValid(g: Globals, e: Event)
    requires Valid(g)
    ensures Valid(Step(g, e))
  {
  }

  lemma {:induction false} RunValid(g: Globals, es: seq<Event>)
    requires Valid(g)
    ensures Valid(Run(g, es))
    decreases |es|
  {
    if es != [] {
      StepValid(g, es[0]);
      RunValid(Step(g, es[0]), es[1..]);
    }
  }

  /** Every state the script reaches from its start is `Valid`. */
  lemma ReachableValid(es: seq<Event>)
    ensures Valid(Run(Initial(), es))
  {
    RunValid(Initial(), es);
  }

  /** In a `Valid` state the duration timer only runs during a recording:
      a tick of a running timer, with a start time other than 0, always
      writes the elapsed seconds and broadcasts them. */
  lemma RunningTimerTicks(g: Globals, now: int)
    requires Valid(g) && g.timer && g.startTime != Some(0)
    ensures UpdateDuration(g, now).stats.duration == (now - g.startTime.value) / 1000
    ensures UpdateDuration(g, now).log == g.log + [StatusUpdate(StatusOf(UpdateDuration(g, now)))]
  {
  }

  /** The browser reports the socket `OPEN` only once its `onopen` has
      fired: a chunk event says `Open` only for a socket that has opened. */
  predicate HonestReadyState(g: Globals, e: Event) {
    e.ChunkReady? && e.readyState == Open ==> g.socketOpen
  }

  /** Every event of `es`, applied from `g` in order, is honest in the state
      it arrives in. */
  predicate HonestRun(g: Globals, es: seq<Event>)
    decreases |es|
  {
    es != [] ==> HonestReadyState(g, es[0]) && HonestRun(Step(g, es[0]), es[1..])
  }

  /** In a `Valid` state bytes are counted only during a recording: any
      event that raises the byte count is a chunk that arrives while
      recording, and a chunk changes nothing otherwise. */
  lemma CountedOnlyWhileRecording(g: Globals, e: Event)
    requires Valid(g) && HonestReadyState(g, e)
    ensures Step(g, e).stats.dataSize > g.stats.dataSize ==> e.ChunkReady? && g.isRecording && Step(g, e).isRecording
    ensures e.ChunkReady? && !g.isRecording ==> Step(g, e) == g
  {
  }

  /** Until a socket opens, no byte is counted: from a `Valid` state that
      is not recording, a run without `onopen` never raises the count. */
  lemma {:induction false} NoBytesBeforeOpen(g: Globals, es: seq<Event>)
    requires Valid(g) && !g.isRecording && HonestRun(g, es)
    requires forall i :: 0 <= i < |es| ==> !es[i].SocketOpened?
    ensures !Run(g, es).isRecording
    ensures Run(g, es).stats.dataSize <= g.stats.dataSize
    decreases |es|
  {
    if es != [] {
      var next := Step(g, es[0]);
      assert !es[0].SocketOpened?;
      StepValid(g, es[0]);
      CountedOnlyWhileRecording(g, es[0]);
      forall i | 0 <= i < |es[1..]|
        ensures !es[1..][i].SocketOpened?
      {
        assert es[1..][i] == es[i + 1];
      }
      NoBytesBeforeOpen(next, es[1..]);
    }
  }

  /** A handler that cleans up leaves the session clean (a stop and a start
      then add a broadcast or a capture request to the log). */
  lemma RunsCleanupCleans(g: Globals, e: Event)
    requires RunsCleanup(g, e)
    ensures IsClean(Step(g, e))
  {
  }

  /** The byte count only drops when a handler cleans up or a new recording opens. */
  lemma DataSizeDropsOnlyOnReset(g: Globals, e: Event)
    ensures Step(g, e).stats.dataSize < g.stats.dataSize ==> RunsCleanup(g, e) || e.SocketOpened?
  {
  }

  /** Between two resets the byte count never decreases. */
  lemma {:induction false} DataSizeMonotone(g: Globals, es: seq<Event>)
    requires NoReset(g, es)
    ensures Run(g, es).stats.dataSize >= g.stats.dataSize
    decreases |es|
  {
    if es != [] {
      DataSizeDropsOnlyOnReset(g, es[0]);
      DataSizeMonotone(Step(g, es[0]), es[1..]);
    }
  }

  /** Applying `a` and then `b` is applying `a + b`. */
  lemma {:induction false} RunAppend(g: Globals, a: seq<Event>, b: seq<Event>)
    ensures Run(g, a + b) == Run(Run(g, a), b)
    decreases |a|
  {
    if a == [] {
      assert a + b == b;
    } else {
      assert (a + b)[1..] == a[1..] + b;
      RunAppend(Step(g, a[0]), a[1..], b);
    }
  }

  lemma RunOne(g: Globals, e: Event)
    ensures Run(g, [e]) == Step(g, e)
  {
    assert [e][1..] == [];
  }

  /** A start, a granted stream, and an open socket at time 1000 whose
      track reports 44100 Hz. */
  function SetupEvents(s: MediaStream): seq<Event> {
    [StartRequested, CaptureGranted(s, None), SocketOpened(1000, "audio/webm", Some(44100))]
  }

  /** Chunks of 10, 20 and 30 bytes on an open socket. */
  function ChunkEvents(): seq<Event> {
    [ChunkReady(10, Open), ChunkReady(20, Open), ChunkReady(30, Open)]
  }

  lemma SetupScenario(g: Globals, s: MediaStream)
    ensures Run(g, SetupEvents(s)).isRecording && Run(g, SetupEvents(s)).socket
    ensures Run(g, SetupEvents(s)).stats.dataSize == 0
  {
    var es := SetupEvents(s);
    assert es == [es[0]] + [es[1]] + [es[2]];
    RunAppend(g, [es[0]] + [es[1]], [es[2]]);
    RunAppend(g, [es[0]], [es[1]]);
    RunOne(g, es[0]);
    RunOne(Step(g, es[0]), es[1]);
    RunOne(Run(g, [es[0]] + [es[1]]), es[2]);
  }

  lemma ChunkScenario(g: Globals)
    requires g.socket
    ensures Run(g, ChunkEvents()).stats.dataSize == g.stats.dataSize + 60
    ensures Run(g, ChunkEvents()).isRecording == g.isRecording
  {
    var es := ChunkEvents();
    assert es == [es[0]] + [es[1]] + [es[2]];
    var g1 := Chunk(g, 10, Open);
    ChunkCounts(g, 10, Open);
    var g2 := Chunk(g1, 20, Open);
    ChunkCounts(g1, 20, Open);
    ChunkCounts(g2, 30, Open);
    RunAppend(g, [es[0]] + [es[1]], [es[2]]);
    RunAppend(g, [es[0]], [es[1]]);
    RunOne(g, es[0]);
    RunOne(g1, es[1]);
    RunOne(g2, es[2]);
  }

  /** A start, a granted stream, an open socket and chunks of 10, 20 and 30
      bytes count 60 bytes; a stop then leaves the session clean, free for
      the next start. */
  lemma StreamScenario(g: Globals, s: MediaStream)
    ensures Run(g, SetupEvents(s) + ChunkEvents()).stats.dataSize == 60
    ensures Run(g, SetupEvents(s) + ChunkEvents()).isRecording
    ensures IsClean(StopCapture(Run(g, SetupEvents(s) + ChunkEvents())))
  {
    RunAppend(g, SetupEvents(s), ChunkEvents());
    SetupScenario(g, s);
    ChunkScenario(Run(g, SetupEvents(s)));
  }
}
