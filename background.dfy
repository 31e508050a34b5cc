/**
 * The background script: its module-level variables as the fields of one
 * object, and each message handler and browser callback as a method that
 * updates them in place. Every method is proved to leave the globals as the
 * matching function of `Session` says, and the cleanup to stop every track
 * of the stream it releases.
 */
module Background {
  import opened Status
  import opened Session

  class BackgroundScript {
    var socket: bool
    var socketOpen: bool
    var recorder: Option<RecorderState>
    var startTime: Option<int>
    var stream: MediaStream?
    var timer: bool
    var stats: Stats
    var isRecording: bool
    var error: Option<string>
    var log: seq<Effect>

    /** The globals as a value. */
    function Value(): Globals
      reads this
    {
      Globals(socket, socketOpen, recorder, startTime, stream, timer, stats, isRecording, error, log)
    }

    /** The tracks the cleanup may stop: those of the stream held now. */
    function Tracks(): set<object>
      reads this
    {
      if stream != null then {stream.tracks} else {}
    }

    constructor()
      ensures Value() == Initial()
    {
      socket, socketOpen, recorder, startTime, stream, timer := false, false, None, None, null, false;
      stats, isRecording, error, log := ZERO_STATS, false, None, [];
    }

    method UpdatePopup()
      modifies this
      ensures Value() == Broadcast(old(Value()))
    {
      log := log + [StatusUpdate(StatusOf(Value()))];
    }

    method UpdateDuration(now: int)
      modifies this
      ensures Value() == Session.UpdateDuration(old(Value()), now)
    {
      if startTime.Some? && startTime.value != 0 && isRecording {
        stats := stats.(duration := (now - startTime.value) / 1000);
        UpdatePopup();
      }
    }

    /** Stops and disables every track of the held stream, in order. */
    static method StopTracks(tracks: array<Track>)
      modifies tracks
      ensures tracks[..] == StopAll(old(tracks[..]))
    {
      var i := 0;
      while i < tracks.Length
        modifies tracks
        invariant 0 <= i <= tracks.Length
        invariant forall k :: 0 <= k < i ==> tracks[k] == StopTrack(old(tracks[k]))
        invariant forall k :: i <= k < tracks.Length ==> tracks[k] == old(tracks[k])
      {
        tracks[i] := StopTrack(tracks[i]);
        i := i + 1;
      }
    }

    /** The four guarded releases of `cleanupResources`. Each one acts only
        when its handle is present. */
    method ReleaseSocket()
      modifies this
      ensures Value() == Session.ReleaseSocket(old(Value()))
    {
      if socket {
        log := log + [CloseSocket];
        socket := false;
      }
      socketOpen := false;
    }

    method ReleaseRecorder()
      modifies this
      ensures Value() == Session.ReleaseRecorder(old(Value()))
    {
      if recorder.Some? {
        if recorder.value != Inactive {
          log := log + [StopRecorder];
        }
        recorder := None;
      }
    }

    method ReleaseStream()
      modifies this, Tracks()
      ensures Value() == Session.ReleaseStream(old(Value()))
      ensures old(stream) != null ==> old(stream).tracks[..] == StopAll(old(stream.tracks[..]))
    {
      if stream != null {
        StopTracks(stream.tracks);
        stream := null;
      }
    }

    method ReleaseTimer()
      modifies this
      ensures Value() == Session.ReleaseTimer(old(Value()))
    {
      if timer {
        log := log + [ClearDurationTimer];
        timer := false;
      }
    }

    method CleanupResources()
      modifies this, Tracks()
      ensures Value() == Cleanup(old(Value()))
      ensures old(stream) != null ==> old(stream).tracks[..] == StopAll(old(stream.tracks[..]))
    {
      ghost var before := Value();
      ReleaseSocket();
      ReleaseRecorder();
      ReleaseStream();
      ReleaseTimer();
      startTime := None;
      isRecording := false;
      stats := ZERO_STATS;
      assert Value() == Reset(Session.ReleaseTimer(Session.ReleaseStream(Session.ReleaseRecorder(Session.ReleaseSocket(before)))));
    }

    /** The `startCapture` message. */
    method StartCapture()
      modifies this, Tracks()
      ensures Value() == Session.StartCapture(old(Value()))
      ensures old(stream) != null ==> old(stream).tracks[..] == StopAll(old(stream.tracks[..]))
    {
      CleanupResources();
      log := log + [RequestCapture];
    }

    /** The capture callback, with the stream it is given (`null` when
        capture was denied) and the message of an exception thrown while
        opening the socket, if one is. */
    method OnCaptureResult(s: MediaStream?, socketFailure: Option<string>)
      modifies this, if s != null then {s.tracks} else Tracks()
      ensures Value() == CaptureResult(old(Value()), s, socketFailure)
      ensures s != null && socketFailure.Some? ==> s.tracks[..] == StopAll(old(s.tracks[..]))
      ensures s != null && socketFailure.None? ==> unchanged(s.tracks)
      ensures s == null && old(stream) != null ==> old(stream).tracks[..] == StopAll(old(stream.tracks[..]))
    {
      if s != null {
        stream := s;
        match socketFailure
        case None =>
          socket, socketOpen := true, false;
          log := log + [OpenSocket(SOCKET_URL)];
        case Some(msg) =>
          error := Some(msg);
          UpdatePopup();
          CleanupResources();
      } else {
        error := Some(NO_STREAM);
        UpdatePopup();
        CleanupResources();
      }
    }

    /** The socket's `onopen`, with `s` the stream captured by the callback,
        the time it fires and the MIME type the browser's recorder chose. */
    method OnOpen(s: MediaStream, now: int, mimeType: string) returns (outcome: Outcome)
      modifies this
      ensures Value() == SocketOpen(old(Value()), now, mimeType, FirstTrackRate(s))
      ensures outcome == OpenOutcome(FirstTrackRate(s))
    {
      socketOpen := true;
      recorder := Some(Inactive);
      startTime := Some(now);
      isRecording := true;
      error := None;
      if s.tracks.Length == 0 {
        return TypeError;
      }
      var settings := s.tracks[0];
      stats := Stats(0, 0, mimeType, SampleRate(settings.sampleRate), CHANNELS);
      recorder := Some(Recording);
      log := log + [StartRecorder(TIMESLICE_MS)];
      UpdatePopup();
      timer := true;
      log := log + [SetDurationTimer(TIMER_PERIOD_MS)];
      outcome := Completed;
    }

    /** The recorder's `ondataavailable`, with the chunk's size and the
        `readyState` of the socket held when it fires. */
    method OnDataAvailable(size: nat, readyState: ReadyState) returns (outcome: Outcome)
      modifies this
      ensures Value() == Chunk(old(Value()), size, readyState)
      ensures outcome == ChunkOutcome(old(Value()), size)
    {
      if size > 0 && !socket {
        return TypeError;
      }
      if size > 0 && readyState == Open {
        stats := stats.(dataSize := stats.dataSize + size);
        log := log + [Send(size)];
        UpdatePopup();
      }
      outcome := Completed;
    }

    method OnSocketError()
      modifies this, Tracks()
      ensures Value() == SocketError(old(Value()))
      ensures old(stream) != null ==> old(stream).tracks[..] == StopAll(old(stream.tracks[..]))
    {
      error := Some(SOCKET_FAILED);
      UpdatePopup();
      CleanupResources();
    }

    method OnSocketClose()
      modifies this, Tracks()
      ensures Value() == SocketClose(old(Value()))
      ensures old(stream) != null ==>
        old(stream).tracks[..] == if old(isRecording) then StopAll(old(stream.tracks[..])) else old(stream.tracks[..])
    {
      if isRecording {
        error := Some(SOCKET_CLOSED);
        UpdatePopup();
        CleanupResources();
      }
    }

    /** The `stopCapture` message. */
    method StopCapture()
      modifies this, Tracks()
      ensures Value() == Session.StopCapture(old(Value()))
      ensures old(stream) != null ==> old(stream).tracks[..] == StopAll(old(stream.tracks[..]))
    {
      CleanupResources();
      UpdatePopup();
    }

    /** The `getStatus` message: the reply, with nothing changed. */
    method GetStatus() returns (reply: Status)
      ensures reply == StatusOf(Value())
      ensures reply.state.isRecording == isRecording && reply.state.error == error && reply.stats == stats
    {
      reply := Status(RecordingState(isRecording, error), stats);
    }

    /** The runtime's `onSuspend`. */
    method OnSuspend()
      modifies this, Tracks()
      ensures Value() == Suspend(old(Value()))
      ensures old(stream) != null ==> old(stream).tracks[..] == StopAll(old(stream.tracks[..]))
    {
      CleanupResources();
    }

    /** The message listener: dispatch on `request.action`; only
        `getStatus` answers, and an unknown action does nothing. */
    method OnMessage(action: string) returns (response: Option<Status>)
      modifies this, Tracks()
      ensures action == "startCapture" ==> Value() == Session.StartCapture(old(Value())) && response == None
      ensures action == "stopCapture" ==> Value() == Session.StopCapture(old(Value())) && response == None
      ensures action == "getStatus" ==> Value() == old(Value()) && response == Some(StatusOf(old(Value())))
      ensures action !in {"startCapture", "stopCapture", "getStatus"} ==> Value() == old(Value()) && response == None
      ensures old(stream) != null ==> old(stream).tracks[..] == (if action in {"startCapture", "stopCapture"} then StopAll(old(stream.tracks[..])) else old(stream.tracks[..]))
    {
      response := None;
      if action == "startCapture" {
        StartCapture();
      } else if action == "stopCapture" {
        StopCapture();
      } else if action == "getStatus" {
        var reply := GetStatus();
        response := Some(reply);
      }
    }
  }

  /** The sample-rate setting of the stream's first audio track, `None`
      when it has no track. */
  function FirstTrackRate(s: MediaStream): (rate: Option<nat>)
    reads s.tracks
    ensures rate.Some? <==> s.tracks.Length > 0
    ensures rate.Some? ==> rate.value == s.tracks[0].sampleRate
    ensures OpenOutcome(rate) == TypeError <==> s.tracks.Length == 0
  {
    if s.tracks.Length == 0 then None else Some(s.tracks[0].sampleRate)
  }
}
