/**
 * The two scripts together. The popup displays the status carried by the
 * last `statusUpdate` message the background script broadcast; `InSync`
 * says that this is the status a `getStatus` request would be answered
 * with. The lemmas here say what the popup shows after each handler that
 * broadcasts, and where it goes out of step with the background script.
 */
module Extension {
  import opened Status
  import opened Session
  import opened Popup

  /** The status of the last broadcast in the log, `None` before the first. */
  function LastShown(log: seq<Effect>): (r: Option<Status>)
    ensures r.Some? ==> StatusUpdate(r.value) in log
    ensures r.None? ==> forall e :: e in log ==> !e.StatusUpdate?
    decreases |log|
  {
    if log == [] then None
    else if log[|log| - 1].StatusUpdate? then Some(log[|log| - 1].status)
    else LastShown(log[..|log| - 1])
  }

  /** The popup shows the status the background script would reply with. */
  predicate InSync(g: Globals) {
    LastShown(g.log) == Some(StatusOf(g))
  }

  /** A broadcast followed only by calls that are not broadcasts is what
      the popup shows. */
  lemma {:induction false} LastShownAfter(log: seq<Effect>, st: Status, calls: seq<Effect>)
    requires forall e :: e in calls ==> !e.StatusUpdate?
    ensures LastShown(log + [StatusUpdate(st)] + calls) == Some(st)
    decreases |calls|
  {
    var l := log + [StatusUpdate(st)] + calls;
    if calls == [] {
      assert l == log + [StatusUpdate(st)];
    } else {
      var front := calls[..|calls| - 1];
      assert calls[|calls| - 1] in calls;
      assert l[..|l| - 1] == log + [StatusUpdate(st)] + front;
      forall e | e in front
        ensures !e.StatusUpdate?
      {
        assert e in calls;
      }
      LastShownAfter(log, st, front);
    }
  }

  /** A broadcast shows the state it was made in. */
  lemma BroadcastSyncs(g: Globals)
    ensures InSync(Broadcast(g))
  {
    LastShownAfter(g.log, StatusOf(g), []);
    assert Broadcast(g).log == g.log + [StatusUpdate(StatusOf(g))] + [];
  }

  /** Cleanup adds no broadcast: after the one made just before it the
      popup shows the status of that moment. */
  lemma CleanupAfterBroadcast(g: Globals)
    ensures LastShown(Cleanup(Broadcast(g)).log) == Some(StatusOf(g))
  {
    LastShownAfter(g.log, StatusOf(g), ReleaseCalls(Broadcast(g)));
  }

  /** After a stop the popup is in step with the cleaned-up script: ready,
      start enabled, zero duration, the default format, no sample rate or
      channels, and the error of an earlier failure if one is kept. */
  lemma StopShowsReady(g: Globals)
    ensures InSync(StopCapture(g))
    ensures var v := UpdateUI(StatusOf(StopCapture(g)));
      && v.statusClass == "status ready" && !v.startDisabled && v.stopDisabled
      && v.statusText == (if Truthy(g.error) then ErrorText(g.error.value) else READY_TEXT)
      && v.duration == "00:00:00" && v.format == DEFAULT_FORMAT
      && v.sampleRate == "0 Hz" && v.channels == "0"
  {
    BroadcastSyncs(Cleanup(g));
    assert StatusOf(StopCapture(g)) == Status(RecordingState(false, g.error), ZERO_STATS);
    ZeroStatsView(RecordingState(false, g.error));
  }

  /** After the socket opens with an audio track the popup is in step and
      shows the recording: stop enabled, zero duration, the recorder's
      format, the track's sample rate and two channels. */
  lemma OpenShowsRecording(g: Globals, now: int, mimeType: string, rate: nat)
    ensures InSync(SocketOpen(g, now, mimeType, Some(rate)))
    ensures var v := UpdateUI(StatusOf(SocketOpen(g, now, mimeType, Some(rate))));
      && v.statusClass == "status recording" && v.statusText == RECORDING_TEXT
      && v.startDisabled && !v.stopDisabled
      && v.duration == "00:00:00"
      && v.format == (if mimeType == "" then DEFAULT_FORMAT else mimeType)
      && v.sampleRate == NatToString(SampleRate(rate)) + " Hz" && v.channels == "2"
  {
    var r := SocketOpen(g, now, mimeType, Some(rate));
    OpenStartsRecording(g, now, mimeType, rate);
    LastShownAfter(g.log + [StartRecorder(TIMESLICE_MS)], StatusOf(r), [SetDurationTimer(TIMER_PERIOD_MS)]);
    assert r.log == g.log + [StartRecorder(TIMESLICE_MS)] + [StatusUpdate(StatusOf(r))] + [SetDurationTimer(TIMER_PERIOD_MS)];
    FormatDurationZero();
    assert DigitChar(2) == '2';
  }

  /** A sent chunk keeps the popup in step, showing the new byte count. */
  lemma ChunkSyncs(g: Globals, size: nat, readyState: ReadyState)
    requires size > 0 && g.socket && readyState == Open
    ensures InSync(Chunk(g, size, readyState))
    ensures LastShown(Chunk(g, size, readyState).log).value.stats.dataSize == g.stats.dataSize + size
  {
    var counted := g.(stats := g.stats.(dataSize := g.stats.dataSize + size));
    BroadcastSyncs(counted.(log := counted.log + [Send(size)]));
  }

  /** A timer tick during a recording keeps the popup in step, and the
      duration it shows reads back as the whole seconds elapsed. */
  lemma TickSyncs(g: Globals, now: int)
    requires Started(g) && g.isRecording
    ensures InSync(UpdateDuration(g, now))
    ensures now >= g.startTime.value ==>
      var d := UpdateUI(StatusOf(UpdateDuration(g, now))).duration;
      ParseDuration(d).Some? && ParseDuration(d).value == (now - g.startTime.value) / 1000
  {
    var elapsed := (now - g.startTime.value) / 1000;
    var timed := g.(stats := g.stats.(duration := elapsed));
    BroadcastSyncs(timed);
    assert UpdateDuration(g, now) == Broadcast(timed);
    if now >= g.startTime.value {
      FormatDurationRoundTrip(elapsed);
    }
  }

  /** `onopen` on a stream without an audio track throws before its
      broadcast: the popup keeps showing what it showed before, so a popup
      in step with a stopped script goes on showing it stopped while the
      script now says it is recording. */
  lemma OpenWithoutTrackUnseen(g: Globals, now: int, mimeType: string)
    ensures LastShown(SocketOpen(g, now, mimeType, None).log) == LastShown(g.log)
    ensures InSync(g) && !g.isRecording ==> !InSync(SocketOpen(g, now, mimeType, None))
  {
    OpenWithoutTrack(g, now, mimeType);
  }

  /** As written, `onclose` during a recording broadcasts before it cleans
      up: the popup is left showing a running recording, with start
      disabled, while the script has stopped and holds the socket error. */
  lemma CloseLeavesPopupRecording(g: Globals)
    requires g.isRecording
    ensures LastShown(SocketClose(g).log) == Some(Status(RecordingState(true, Some(SOCKET_CLOSED)), g.stats))
    ensures !SocketClose(g).isRecording && !InSync(SocketClose(g))
    ensures UpdateUI(LastShown(SocketClose(g).log).value).statusText == RECORDING_TEXT
    ensures UpdateUI(LastShown(SocketClose(g).log).value).startDisabled
  {
    CleanupAfterBroadcast(g.(error := Some(SOCKET_CLOSED)));
  }

  /** The same holds of `onerror` during a recording. */
  lemma ErrorLeavesPopupRecording(g: Globals)
    requires g.isRecording
    ensures LastShown(SocketError(g).log) == Some(Status(RecordingState(true, Some(SOCKET_FAILED)), g.stats))
    ensures !SocketError(g).isRecording && !InSync(SocketError(g))
    ensures UpdateUI(LastShown(SocketError(g).log).value).statusText == RECORDING_TEXT
    ensures UpdateUI(LastShown(SocketError(g).log).value).startDisabled
  {
    CleanupAfterBroadcast(g.(error := Some(SOCKET_FAILED)));
  }

  /** Cleaning up before the broadcast keeps the popup in step: it shows
      the closed socket's error, with start enabled again. */
  lemma ReportedCloseShowsError(g: Globals)
    requires g.isRecording
    ensures InSync(SocketCloseReported(g))
    ensures var v := UpdateUI(StatusOf(SocketCloseReported(g)));
      v.statusText == ErrorText(SOCKET_CLOSED) && !v.startDisabled && v.stopDisabled
  {
    BroadcastSyncs(Cleanup(g.(error := Some(SOCKET_CLOSED))));
  }

  /** The same for the socket error, whether or not a recording runs. */
  lemma ReportedErrorShowsError(g: Globals)
    ensures InSync(SocketErrorReported(g))
    ensures var v := UpdateUI(StatusOf(SocketErrorReported(g)));
      v.statusText == ErrorText(SOCKET_FAILED) && !v.startDisabled && v.stopDisabled
  {
    BroadcastSyncs(Cleanup(g.(error := Some(SOCKET_FAILED))));
  }
}
