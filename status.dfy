/**
 * The values the background script and the popup exchange: the recording
 * statistics object, the current-state object, and the `{state, stats}`
 * payload of a `statusUpdate` message or a `getStatus` reply.
 */
module Status {

  datatype Option<T> = None | Some(value: T)

  /** `recordingStats`: duration in whole seconds, bytes streamed so far,
      the recorder's MIME type, the sample rate in Hz and the channel count. */
  datatype Stats = Stats(duration: int, dataSize: nat, format: string, sampleRate: nat, channels: nat)

  /** The statistics a fresh or cleaned-up session shows. */
  const ZERO_STATS := Stats(0, 0, "", 0, 0)

  /** `currentState`: whether a recording runs, and the last error message (`null` is `None`). */
  datatype RecordingState = RecordingState(isRecording: bool, error: Option<string>)

  /** The payload of a status message. */
  datatype Status = Status(state: RecordingState, stats: Stats)
}
