/**
 * The standalone microphone recorder object: it owns one platform recorder,
 * a run flag, the job running its recording coroutine and an optional data
 * callback. The coroutine reads chunks while the run flag is set, reports each
 * chunk's loudness and then the chunk itself to the callback, retries on the
 * two transient error codes, and on leaving always stops and releases the
 * recorder.
 *
 * Platform calls are parameters: `outcomes` is what the successive `read` calls
 * return, `rmsOf` is the root mean square of a chunk's samples (floating-point
 * work left to the platform) and `log10` is the math library's. Everything the
 * object does to the recorder or hands to the callback is appended to `log`.
 */
module MicRecorder {
  import opened AudioLevels

  /** `AudioRecord.ERROR_INVALID_OPERATION` and `AudioRecord.ERROR_BAD_VALUE`. */
  const ERROR_INVALID_OPERATION: int := -3
  const ERROR_BAD_VALUE: int := -2

  /** The recorder slot: empty, or a recorder whose state is or is not `STATE_INITIALIZED`. */
  datatype RecorderSlot = NoRecorder | Recorder(initialized: bool)

  /** The recording job: none, running, or cancelled but still referenced. */
  datatype JobState = NoJob | Running | Cancelled

  /** One `read` call: some bytes (a positive count), a status code (zero or negative), or an exception. */
  datatype MicRead = Samples(bytes: seq<Int8>) | Status(code: int) | ReadThrew

  /** A non-empty run of whole 16-bit samples. */
  predicate WholeChunk(bytes: seq<Int8>) {
    |bytes| >= 2 && |bytes| % 2 == 0
  }

  /** A 16-bit PCM read returns whole samples; status codes are never positive. */
  predicate WellFormedRead(r: MicRead) {
    match r
    case Samples(bytes) => WholeChunk(bytes)
    case Status(code) => code <= 0
    case ReadThrew => true
  }

  datatype Event =
    | RecorderStarted               // startRecording()
    | RecorderStopped               // stop()
    | RecorderReleased              // release()
    | Volume(db: real, level: int)  // callback onAudioVolume
    | Data(bytes: seq<Int8>)        // callback onAudioData

  /** The loudness reported for a chunk: its root mean square in dB, and the level of that. */
  function ChunkVolume(bytes: seq<Int8>, rmsOf: seq<Int8> -> real, log10: real -> real): (e: Event)
    ensures e.Volume? && 0 <= e.level <= 9 && e.level == Level(e.db)
    ensures e.db == Decibels(rmsOf(bytes), log10)
    ensures rmsOf(bytes) <= RMS_EPSILON ==> e == Volume(SILENCE_DB, 0)
  {
    var db := Decibels(rmsOf(bytes), log10);
    Volume(db, Level(db))
  }

  /** A read code that makes the loop try again. */
  predicate IsRetry(r: MicRead) {
    r == ReadThrew || r == Status(ERROR_INVALID_OPERATION) || r == Status(ERROR_BAD_VALUE)
  }

  /**
   * What the recording loop hands to the callback for a run of outcomes while the
   * run flag stays set: a volume report and the chunk for each chunk read,
   * nothing for a retry, and the loop ends at the first other status code.
   */
  function Deliveries(outcomes: seq<MicRead>, callback: bool, rmsOf: seq<Int8> -> real, log10: real -> real): seq<Event>
    requires forall k :: 0 <= k < |outcomes| ==> WellFormedRead(outcomes[k])
  {
    if outcomes == [] then []
    else if outcomes[0].Samples? then
      assert WellFormedRead(outcomes[0]);
      (if callback then [ChunkVolume(outcomes[0].bytes, rmsOf, log10), Data(outcomes[0].bytes)] else [])
      + Deliveries(outcomes[1..], callback, rmsOf, log10)
    else if IsRetry(outcomes[0]) then Deliveries(outcomes[1..], callback, rmsOf, log10)
    else []
  }

  /** The chunks the loop reads before it ends, in order. */
  function ChunksRead(outcomes: seq<MicRead>): (chunks: seq<seq<Int8>>)
    requires forall k :: 0 <= k < |outcomes| ==> WellFormedRead(outcomes[k])
    ensures forall k :: 0 <= k < |chunks| ==> WholeChunk(chunks[k])
  {
    if outcomes == [] then []
    else if outcomes[0].Samples? then
      assert WellFormedRead(outcomes[0]);
      [outcomes[0].bytes] + ChunksRead(outcomes[1..])
    else if IsRetry(outcomes[0]) then ChunksRead(outcomes[1..])
    else []
  }

  /**
   * With a callback, deliveries come in pairs: each chunk read, in order, is
   * handed over right after its own volume report.
   */
  lemma {:induction false} DeliveriesPaired(outcomes: seq<MicRead>, rmsOf: seq<Int8> -> real, log10: real -> real)
    requires forall k :: 0 <= k < |outcomes| ==> WellFormedRead(outcomes[k])
    ensures var ds := Deliveries(outcomes, true, rmsOf, log10);
            var cs := ChunksRead(outcomes);
            && |ds| == 2 * |cs|
            && forall k :: 0 <= k < |cs| ==>
                 ds[2 * k] == ChunkVolume(cs[k], rmsOf, log10) && ds[2 * k + 1] == Data(cs[k])
  {
    if outcomes != [] && (outcomes[0].Samples? || IsRetry(outcomes[0])) {
      DeliveriesPaired(outcomes[1..], rmsOf, log10);
      if outcomes[0].Samples? {
        var ds := Deliveries(outcomes, true, rmsOf, log10);
        var cs := ChunksRead(outcomes);
        forall k | 1 <= k < |cs|
          ensures ds[2 * k] == ChunkVolume(cs[k], rmsOf, log10) && ds[2 * k + 1] == Data(cs[k])
        {
          assert ds[2 * k] == Deliveries(outcomes[1..], true, rmsOf, log10)[2 * (k - 1)];
          assert ds[2 * k + 1] == Deliveries(outcomes[1..], true, rmsOf, log10)[2 * (k - 1) + 1];
        }
      }
    }
  }

  /** Without a callback nothing is delivered. */
  lemma {:induction false} NoCallbackNoDeliveries(outcomes: seq<MicRead>, rmsOf: seq<Int8> -> real, log10: real -> real)
    requires forall k :: 0 <= k < |outcomes| ==> WellFormedRead(outcomes[k])
    ensures Deliveries(outcomes, false, rmsOf, log10) == []
  {
    if outcomes != [] && (outcomes[0].Samples? || IsRetry(outcomes[0])) {
      NoCallbackNoDeliveries(outcomes[1..], rmsOf, log10);
    }
  }

  /**
   * The `while (isStart.get())` loop of `recordCoroutine`, for a run flag that
   * stays set: it returns what the loop hands to the callback.
   */
  method ReadLoop(outcomes: seq<MicRead>, callback: bool, rmsOf: seq<Int8> -> real, log10: real -> real)
    returns (delivered: seq<Event>)
    requires forall k :: 0 <= k < |outcomes| ==> WellFormedRead(outcomes[k])
    ensures delivered == Deliveries(outcomes, callback, rmsOf, log10)
  {
    delivered := [];
    var i := 0;
    while i < |outcomes|
      invariant 0 <= i <= |outcomes|
      invariant Deliveries(outcomes, callback, rmsOf, log10) == delivered + Deliveries(outcomes[i..], callback, rmsOf, log10)
      decreases |outcomes| - i
    {
      assert outcomes[i..][1..] == outcomes[i + 1..];
      var r := outcomes[i];
      if r.Samples? {
        var volume := ChunkVolume(r.bytes, rmsOf, log10);
        if callback {
          delivered := delivered + [volume, Data(r.bytes)];
        }
      } else if !IsRetry(r) {
        break;
      }
      i := i + 1;
    }
  }

  class AudioRecorder {
    var recorder: RecorderSlot
    var isStart: bool
    var job: JobState
    var callback: bool
    var log: seq<Event>

    constructor ()
      ensures recorder == NoRecorder && !isStart && job == NoJob && !callback && log == []
    {
      recorder, isStart, job, callback, log := NoRecorder, false, NoJob, false, [];
    }

    /** `registerCallback`. */
    method RegisterCallback()
      modifies this`callback
      ensures callback
    {
      callback := true;
    }

    /** Stops (when initialised) and releases the recorder in the slot, if any. */
    static function Teardown(slot: RecorderSlot): (events: seq<Event>)
      ensures slot == NoRecorder <==> events == []
      ensures events != [] ==> events[|events| - 1] == RecorderReleased
      ensures RecorderStopped in events <==> slot == Recorder(true)
      ensures |events| == (if slot == Recorder(true) then 2 else if slot.Recorder? then 1 else 0)
    {
      match slot
      case NoRecorder => []
      case Recorder(initialized) => (if initialized then [RecorderStopped] else []) + [RecorderReleased]
    }

    /**
     * `startRecordInternal`: cancels the previous job, creates a recorder if
     * there is none, then sets the run flag and launches a new job. Creating the
     * recorder without the record permission throws; the exception is caught
     * here, after the previous job was cancelled.
     */
    method StartRecordInternal(permission: bool, deviceReady: bool)
      modifies this`recorder, this`isStart, this`job
      ensures old(recorder) == NoRecorder && !permission ==>
                recorder == NoRecorder && isStart == old(isStart) &&
                job == (if old(job) == NoJob then NoJob else Cancelled)
      ensures old(recorder) != NoRecorder || permission ==>
                isStart && job == Running &&
                recorder == (if old(recorder) == NoRecorder then Recorder(deviceReady) else old(recorder))
    {
      if job != NoJob {
        job := Cancelled;
      }
      if recorder == NoRecorder {
        if !permission {
          return;
        }
        recorder := Recorder(deviceReady);
      }
      isStart := true;
      job := Running;
    }

    /** `stopRecord`: clears the run flag, drops the job, tears the recorder down and forgets the callback. */
    method StopRecord()
      modifies this
      ensures !isStart && job == NoJob && recorder == NoRecorder && !callback
      ensures log == old(log) + Teardown(old(recorder))
    {
      isStart := false;
      job := NoJob;
      log := log + Teardown(recorder);
      recorder := NoRecorder;
      callback := false;
    }

    /**
     * `recordCoroutine`. An uninitialised recorder is handed to `stopRecord`;
     * an initialised one is started and read from while the run flag is set,
     * and is always stopped and released on the way out.
     */
    method RecordCoroutine(outcomes: seq<MicRead>, rmsOf: seq<Int8> -> real, log10: real -> real)
      requires forall k :: 0 <= k < |outcomes| ==> WellFormedRead(outcomes[k])
      modifies this
      ensures recorder == NoRecorder
      ensures old(recorder) == NoRecorder ==> unchanged(this)
      ensures old(recorder) == Recorder(false) ==>
                !isStart && job == NoJob && !callback && log == old(log) + [RecorderReleased]
      ensures old(recorder) == Recorder(true) ==>
                && isStart == old(isStart) && job == old(job) && callback == old(callback)
                && log == old(log) + [RecorderStarted]
                                   + (if isStart then Deliveries(outcomes, callback, rmsOf, log10) else [])
                                   + [RecorderStopped, RecorderReleased]
    {
      match recorder
      case NoRecorder =>
      case Recorder(initialized) =>
        if !initialized {
          StopRecord();
          return;
        }
        log := log + [RecorderStarted];
        if isStart {
          var delivered := ReadLoop(outcomes, callback, rmsOf, log10);
          log := log + delivered;
        }
        log := log + Teardown(recorder);
        recorder := NoRecorder;
    }
  }
}
