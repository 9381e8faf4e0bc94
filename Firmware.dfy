/** The firmware's main loop (src/main.cpp): paced sensor reads, validation,
    the dashboard update, the periodic upload of an averaged batch, and the
    over-the-air update handlers that pause it all. Sensor reads, link status
    readings, the HTTP exchange, the observer count and the clock value of a
    pass are inputs. */
module Firmware {
  import opened Readings
  import opened Clock
  import opened SensorUtils
  import opened Averaging
  import opened Dashboard
  import opened Network
  import opened ThingSpeak

  /** Milliseconds between two upload windows. */
  const SEND_INTERVAL: nat := 20000
  /** Milliseconds between two sensor reads. */
  const SENSOR_READ_INTERVAL: nat := 1000

  /** Everything one pass of `loop` observes from outside: the clock, the
      sensor read (None when it fails), the link status readings, the HTTP
      reply and the number of connected observers. */
  datatype Inputs = Inputs(now: Millis, sensor: Option<Reading>, wifi: WifiProbe,
                           http: HttpReply, clients: nat)

  /** What happened in the upload window of a pass that recorded a reading. */
  datatype Upload =
    | NotDue
    | Collecting(count: nat)
    | Uploaded(batch: Reading, request: Option<seq<FieldValue>>, success: bool)

  /** How a pass of `loop` ended. */
  datatype Tick =
    | Paused                 // an OTA update is in progress
    | Waiting                // less than SENSOR_READ_INTERVAL since the last read
    | ReadFailed             // the sensor read failed
    | Rejected               // the reading failed validation
    | Recorded(broadcast: Option<Outgoing>, upload: Upload)

  /** The firmware's state as `loop` sees it: its own globals, the readings
      pending in the accumulator, every entry pushed into the dashboard
      history, and the link supervisor's counters. */
  datatype LoopState = LoopState(ota: bool, lastPercent: U32, lastSend: Millis, lastRead: Millis,
                                 pending: seq<Reading>, history: seq<HistoryEntry>, link: Supervisor)

  predicate AllValid(rs: seq<Reading>)
  {
    forall i :: 0 <= i < |rs| ==> IsValidReading(rs[i])
  }

  /** Sending a drained batch of `pending`: the mean is validated, the link is
      made ready (calling `reconnect` only when it was down), and the request
      is issued only if both hold; the result is the new link counters and the
      upload's record. */
  function SendBatch(pending: seq<Reading>, link: Supervisor, env: Inputs): (out: (Supervisor, Upload))
    requires |pending| >= AVERAGING_SAMPLES
  {
    var batch := Average(pending);
    var next := if IsValidReading(batch) && !env.wifi.linkUp
                then ReconnectStep(link, env.now, env.wifi.atReconnect, env.wifi.afterAttempt).next
                else link;
    var request := if IsValidReading(batch) && LinkReady(link, env.now, env.wifi)
                   then Some(UploadFields(batch)) else None;
    var success := request.Some? && ReplyAccepted(env.http.code, env.http.body);
    (next, Uploaded(batch, request, success))
  }

  /** The upload window of a pass: with fewer than AVERAGING_SAMPLES pending
      readings it only restarts the interval; with enough, the pending readings
      are drained into a batch that is sent, and the interval restarts whatever
      the upload's result. */
  function UploadWindow(s: LoopState, env: Inputs): (out: (LoopState, Upload))
    requires Elapsed(env.now, s.lastSend) >= SEND_INTERVAL
  {
    if |s.pending| >= AVERAGING_SAMPLES then
      var (link, upload) := SendBatch(s.pending, s.link, env);
      (s.(lastSend := env.now, pending := [], link := link), upload)
    else
      (s.(lastSend := env.now), Collecting(|s.pending|))
  }

  /** One pass of `loop`, given the state before it. */
  function Step(s: LoopState, env: Inputs): (out: (LoopState, Tick))
    // the loop never touches the OTA globals
    ensures out.0.ota == s.ota && out.0.lastPercent == s.lastPercent
    // a history entry is added exactly when a reading is recorded
    ensures out.1.Recorded? ==> env.sensor.Some? && IsValidReading(env.sensor.value)
                                && out.0.history == s.history + [HistoryEntry(env.sensor.value, env.now)]
    ensures !out.1.Recorded? ==> out.0.history == s.history
    // a pass that records nothing leaves the batch and the link alone
    ensures !out.1.Recorded? ==> out.0.pending == s.pending && out.0.link == s.link
  {
    if s.ota then (s, Paused)
    else if Elapsed(env.now, s.lastRead) < SENSOR_READ_INTERVAL then (s, Waiting)
    else
      var read := s.(lastRead := env.now);
      if env.sensor.None? then (read, ReadFailed)
      else if !IsValidReading(env.sensor.value) then (read, Rejected)
      else
        var r := env.sensor.value;
        var shown := read.(history := read.history + [HistoryEntry(r, env.now)]);
        var broadcast := if env.clients > 0 then Some(CurrentMsg(CurrentReadingJson(r, env.now))) else None;
        var (drained, upload) := if Elapsed(env.now, s.lastSend) >= SEND_INTERVAL
                                 then UploadWindow(shown, env) else (shown, NotDue);
        (drained.(pending := drained.pending + [r]), Recorded(broadcast, upload))
  }

  /** While an OTA update is in progress a pass does nothing at all. */
  lemma PausedDuringOta(s: LoopState, env: Inputs)
    requires s.ota
    ensures Step(s, env) == (s, Paused)
  {
  }

  /** Reads are paced: a pass that gets past the pacing check had at least
      SENSOR_READ_INTERVAL elapse since the previous read (on the wrapping
      clock) and restarts the interval; one that does not changes nothing. */
  lemma ReadsArePaced(s: LoopState, env: Inputs)
    ensures var (t, tick) := Step(s, env);
            (tick.Paused? || tick.Waiting?) <==> t == s && (s.ota || Elapsed(env.now, s.lastRead) < SENSOR_READ_INTERVAL)
    ensures var (t, tick) := Step(s, env);
            !tick.Paused? && !tick.Waiting? ==> Elapsed(env.now, s.lastRead) >= SENSOR_READ_INTERVAL && t.lastRead == env.now
  {
  }

  /** A failed or invalid read touches nothing but the read time: no history
      entry, no pending sample, no upload, no link activity. */
  lemma BadReadingNotRecorded(s: LoopState, env: Inputs)
    requires !s.ota && Elapsed(env.now, s.lastRead) >= SENSOR_READ_INTERVAL
    requires env.sensor.None? || !IsValidReading(env.sensor.value)
    ensures Step(s, env).0 == s.(lastRead := env.now)
    ensures Step(s, env).1 == if env.sensor.None? then ReadFailed else Rejected
  {
  }

  /** A recorded reading enters the dashboard history with the pass's time and
      is added to the accumulator after the upload check, so it always ends
      up as the last pending sample. */
  lemma RecordedReadingIsKept(s: LoopState, env: Inputs)
    requires Step(s, env).1.Recorded?
    ensures env.sensor.Some? && IsValidReading(env.sensor.value)
    ensures Step(s, env).0.history == s.history + [HistoryEntry(env.sensor.value, env.now)]
    ensures var p := Step(s, env).0.pending; |p| > 0 && p[|p| - 1] == env.sensor.value
  {
  }

  /** Uploads are paced: the upload window opens only after SEND_INTERVAL has
      elapsed since the last one (on the wrapping clock), and whenever it
      opens it restarts the interval, with or without an upload. */
  lemma UploadsArePaced(s: LoopState, env: Inputs)
    ensures var (t, tick) := Step(s, env);
            tick.Recorded? && !tick.upload.NotDue? ==>
              Elapsed(env.now, s.lastSend) >= SEND_INTERVAL && t.lastSend == env.now
    ensures var (t, tick) := Step(s, env);
            tick.Recorded? && tick.upload.NotDue? ==>
              Elapsed(env.now, s.lastSend) < SEND_INTERVAL && t.lastSend == s.lastSend
  {
  }

  /** An uploaded batch is the mean of at least AVERAGING_SAMPLES readings,
      exactly those pending before the pass; afterwards only the pass's own
      reading is pending, whether or not the upload succeeded, so a failed
      upload loses the batch. */
  lemma UploadDrainsBatch(s: LoopState, env: Inputs)
    requires Step(s, env).1.Recorded? && Step(s, env).1.upload.Uploaded?
    ensures |s.pending| >= AVERAGING_SAMPLES
    ensures Step(s, env).1.upload.batch == Average(s.pending)
    ensures Step(s, env).0.pending == [env.sensor.value]
  {
  }

  /** The validation inside the upload never rejects a batch the loop builds:
      every pending sample passed validation, so their mean does too, and a
      request is issued exactly when the link is usable. */
  lemma UploadedBatchIsValid(s: LoopState, env: Inputs)
    requires AllValid(s.pending)
    requires Step(s, env).1.Recorded? && Step(s, env).1.upload.Uploaded?
    ensures IsValidReading(Step(s, env).1.upload.batch)
    ensures Step(s, env).1.upload.request.Some? <==> LinkReady(s.link, env.now, env.wifi)
  {
    AverageOfValidIsValid(s.pending);
  }

  /** Only validated readings are ever pending. */
  lemma StepKeepsPendingValid(s: LoopState, env: Inputs)
    requires AllValid(s.pending)
    ensures AllValid(Step(s, env).0.pending)
  {
    var t := Step(s, env).0;
    if Step(s, env).1.Recorded? {
      assert t.pending[..|t.pending| - 1] == s.pending || t.pending[..|t.pending| - 1] == [];
    }
  }

  /** Once MAX_RECONNECT_ATTEMPTS attempts have failed, the link coming back
      by itself does not clear the counter: the upload only calls `reconnect`
      when its own status reading says the link is down, so the counter is
      cleared only if the link is found up between that reading and
      `reconnect`'s first one. */
  lemma ExhaustionOutlivesRecovery(s: LoopState, env: Inputs)
    requires s.link.attempts == MAX_RECONNECT_ATTEMPTS
    ensures Step(s, env).0.link.attempts == MAX_RECONNECT_ATTEMPTS
            || (!env.wifi.linkUp && env.wifi.atReconnect)
  {
  }

  /** ArduinoOTA's progress percentage: `(progress * 100) / total` in unsigned
      32-bit arithmetic, or 0 when the total is 0. */
  function OtaPercent(progress: U32, total: U32): (p: U32)
    ensures total == 0 ==> p == 0
    ensures total != 0 && progress * 100 < WRAP ==> p * total <= progress * 100 < (p + 1) * total
  {
    if total == 0 then 0 else ((progress * 100) % WRAP) / total
  }

  lemma MulMonotone(a: int, b: int, c: nat)
    requires a <= b
    ensures a * c <= b * c
  {
  }

  /** Without overflow the percentage never exceeds 100 while progress is
      within the total, and reaches 100 at the end. */
  lemma OtaPercentBounded(progress: U32, total: U32)
    requires 0 < total && progress <= total && progress * 100 < WRAP
    ensures OtaPercent(progress, total) <= 100
    ensures progress == total ==> OtaPercent(progress, total) == 100
  {
    var p := OtaPercent(progress, total);
    MulMonotone(progress, total, 100);
    if p > 100 {
      MulMonotone(101, p, total);
    }
    if progress == total && p < 100 {
      MulMonotone(p + 1, 100, total);
    }
  }

  class Firmware {
    var otaInProgress: bool
    /** The `static` last reported percentage of the progress handler. */
    var lastPercent: U32
    var lastSendTime: Millis
    var lastSensorReadTime: Millis
    const acc: DataAveraging
    const dash: WebDashboard
    const net: NetworkManager

    /** The components are consistent and every pending sample is valid. */
    ghost predicate Valid()
      reads this, acc, dash, dash.history, net
    {
      acc.Valid() && dash.Valid() && net.Valid() && AllValid(acc.pending)
    }

    ghost function State(): LoopState
      reads this, acc, dash, net
    {
      LoopState(otaInProgress, lastPercent, lastSendTime, lastSensorReadTime,
                acc.pending, dash.pushed, net.State())
    }

    /** The globals' initial values and the components' constructors. */
    constructor ()
      ensures Valid() && fresh(acc) && fresh(dash) && fresh(dash.history) && fresh(net)
      ensures State() == LoopState(false, 0, 0, 0, [], [], Initial)
    {
      otaInProgress := false;
      lastPercent := 0;
      lastSendTime := 0;
      lastSensorReadTime := 0;
      acc := new DataAveraging();
      dash := new WebDashboard();
      net := new NetworkManager();
    }

    /** The OTA start handler: sets the pause flag and nothing else. */
    method OnOtaStart()
      requires Valid()
      modifies this
      ensures Valid()
      ensures State() == old(State()).(ota := true)
    {
      otaInProgress := true;
    }

    /** The OTA error handler: clears the pause flag and nothing else. */
    method OnOtaError()
      requires Valid()
      modifies this
      ensures Valid()
      ensures State() == old(State()).(ota := false)
    {
      otaInProgress := false;
    }

    /** The OTA progress handler: reports the percentage, and remembers it,
        only when it differs from the last one reported and is a multiple
        of 10. */
    method OnOtaProgress(progress: U32, total: U32) returns (reported: Option<U32>)
      requires Valid()
      modifies this
      ensures Valid()
      ensures var p := OtaPercent(progress, total);
              reported == if p != old(lastPercent) && p % 10 == 0 then Some(p) else None
      ensures State() == old(State()).(lastPercent := if reported.Some? then reported.value else old(lastPercent))
    {
      var percent: U32 := 0;
      if total != 0 {
        percent := ((progress * 100) % WRAP) / total;
      }
      reported := None;
      if percent != lastPercent && percent % 10 == 0 {
        reported := Some(percent);
        lastPercent := percent;
      }
    }

    /** The upload window of `loop`: with enough samples, drain the
        accumulator into a batch and send it; either way restart the interval. */
    method UploadWindowPass(r: Reading, env: Inputs) returns (upload: Upload)
      requires Valid()
      requires Elapsed(env.now, lastSendTime) >= SEND_INTERVAL
      modifies this, acc, net
      ensures Valid()
      ensures (State(), upload) == UploadWindow(old(State()), env)
    {
      if acc.HasEnoughSamples() {
        upload := UploadBatch(r, env);
      } else {
        upload := Collecting(acc.GetCount());
      }
      lastSendTime := env.now;
    }

    /** The upload branch: the batch is drained from the accumulator before it
        is sent, and the second reset after a success finds it already empty. */
    method UploadBatch(r: Reading, env: Inputs) returns (upload: Upload)
      requires Valid() && |acc.pending| >= AVERAGING_SAMPLES
      modifies acc, net
      ensures acc.Valid() && net.Valid()
      ensures acc.pending == []
      ensures (net.State(), upload) == SendBatch(old(acc.pending), old(net.State()), env)
    {
      ghost var batch := Average(acc.pending);
      AverageOfValidIsValid(acc.pending);
      var avg := acc.GetAveraged(r);
      assert avg == batch;
      var success, request := SendToThingSpeak(net, avg, env.now, env.wifi, env.http);
      if success {
        acc.Reset();
      }
      upload := Uploaded(avg, request, success);
    }

    /** loop: one pass, proved to be the pass described by `Step`. */
    method Loop(env: Inputs) returns (tick: Tick)
      requires Valid()
      modifies this, acc, dash, dash.history, net
      ensures Valid()
      ensures (State(), tick) == Step(old(State()), env)
    {
      if otaInProgress {
        return Paused;
      }
      var currentTime := env.now;
      if Elapsed(currentTime, lastSensorReadTime) < SENSOR_READ_INTERVAL {
        return Waiting;
      }
      lastSensorReadTime := currentTime;
      if env.sensor.None? {
        return ReadFailed;
      }
      var r := env.sensor.value;
      if !IsValidReading(r) {
        return Rejected;
      }
      var broadcast := dash.Handle(r, currentTime, env.clients);
      var upload := NotDue;
      if Elapsed(currentTime, lastSendTime) >= SEND_INTERVAL {
        upload := UploadWindowPass(r, env);
      }
      acc.AddReading(r);
      tick := Recorded(broadcast, upload);
    }
  }
}
