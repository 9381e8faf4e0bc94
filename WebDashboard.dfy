/** The dashboard side of the firmware (src/WebDashboard.cpp): the 60-slot
    history ring buffer, the history snapshot sent to observers, the live
    reading message with its quality rule, and the observer command dispatch. */
module Dashboard {
  import opened Readings
  import opened Clock
  import opened Window
  import opened SensorUtils

  /** HISTORY_SIZE: slots in the ring buffer. */
  const HISTORY_SIZE: nat := 60

  /** `SensorReading`: one history slot, a reading and its capture time. */
  datatype HistoryEntry = HistoryEntry(reading: Reading, timestamp: Millis)

  const EmptyEntry: HistoryEntry := HistoryEntry(Reading(Num(0.0), Num(0.0), Num(0.0), Num(0.0),
                                                         Num(0.0), Num(0.0), Num(0.0), Num(0.0)), 0)

  /** C's `round`: to the nearest integer, halves away from zero. */
  function RoundHalfAway(x: real): (n: int)
    ensures -0.5 <= n as real - x <= 0.5
    ensures x >= 0.0 ==> n >= 0
    ensures x <= 0.0 ==> n <= 0
  {
    if x >= 0.0 then (x + 0.5).Floor else -((-x + 0.5).Floor)
  }

  /** `round(x * 10) / 10.0`: one decimal place; NaN stays NaN. */
  function Round1(x: F): (y: F)
    ensures y.NaN? <==> x.NaN?
    ensures y.Num? ==> -0.05 <= y.r - x.r <= 0.05
  {
    if x.Num? then Num(RoundHalfAway(x.r * 10.0) as real / 10.0) else NaN
  }

  /** `round(x)`: a whole number; NaN stays NaN. */
  function RoundWhole(x: F): (y: F)
    ensures y.NaN? <==> x.NaN?
    ensures y.Num? ==> -0.5 <= y.r - x.r <= 0.5
  {
    if x.Num? then Num(RoundHalfAway(x.r) as real) else NaN
  }

  /** One element of the history snapshot. Only these five fields are sent:
      PM1, PM4, PM10 and NOx never leave the buffer. */
  datatype HistoryRecord = HistoryRecord(pm25: F, temperature: F, humidity: F, voc: F,
                                         timestamp: Millis)

  function ToRecord(e: HistoryEntry): HistoryRecord
  {
    HistoryRecord(Round1(e.reading.pm25), Round1(e.reading.temperature),
                  Round1(e.reading.humidity), RoundWhole(e.reading.voc), e.timestamp)
  }

  function Records(es: seq<HistoryEntry>): (rs: seq<HistoryRecord>)
    ensures |rs| == |es|
    ensures forall k :: 0 <= k < |es| ==> rs[k] == ToRecord(es[k])
  {
    seq(|es|, k requires 0 <= k < |es| => ToRecord(es[k]))
  }

  /** The live-reading quality rule: strict `<` at 15, 35 and 55; NaN fails
      every comparison and lands in the last branch. */
  function LiveCategory(pm25: F): (cat: Category)
    ensures cat == Good <==> Lt(pm25, 15.0)
    ensures cat == Moderate <==> pm25.Num? && 15.0 <= pm25.r < 35.0
    ensures cat == UnhealthySensitive <==> pm25.Num? && 35.0 <= pm25.r < 55.0
    ensures cat == Unhealthy <==> pm25.NaN? || pm25.r >= 55.0
  {
    if Lt(pm25, 15.0) then Good
    else if Lt(pm25, 35.0) then Moderate
    else if Lt(pm25, 55.0) then UnhealthySensitive
    else Unhealthy
  }

  /** The quality code carried by the live-reading message. */
  function QualityCode(cat: Category): string
  {
    match cat
    case Good => "GOOD"
    case Moderate => "MODERATE"
    case UnhealthySensitive => "UNHEALTHY_SENSITIVE"
    case Unhealthy => "UNHEALTHY"
  }

  /** The live rule and getPM25Quality agree everywhere except at exactly 15,
      35 and 55, where the live rule reports the next worse category. */
  lemma ClassifiersDisagreeOnlyAtBoundaries(x: real)
    ensures x == 15.0 || x == 35.0 || x == 55.0 ==>
              Rank(LiveCategory(Num(x))) == Rank(Pm25Category(Num(x))) + 1
    ensures x != 15.0 && x != 35.0 && x != 55.0 ==> LiveCategory(Num(x)) == Pm25Category(Num(x))
  {
  }

  /** The live-reading message. */
  datatype CurrentReading = CurrentReading(pm1: F, pm25: F, pm4: F, pm10: F,
                                           temperature: F, humidity: F, voc: F, nox: F,
                                           timestamp: Millis, quality: string)

  /** createCurrentReadingJSON: analog channels to one decimal, gas indices to
      whole numbers, and the quality of the unrounded PM2.5 value. */
  function CurrentReadingJson(r: Reading, now: Millis): (m: CurrentReading)
    ensures m.timestamp == now
    ensures m.quality == "GOOD" <==> Lt(r.pm25, 15.0)
    ensures m.quality == "MODERATE" <==> r.pm25.Num? && 15.0 <= r.pm25.r < 35.0
    ensures m.quality == "UNHEALTHY_SENSITIVE" <==> r.pm25.Num? && 35.0 <= r.pm25.r < 55.0
    ensures m.quality == "UNHEALTHY" <==> r.pm25.NaN? || r.pm25.r >= 55.0
    ensures m.pm25.NaN? <==> r.pm25.NaN?
    ensures m.pm25.Num? ==> -0.05 <= m.pm25.r - r.pm25.r <= 0.05
    ensures m.voc.Num? ==> r.voc.Num? && m.voc.r == m.voc.r.Floor as real && -0.5 <= m.voc.r - r.voc.r <= 0.5
  {
    CurrentReading(Round1(r.pm1), Round1(r.pm25), Round1(r.pm4), Round1(r.pm10),
                   Round1(r.temperature), Round1(r.humidity), RoundWhole(r.voc), RoundWhole(r.nox),
                   now, QualityCode(LiveCategory(r.pm25)))
  }

  /** The status summary; its values come from the device and are given. */
  datatype StatusInfo = StatusInfo(uptimeSeconds: nat, freeHeap: nat, heapSize: nat,
                                   clients: nat, sensorInitialized: bool, averageCount: nat)

  /** Messages the dashboard sends to observers. */
  datatype Outgoing =
    | HistoryMsg(entries: seq<HistoryRecord>)
    | StatusMsg(status: StatusInfo)
    | CurrentMsg(reading: CurrentReading)

  datatype Opcode = Text | Binary | Continuation | Ping | Pong | Close

  /** The frame information the WebSocket library hands to the event handler:
      final flag, offset of this frame in its message, message length, opcode. */
  datatype FrameInfo = FrameInfo(final: bool, index: nat, len: nat, opcode: Opcode)

  datatype WsEvent =
    | Connect
    | Disconnect
    | Error
    | PongEvent
    | Data(info: FrameInfo, payload: string)

  /** The payload read as a C string: everything before the first NUL. */
  function CString(s: string): (m: string)
    ensures |m| <= |s| && m == s[..|m|]
    ensures '\0' !in m
    ensures |m| < |s| ==> s[|m|] == '\0'
  {
    if s == [] || s[0] == '\0' then [] else [s[0]] + CString(s[1..])
  }

  /** The text command carried by an event: present only for a single,
      complete, unfragmented text frame. */
  function TextCommand(ev: WsEvent): (cmd: Option<string>)
    ensures cmd.Some? <==> ev.Data? && ev.info.final && ev.info.index == 0
                           && ev.info.len == |ev.payload| && ev.info.opcode == Text
  {
    if ev.Data? && ev.info.final && ev.info.index == 0 && ev.info.len == |ev.payload|
       && ev.info.opcode == Text then
      Some(CString(ev.payload))
    else
      None
  }

  lemma ModSixtyDistinct(i: int, j: int)
    requires 0 <= i < j < i + HISTORY_SIZE
    ensures i % HISTORY_SIZE != j % HISTORY_SIZE
  {
    var qi, qj := i / HISTORY_SIZE, j / HISTORY_SIZE;
    assert i == qi * HISTORY_SIZE + i % HISTORY_SIZE;
    assert j == qj * HISTORY_SIZE + j % HISTORY_SIZE;
  }

  lemma ModSixtyShift(a: int, i: int)
    requires a >= HISTORY_SIZE && 0 <= i
    ensures (a - HISTORY_SIZE + i) % HISTORY_SIZE == (a % HISTORY_SIZE + i) % HISTORY_SIZE
  {
    var q := a / HISTORY_SIZE;
    var r := a % HISTORY_SIZE;
    assert a - HISTORY_SIZE + i == (q - 1) * HISTORY_SIZE + (r + i);
    ModMultiple(q - 1, r + i);
  }

  lemma ModMultiple(k: int, x: int)
    ensures (k * HISTORY_SIZE + x) % HISTORY_SIZE == x % HISTORY_SIZE
  {
    var y := k * HISTORY_SIZE + x;
    assert y == (y / HISTORY_SIZE) * HISTORY_SIZE + y % HISTORY_SIZE;
    assert x == (x / HISTORY_SIZE) * HISTORY_SIZE + x % HISTORY_SIZE;
    var d := y / HISTORY_SIZE - k - x / HISTORY_SIZE;
    assert d * HISTORY_SIZE == x % HISTORY_SIZE - y % HISTORY_SIZE;
  }

  class WebDashboard {
    const history: array<HistoryEntry>
    var historyIndex: nat
    var historyFull: bool
    /** Every entry ever added, oldest first. */
    ghost var pushed: seq<HistoryEntry>

    /** The cursor is the number of pushes modulo 60, the full flag says at
        least 60 pushes happened, and the slot of each of the last 60 pushes
        holds that push. */
    ghost predicate Valid()
      reads this, history
    {
      && history.Length == HISTORY_SIZE
      && historyIndex == |pushed| % HISTORY_SIZE
      && historyFull == (|pushed| >= HISTORY_SIZE)
      && forall i :: 0 <= i < |pushed| && |pushed| - HISTORY_SIZE <= i ==>
           history[i % HISTORY_SIZE] == pushed[i]
    }

    /** What observers are shown: the most recent min(pushes, 60) entries,
        oldest first. */
    ghost function Recent(): seq<HistoryEntry>
      reads this
    {
      LastN(pushed, HISTORY_SIZE)
    }

    /** The constructor starts with an empty buffer: cursor 0, not full. */
    constructor ()
      ensures Valid() && fresh(history)
      ensures historyIndex == 0 && !historyFull && pushed == []
    {
      history := new HistoryEntry[HISTORY_SIZE](_ => EmptyEntry);
      historyIndex := 0;
      historyFull := false;
      pushed := [];
    }

    /** addToHistory: overwrites only the slot under the cursor, advances the
        cursor modulo 60, and sets the full flag when the cursor wraps to 0;
        the flag never goes back to false. */
    method AddToHistory(r: Reading, now: Millis)
      requires Valid()
      modifies this, history
      ensures Valid()
      ensures pushed == old(pushed) + [HistoryEntry(r, now)]
      ensures history[old(historyIndex)] == HistoryEntry(r, now)
      ensures forall j :: 0 <= j < HISTORY_SIZE && j != old(historyIndex) ==>
                history[j] == old(history[j])
      ensures historyIndex == (old(historyIndex) + 1) % HISTORY_SIZE
      ensures historyFull == (old(historyFull) || historyIndex == 0)
    {
      var e := HistoryEntry(r, now);
      history[historyIndex] := e;
      historyIndex := (historyIndex + 1) % HISTORY_SIZE;
      if historyIndex == 0 {
        historyFull := true;
      }
      ghost var n := |pushed|;
      pushed := pushed + [e];
      ModMultiple(n / HISTORY_SIZE, n % HISTORY_SIZE + 1);
      assert n + 1 == (n / HISTORY_SIZE) * HISTORY_SIZE + (n % HISTORY_SIZE + 1);
      forall i | 0 <= i < |pushed| && |pushed| - HISTORY_SIZE <= i
        ensures history[i % HISTORY_SIZE] == pushed[i]
      {
        if i < n {
          ModSixtyDistinct(i, n);
        }
      }
    }

    /** createHistoryJSON: walks the buffer from the oldest slot and emits the
        most recent min(pushes, 60) entries oldest first, without changing it. */
    method CreateHistoryJson() returns (records: seq<HistoryRecord>)
      requires Valid()
      ensures records == Records(Recent())
    {
      var count := if historyFull then HISTORY_SIZE else historyIndex;
      var startIdx := if historyFull then historyIndex else 0;
      ghost var w := Recent();
      ghost var n := |pushed|;
      assert count == |w|;
      records := [];
      var i := 0;
      while i < count
        invariant 0 <= i <= count
        invariant |records| == i
        invariant forall k :: 0 <= k < i ==> records[k] == ToRecord(w[k])
      {
        var idx := (startIdx + i) % HISTORY_SIZE;
        if historyFull {
          ModSixtyShift(n, i);
        }
        assert history[idx] == pushed[n - count + i];
        records := records + [ToRecord(history[idx])];
        i := i + 1;
      }
    }

    /** handle: the reading always enters the history; the live message is
        broadcast only when at least one observer is connected. */
    method Handle(r: Reading, now: Millis, clients: nat) returns (broadcast: Option<Outgoing>)
      requires Valid()
      modifies this, history
      ensures Valid()
      ensures pushed == old(pushed) + [HistoryEntry(r, now)]
      ensures broadcast == if clients > 0 then Some(CurrentMsg(CurrentReadingJson(r, now))) else None
    {
      AddToHistory(r, now);
      if clients > 0 {
        broadcast := Some(CurrentMsg(CurrentReadingJson(r, now)));
      } else {
        broadcast := None;
      }
    }

    /** onWebSocketEvent: a new observer gets the history and then the status;
        a single-frame text "getHistory" or "getStatus" gets exactly the
        matching reply; every other event gets no reply. */
    method OnWebSocketEvent(ev: WsEvent, status: StatusInfo) returns (replies: seq<Outgoing>)
      requires Valid()
      ensures ev.Connect? ==> replies == [HistoryMsg(Records(Recent())), StatusMsg(status)]
      ensures TextCommand(ev) == Some("getHistory") ==> replies == [HistoryMsg(Records(Recent()))]
      ensures TextCommand(ev) == Some("getStatus") ==> replies == [StatusMsg(status)]
      ensures (!ev.Connect? && TextCommand(ev) != Some("getHistory")
               && TextCommand(ev) != Some("getStatus")) ==> replies == []
    {
      replies := [];
      if ev.Connect? {
        var h := CreateHistoryJson();
        replies := [HistoryMsg(h), StatusMsg(status)];
      } else if ev.Data? {
        var info := ev.info;
        if info.final && info.index == 0 && info.len == |ev.payload| {
          if info.opcode == Text {
            var message := CString(ev.payload);
            if message == "getHistory" {
              var h := CreateHistoryJson();
              replies := [HistoryMsg(h)];
            } else if message == "getStatus" {
              replies := [StatusMsg(status)];
            }
          }
        }
      }
    }
  }

  /** The snapshot after a run of pushes from an empty buffer: fewer than 60
      pushes are all kept in order; from then on exactly the 60 most recent. */
  lemma SnapshotOfStream(s: seq<HistoryEntry>)
    ensures |s| <= HISTORY_SIZE ==> LastN(s, HISTORY_SIZE) == s
    ensures |s| > HISTORY_SIZE ==> LastN(s, HISTORY_SIZE) == s[|s| - HISTORY_SIZE..]
  {
  }
}
