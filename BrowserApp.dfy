/** The dashboard page's script (data/app.js): the per-channel history arrays
    capped at 60 values, their reload from a history message, the dispatch of
    incoming messages, the quality label lookup, the uptime display and the
    single reconnect timer. Messages arrive already parsed; the DOM, the gauge
    and the sparklines are not modelled. */
module BrowserApp {
  import opened Readings
  import opened Window
  import opened SensorUtils
  import opened Dashboard

  /** `maxHistory`: values kept per channel array. */
  const MAX_HISTORY: nat := 60

  /** The numeric fields of a live-reading message, and its quality code. */
  datatype Sample = Sample(pm1: real, pm25: real, pm4: real, pm10: real,
                           temperature: real, humidity: real, voc: real, nox: real,
                           quality: string)

  /** One element of a history message; a field may be absent (`undefined`). */
  datatype HistoryPoint = HistoryPoint(pm25: Option<real>, temperature: Option<real>,
                                       humidity: Option<real>, voc: Option<real>)

  /** A parsed message: its `type`, its `history` array, the live-reading
      fields (None when they are absent) and the status `uptime`. */
  datatype Message = Message(msgType: Option<string>, history: Option<seq<HistoryPoint>>,
                             current: Option<Sample>, uptime: Option<nat>)

  // ---------------------------------------------------------------------
  // Bounded channel arrays

  /** One channel of `addToHistory`: push the value, then drop the first
      element if the array has grown beyond MAX_HISTORY. */
  function Push(a: seq<real>, x: real): seq<real>
  {
    Shifted(a + [x])
  }

  /** The trimming half of `addToHistory` on one array: the first element is
      dropped when there are more than MAX_HISTORY. */
  function Shifted(a: seq<real>): seq<real>
  {
    if |a| > MAX_HISTORY then a[1..] else a
  }

  /** `shift` on one array when it exceeds the cap: at most the oldest value
      is dropped, and an array at most one value over the cap is brought back
      to exactly its last MAX_HISTORY values. */
  method ShiftIfOver(a: seq<real>) returns (b: seq<real>)
    ensures b == Shifted(a)
    ensures |a| - 1 <= |b| <= |a| && b == a[|a| - |b|..]
    ensures |a| <= MAX_HISTORY + 1 ==> b == LastN(a, MAX_HISTORY)
  {
    b := a;
    if |b| > MAX_HISTORY {
      b := b[1..];
    }
  }

  /** On an array within the cap, a push keeps exactly the most recent
      MAX_HISTORY values, oldest first. */
  lemma PushIsWindow(a: seq<real>, x: real)
    requires |a| <= MAX_HISTORY
    ensures Push(a, x) == LastN(a + [x], MAX_HISTORY)
    ensures |Push(a, x)| <= MAX_HISTORY
  {
  }

  /** The array after pushing every value of `xs` in order. */
  function PushAll(a: seq<real>, xs: seq<real>): seq<real>
    decreases |xs|
  {
    if xs == [] then a else Push(PushAll(a, xs[..|xs| - 1]), xs[|xs| - 1])
  }

  /** However long the stream of live readings, an array that started within
      the cap holds exactly the last MAX_HISTORY values of its initial content
      followed by the stream. */
  lemma {:induction false} PushAllIsWindow(a: seq<real>, xs: seq<real>)
    requires |a| <= MAX_HISTORY
    ensures PushAll(a, xs) == LastN(a + xs, MAX_HISTORY)
    decreases |xs|
  {
    if xs != [] {
      var init, x := xs[..|xs| - 1], xs[|xs| - 1];
      PushAllIsWindow(a, init);
      PushOntoWindow(a + init, x);
      assert a + init + [x] == a + xs;
    }
  }

  /** Pushing onto the window of a stream gives the window of the longer stream. */
  lemma PushOntoWindow(s: seq<real>, x: real)
    ensures Push(LastN(s, MAX_HISTORY), x) == LastN(s + [x], MAX_HISTORY)
  {
    PushIsWindow(LastN(s, MAX_HISTORY), x);
    LastNAppend(s, x, MAX_HISTORY);
  }

  // ---------------------------------------------------------------------
  // Reloading from a history message

  /** The four channels a history message carries. */
  datatype Column = Pm25Col | TemperatureCol | HumidityCol | VocCol

  function Field(p: HistoryPoint, c: Column): Option<real>
  {
    match c
    case Pm25Col => p.pm25
    case TemperatureCol => p.temperature
    case HumidityCol => p.humidity
    case VocCol => p.voc
  }

  /** The defined values of column `c`, in the order of the points. */
  function Defined(h: seq<HistoryPoint>, c: Column): (vs: seq<real>)
    ensures |vs| <= |h|
  {
    if h == [] then []
    else Defined(h[..|h| - 1], c) + (if Field(h[|h| - 1], c).Some? then [Field(h[|h| - 1], c).value] else [])
  }

  /** With no value missing, a column is reloaded value for value. */
  lemma {:induction false} DefinedWhenComplete(h: seq<HistoryPoint>, c: Column)
    requires forall k :: 0 <= k < |h| ==> Field(h[k], c).Some?
    ensures |Defined(h, c)| == |h|
    ensures forall k :: 0 <= k < |h| ==> Defined(h, c)[k] == Field(h[k], c).value
  {
    if h != [] {
      DefinedWhenComplete(h[..|h| - 1], c);
    }
  }

  /** A helper of CollectDefined: `if (value !== undefined) array.push(value)`. */
  method PushIfDefined(vs: seq<real>, o: Option<real>) returns (ws: seq<real>)
    ensures ws == vs + (if o.Some? then [o.value] else [])
  {
    ws := vs;
    if o.Some? {
      ws := ws + [o.value];
    }
  }

  /** The forEach of `loadHistoryData`, filling the fresh arrays of the four
      columns a history message carries. */
  method CollectDefined(history: seq<HistoryPoint>)
    returns (pm25: seq<real>, temperature: seq<real>, humidity: seq<real>, voc: seq<real>)
    ensures pm25 == Defined(history, Pm25Col) && temperature == Defined(history, TemperatureCol)
    ensures humidity == Defined(history, HumidityCol) && voc == Defined(history, VocCol)
  {
    pm25, temperature, humidity, voc := [], [], [], [];
    for i := 0 to |history|
      invariant pm25 == Defined(history[..i], Pm25Col)
      invariant temperature == Defined(history[..i], TemperatureCol)
      invariant humidity == Defined(history[..i], HumidityCol)
      invariant voc == Defined(history[..i], VocCol)
    {
      var reading := history[i];
      DefinedStep(history, i);
      pm25 := PushIfDefined(pm25, reading.pm25);
      temperature := PushIfDefined(temperature, reading.temperature);
      humidity := PushIfDefined(humidity, reading.humidity);
      voc := PushIfDefined(voc, reading.voc);
    }
    assert history[..|history|] == history;
  }

  /** One more point extends each column by its value, when it has one. */
  lemma DefinedStep(h: seq<HistoryPoint>, i: nat)
    requires i < |h|
    ensures forall c :: Defined(h[..i + 1], c) ==
              Defined(h[..i], c) + (if Field(h[i], c).Some? then [Field(h[i], c).value] else [])
  {
    assert h[..i + 1][..i] == h[..i];
  }

  /** Missing values are skipped: a column with no defined value reloads empty. */
  lemma {:induction false} DefinedWhenAbsent(h: seq<HistoryPoint>, c: Column)
    requires forall k :: 0 <= k < |h| ==> Field(h[k], c).None?
    ensures Defined(h, c) == []
  {
    if h != [] {
      DefinedWhenAbsent(h[..|h| - 1], c);
    }
  }

  // ---------------------------------------------------------------------
  // Message dispatch and display helpers

  datatype Route = ToCurrent | ToHistory | ToStatus | Ignore

  /** handleWebSocketMessage: `type` "current" first, then any message with a
      `history` array, then `type` "status"; anything else is ignored. */
  function RouteOf(m: Message): (r: Route)
    ensures r == ToCurrent <==> m.msgType == Some("current")
    ensures r == ToHistory <==> m.msgType != Some("current") && m.history.Some?
    ensures r == ToStatus <==> m.msgType == Some("status") && m.history.None?
    ensures r == Ignore <==> m.msgType != Some("current") && m.msgType != Some("status") && m.history.None?
  {
    if m.msgType == Some("current") then ToCurrent
    else if m.history.Some? then ToHistory
    else if m.msgType == Some("status") then ToStatus
    else Ignore
  }

  /** updateAirQualityLabel's lookup: the label text and CSS class of a
      quality code; an unknown code is shown as it is, with no class. */
  function QualityLabel(code: string): (info: (string, string))
    ensures info.1 == "" <==> code != "GOOD" && code != "MODERATE"
                              && code != "UNHEALTHY_SENSITIVE" && code != "UNHEALTHY"
    ensures info.1 == "" ==> info.0 == code
  {
    if code == "GOOD" then ("Good", "good")
    else if code == "MODERATE" then ("Moderate", "moderate")
    else if code == "UNHEALTHY_SENSITIVE" then ("Unhealthy for Sensitive Groups", "unhealthy-sensitive")
    else if code == "UNHEALTHY" then ("Unhealthy", "unhealthy")
    else (code, "")
  }

  /** Every code the firmware sends has its own label and a non-empty class,
      and different categories are labelled differently; anything else falls
      back to the code itself. */
  lemma QualityLabelsCoverFirmwareCodes(a: Category, b: Category, other: string)
    requires other != "GOOD" && other != "MODERATE" && other != "UNHEALTHY_SENSITIVE" && other != "UNHEALTHY"
    ensures QualityLabel(QualityCode(a)).1 != ""
    ensures a != b ==> QualityLabel(QualityCode(a)) != QualityLabel(QualityCode(b))
    ensures QualityLabel(other) == (other, "")
  {
  }

  /** The uptime display: whole hours and the minutes within the hour. */
  function UptimeSplit(uptime: nat): (hm: (nat, nat))
    ensures hm.1 < 60
    ensures hm.0 * 3600 + hm.1 * 60 <= uptime < hm.0 * 3600 + hm.1 * 60 + 60
  {
    (uptime / 3600, (uptime % 3600) / 60)
  }

  /** The firmware reports `millis() / 1000`, which wraps after 2^32 ms, so
      the displayed hours never exceed 1193. */
  lemma UptimeHoursBounded(ms: nat)
    requires ms < 0x1_0000_0000
    ensures UptimeSplit(ms / 1000).0 <= 1193
  {
  }

  // ---------------------------------------------------------------------
  // What the firmware sends, as the page receives it

  predicate Finite(x: F)
  {
    x.Num?
  }

  predicate FiniteRecord(r: HistoryRecord)
  {
    Finite(r.pm25) && Finite(r.temperature) && Finite(r.humidity) && Finite(r.voc)
  }

  predicate FiniteMessage(o: Outgoing)
  {
    match o
    case HistoryMsg(entries) => forall k :: 0 <= k < |entries| ==> FiniteRecord(entries[k])
    case StatusMsg(_) => true
    case CurrentMsg(c) => Finite(c.pm1) && Finite(c.pm25) && Finite(c.pm4) && Finite(c.pm10)
                          && Finite(c.temperature) && Finite(c.humidity) && Finite(c.voc) && Finite(c.nox)
  }

  function ToPoint(r: HistoryRecord): HistoryPoint
    requires FiniteRecord(r)
  {
    HistoryPoint(Some(r.pm25.r), Some(r.temperature.r), Some(r.humidity.r), Some(r.voc.r))
  }

  /** A firmware message as the page parses it: the live reading carries
      `type` "current", the history message only a `history` array, and the
      status message `type` "status" with the uptime in seconds. */
  function Wire(o: Outgoing): (m: Message)
    requires FiniteMessage(o)
    ensures m.msgType == Some("current") <==> o.CurrentMsg?
    ensures m.msgType == Some("status") <==> o.StatusMsg?
    ensures m.history.Some? <==> o.HistoryMsg?
    ensures o.HistoryMsg? ==> |m.history.value| == |o.entries|
    ensures o.CurrentMsg? ==> m.current.Some? && m.current.value.quality == o.reading.quality
    ensures o.StatusMsg? ==> m.uptime == Some(o.status.uptimeSeconds)
  {
    match o
    case HistoryMsg(entries) =>
      Message(None, Some(seq(|entries|, k requires 0 <= k < |entries| => ToPoint(entries[k]))), None, None)
    case StatusMsg(s) =>
      Message(Some("status"), None, None, Some(s.uptimeSeconds))
    case CurrentMsg(c) =>
      Message(Some("current"),  None,
              Some(Sample(c.pm1.r, c.pm25.r, c.pm4.r, c.pm10.r, c.temperature.r, c.humidity.r,
                          c.voc.r, c.nox.r, c.quality)),
              None)
  }

  /** Each kind of message the firmware sends reaches its own handler. */
  lemma FirmwareMessagesRoute(o: Outgoing)
    requires FiniteMessage(o)
    ensures RouteOf(Wire(o)) == match o
                                case CurrentMsg(_) => ToCurrent
                                case HistoryMsg(_) => ToHistory
                                case StatusMsg(_) => ToStatus
  {
  }

  /** Reloading from the firmware's history message restores its PM2.5
      column value for value, oldest first. */
  lemma ReloadedColumnMatchesFirmware(o: Outgoing)
    requires o.HistoryMsg? && FiniteMessage(o)
    ensures var h := Wire(o).history.value;
            |Defined(h, Pm25Col)| == |o.entries|
            && forall k :: 0 <= k < |o.entries| ==> Defined(h, Pm25Col)[k] == o.entries[k].pm25.r
  {
    var h := Wire(o).history.value;
    DefinedWhenComplete(h, Pm25Col);
  }

  /** The commands the page sends on opening are the ones the firmware
      answers, when each is sent as one complete text frame. */
  lemma OpenRequestsAreAnswered(cmd: string)
    requires cmd == "getHistory" || cmd == "getStatus"
    ensures TextCommand(Data(FrameInfo(true, 0, |cmd|, Text), cmd)) == Some(cmd)
  {
    assert forall k :: 0 <= k < |cmd| ==> cmd[k] != '\0';
    CStringWithoutNul(cmd);
  }

  /** A payload without NUL characters is read as a C string in full. */
  lemma {:induction false} CStringWithoutNul(s: string)
    requires forall k :: 0 <= k < |s| ==> s[k] != '\0'
    ensures CString(s) == s
  {
    if s != [] {
      CStringWithoutNul(s[1..]);
    }
  }

  // ---------------------------------------------------------------------
  // The page

  /** What handling a message showed. */
  datatype Effect =
    | ShowedCurrent(info: (string, string))
    | LoadedHistory
    | ShowedStatus(uptime: Option<(nat, nat)>)
    | Ignored
    | Failed   // a "current" message without its fields: the handler throws

  /** `historyData`: the eight channel arrays. */
  datatype HistoryData = HistoryData(pm1: seq<real>, pm25: seq<real>, pm4: seq<real>, pm10: seq<real>,
                                     temperature: seq<real>, humidity: seq<real>,
                                     voc: seq<real>, nox: seq<real>)

  /** addToHistory on all eight arrays. */
  function PushSample(d: HistoryData, s: Sample): HistoryData
  {
    HistoryData(Push(d.pm1, s.pm1), Push(d.pm25, s.pm25), Push(d.pm4, s.pm4), Push(d.pm10, s.pm10),
                Push(d.temperature, s.temperature), Push(d.humidity, s.humidity),
                Push(d.voc, s.voc), Push(d.nox, s.nox))
  }

  /** The arrays loadHistoryData builds: fresh arrays, four of them filled. */
  function Reloaded(h: seq<HistoryPoint>): HistoryData
  {
    HistoryData([], Defined(h, Pm25Col), [], [], Defined(h, TemperatureCol), Defined(h, HumidityCol),
                Defined(h, VocCol), [])
  }

  /** The `Object.keys(historyData).forEach` of addToHistory: each array
      that has grown past the cap loses its oldest value. */
  method ShiftEach(d: HistoryData) returns (e: HistoryData)
    ensures e == HistoryData(Shifted(d.pm1), Shifted(d.pm25), Shifted(d.pm4), Shifted(d.pm10),
                             Shifted(d.temperature), Shifted(d.humidity), Shifted(d.voc),
                             Shifted(d.nox))
  {
    var pm1 := ShiftIfOver(d.pm1);
    var pm25 := ShiftIfOver(d.pm25);
    var pm4 := ShiftIfOver(d.pm4);
    var pm10 := ShiftIfOver(d.pm10);
    var temperature := ShiftIfOver(d.temperature);
    var humidity := ShiftIfOver(d.humidity);
    var voc := ShiftIfOver(d.voc);
    var nox := ShiftIfOver(d.nox);
    e := HistoryData(pm1, pm25, pm4, pm10, temperature, humidity, voc, nox);
  }

  class Page {
    var pm1: seq<real>
    var pm25: seq<real>
    var pm4: seq<real>
    var pm10: seq<real>
    var temperature: seq<real>
    var humidity: seq<real>
    var voc: seq<real>
    var nox: seq<real>
    /** `reconnectInterval`: the id of the pending reconnect timer, if any. */
    var reconnectInterval: Option<nat>
    /** The reconnect timers created and not yet cleared. */
    ghost var liveTimers: set<nat>

    /** The page's `historyData`. */
    function Data(): HistoryData
      reads this
    {
      HistoryData(pm1, pm25, pm4, pm10, temperature, humidity, voc, nox)
    }

    /** The variable names the only live timer: there is at most one. */
    ghost predicate Valid()
      reads this
    {
      liveTimers == if reconnectInterval.Some? then {reconnectInterval.value} else {}
    }

    /** The page loads with every array empty and no timer. */
    constructor ()
      ensures Valid() && reconnectInterval.None? && liveTimers == {}
      ensures pm1 == pm25 == pm4 == pm10 == temperature == humidity == voc == nox == []
    {
      pm1, pm25, pm4, pm10 := [], [], [], [];
      temperature, humidity, voc, nox := [], [], [], [];
      reconnectInterval := None;
      liveTimers := {};
    }

    /** addToHistory: every channel array gets the sample's value pushed at
        the end and then loses its first value if it has grown beyond the cap. */
    method AddToHistory(s: Sample)
      modifies this
      ensures Data() == PushSample(old(Data()), s)
      ensures reconnectInterval == old(reconnectInterval) && liveTimers == old(liveTimers)
    {
      var d := HistoryData(pm1 + [s.pm1], pm25 + [s.pm25], pm4 + [s.pm4], pm10 + [s.pm10],
                           temperature + [s.temperature], humidity + [s.humidity],
                           voc + [s.voc], nox + [s.nox]);
      d := ShiftEach(d);
      pm1, pm25, pm4, pm10 := d.pm1, d.pm25, d.pm4, d.pm10;
      temperature, humidity, voc, nox := d.temperature, d.humidity, d.voc, d.nox;
    }

    /** loadHistoryData: every array is replaced; the four columns the message
        carries receive their defined values in order, the other four end
        empty. */
    method LoadHistoryData(history: seq<HistoryPoint>)
      modifies this
      ensures Data() == Reloaded(history)
      ensures reconnectInterval == old(reconnectInterval) && liveTimers == old(liveTimers)
    {
      var pm25', temperature', humidity', voc' := CollectDefined(history);
      pm1, pm25, pm4, pm10 := [], pm25', [], [];
      temperature, humidity, voc, nox := temperature', humidity', voc', [];
    }

    /** handleWebSocketMessage with the handlers it calls: a live reading is
        added to the arrays and its quality labelled, a history message
        reloads them, a status message shows the uptime. */
    method HandleWebSocketMessage(m: Message) returns (effect: Effect)
      modifies this
      ensures RouteOf(m) == ToCurrent && m.current.Some? ==>
                effect == ShowedCurrent(QualityLabel(m.current.value.quality))
                && Data() == PushSample(old(Data()), m.current.value)
      ensures RouteOf(m) == ToCurrent && m.current.None? ==> effect == Failed
      ensures RouteOf(m) == ToHistory ==> effect == LoadedHistory && Data() == Reloaded(m.history.value)
      ensures RouteOf(m) == ToStatus ==>
                effect == ShowedStatus(if m.uptime.Some? then Some(UptimeSplit(m.uptime.value)) else None)
      ensures RouteOf(m) == Ignore ==> effect == Ignored
      // only a live reading with its fields and a history message touch the arrays
      ensures !(RouteOf(m) == ToCurrent && m.current.Some?) && RouteOf(m) != ToHistory ==>
                Data() == old(Data())
      ensures reconnectInterval == old(reconnectInterval) && liveTimers == old(liveTimers)
    {
      if m.msgType == Some("current") {
        if m.current.None? {
          return Failed;
        }
        AddToHistory(m.current.value);
        effect := ShowedCurrent(QualityLabel(m.current.value.quality));
      } else if m.history.Some? {
        LoadHistoryData(m.history.value);
        effect := LoadedHistory;
      } else if m.msgType == Some("status") {
        effect := ShowedStatus(if m.uptime.Some? then Some(UptimeSplit(m.uptime.value)) else None);
      } else {
        effect := Ignored;
      }
    }

    /** onopen: clears the pending reconnect timer, if any, and asks for the
        history and then the status. */
    method OnOpen() returns (sent: seq<string>)
      requires Valid()
      modifies this
      ensures Valid() && reconnectInterval.None? && liveTimers == {}
      ensures sent == ["getHistory", "getStatus"]
      ensures Data() == old(Data())
    {
      if reconnectInterval.Some? {
        liveTimers := liveTimers - {reconnectInterval.value};
        reconnectInterval := None;
      }
      sent := ["getHistory", "getStatus"];
    }

    /** onclose: starts a reconnect timer (with the id the browser assigns)
        only when none is pending. */
    method OnClose(id: nat) returns (started: bool)
      requires Valid()
      modifies this
      ensures Valid() && reconnectInterval.Some?
      ensures started <==> old(reconnectInterval).None?
      ensures started ==> reconnectInterval == Some(id) && liveTimers == {id}
      ensures !started ==> reconnectInterval == old(reconnectInterval) && liveTimers == old(liveTimers)
      ensures Data() == old(Data())
    {
      started := false;
      if reconnectInterval.None? {
        reconnectInterval := Some(id);
        liveTimers := liveTimers + {id};
        started := true;
      }
    }
  }

  /** At most one reconnect timer is ever live. */
  lemma AtMostOneTimer(p: Page)
    requires p.Valid()
    ensures |p.liveTimers| <= 1
  {
  }
}
