/** The upload decision chain of `sendToThingSpeak` in src/main.cpp: validate,
    make sure the link is up, build the eight-field request, and accept the
    reply only if it is HTTP 200 with a body that parses to a positive entry
    number. The link status readings and the HTTP reply are inputs. */
module ThingSpeak {
  import opened Readings
  import opened Clock
  import opened SensorUtils
  import opened Network

  // ---------------------------------------------------------------------
  // Reply body parsing: Arduino's String::trim and String::toInt (atol)

  /** The characters C's `isspace` accepts. */
  predicate IsSpace(c: char)
  {
    c == ' ' || c == '\t' || c == '\n' || c == '\U{0B}' || c == '\U{0C}' || c == '\r'
  }

  predicate IsDigit(c: char)
  {
    '0' <= c <= '9'
  }

  /** `s` without its leading white space. */
  function TrimStart(s: string): (t: string)
    ensures |t| <= |s| && t == s[|s| - |t|..]
    ensures forall k :: 0 <= k < |s| - |t| ==> IsSpace(s[k])
    ensures t != [] ==> !IsSpace(t[0])
  {
    if s != [] && IsSpace(s[0]) then TrimStart(s[1..]) else s
  }

  /** `s` without its trailing white space. */
  function TrimEnd(s: string): (t: string)
    ensures |t| <= |s| && t == s[..|t|]
    ensures forall k :: |t| <= k < |s| ==> IsSpace(s[k])
    ensures t != [] ==> !IsSpace(t[|t| - 1])
  {
    if s != [] && IsSpace(s[|s| - 1]) then TrimEnd(s[..|s| - 1]) else s
  }

  /** String::trim: white space removed from both ends. */
  function Trim(s: string): (t: string)
    ensures |t| <= |s|
    ensures t == [] <==> forall k :: 0 <= k < |s| ==> IsSpace(s[k])
    ensures t != [] ==> !IsSpace(t[0]) && !IsSpace(t[|t| - 1])
  {
    var u := TrimStart(s);
    var t := TrimEnd(u);
    assert t != [] ==> t[0] == u[0];
    t
  }

  /** The longest run of decimal digits at the start of `s`. */
  function DigitPrefix(s: string): (p: string)
    ensures |p| <= |s| && p == s[..|p|]
    ensures forall k :: 0 <= k < |p| ==> IsDigit(p[k])
    ensures |p| < |s| ==> !IsDigit(s[|p|])
  {
    if s != [] && IsDigit(s[0]) then [s[0]] + DigitPrefix(s[1..]) else []
  }

  function DigitValue(c: char): (v: nat)
    requires IsDigit(c)
    ensures v <= 9
  {
    (c as int - '0' as int) as nat
  }

  /** The value of a string of decimal digits, most significant first. */
  function DigitsValue(p: string): nat
    requires forall k :: 0 <= k < |p| ==> IsDigit(p[k])
  {
    if p == [] then 0 else DigitsValue(p[..|p| - 1]) * 10 + DigitValue(p[|p| - 1])
  }

  /** String::toInt, which is `atol`: skip white space, take an optional sign
      and the digits that follow; 0 when there are none. Overflow is not
      modelled. */
  function ToInt(s: string): (n: int)
    ensures var t := TrimStart(s);
            n > 0 ==> t != [] && (IsDigit(t[0]) || t[0] == '+')
    ensures var t := TrimStart(s);
            n < 0 ==> t != [] && t[0] == '-'
  {
    var t := TrimStart(s);
    if t != [] && t[0] == '-' then 0 - DigitsValue(DigitPrefix(t[1..])) as int
    else if t != [] && t[0] == '+' then DigitsValue(DigitPrefix(t[1..]))
    else DigitsValue(DigitPrefix(t))
  }

  /** The decimal text of a number, as the remote service writes its entry id. */
  function Decimal(n: nat): (d: string)
    ensures |d| > 0
    ensures forall k :: 0 <= k < |d| ==> IsDigit(d[k])
  {
    var digit := ('0' as int + n % 10) as char;
    if n < 10 then [digit] else Decimal(n / 10) + [digit]
  }

  lemma {:induction false} DecimalValue(n: nat)
    ensures DigitsValue(Decimal(n)) == n
  {
    var d := Decimal(n);
    if n >= 10 {
      assert d[..|d| - 1] == Decimal(n / 10);
      DecimalValue(n / 10);
    }
  }

  /** Parsing inverts printing: toInt reads back any decimal entry number. */
  lemma DecimalRoundTrip(n: nat)
    ensures ToInt(Decimal(n)) == n
  {
    var d := Decimal(n);
    assert TrimStart(d) == d;
    assert IsDigit(d[0]);
    assert DigitPrefix(d) == d;
    DecimalValue(n);
  }

  /** Leading white space before a word is exactly what TrimStart drops. */
  lemma {:induction false} TrimStartPadded(a: string, r: string)
    requires forall k :: 0 <= k < |a| ==> IsSpace(a[k])
    requires r != [] && !IsSpace(r[0])
    ensures TrimStart(a + r) == r
    decreases |a|
  {
    if a == [] {
      assert a + r == r;
    } else {
      assert (a + r)[0] == a[0];
      assert (a + r)[1..] == a[1..] + r;
      TrimStartPadded(a[1..], r);
    }
  }

  /** Trailing white space after a word is exactly what TrimEnd drops. */
  lemma {:induction false} TrimEndPadded(r: string, b: string)
    requires forall k :: 0 <= k < |b| ==> IsSpace(b[k])
    requires r != [] && !IsSpace(r[|r| - 1])
    ensures TrimEnd(r + b) == r
    decreases |b|
  {
    if b == [] {
      assert r + b == r;
    } else {
      var s := r + b;
      assert s[|s| - 1] == b[|b| - 1];
      assert s[..|s| - 1] == r + b[..|b| - 1];
      TrimEndPadded(r, b[..|b| - 1]);
    }
  }

  /** White space around the number does not matter: trim removes it. */
  lemma TrimPadded(a: string, d: string, b: string)
    requires forall k :: 0 <= k < |a| ==> IsSpace(a[k])
    requires forall k :: 0 <= k < |b| ==> IsSpace(b[k])
    requires d != [] && !IsSpace(d[0]) && !IsSpace(d[|d| - 1])
    ensures Trim(a + d + b) == d
  {
    assert a + d + b == a + (d + b);
    TrimStartPadded(a, d + b);
    TrimEndPadded(d, b);
  }

  /** ThingSpeak's reply check: status 200 and a positive entry number. */
  function ReplyAccepted(code: int, body: string): (ok: bool)
    ensures ok ==> code == 200
    ensures ok ==> var t := Trim(body); t != [] && (IsDigit(t[0]) || t[0] == '+')
  {
    code == 200 && ToInt(Trim(body)) > 0
  }

  /** A reply carrying a positive entry number, padded with white space, is
      accepted; the rate-limit reply "0" and any reply without digits are not. */
  lemma EntryNumberAccepted(n: nat, a: string, b: string)
    requires n > 0
    requires forall k :: 0 <= k < |a| ==> IsSpace(a[k])
    requires forall k :: 0 <= k < |b| ==> IsSpace(b[k])
    ensures ReplyAccepted(200, a + Decimal(n) + b)
    ensures !ReplyAccepted(200, a + Decimal(0) + b)
  {
    TrimPadded(a, Decimal(n), b);
    DecimalRoundTrip(n);
    TrimPadded(a, Decimal(0), b);
    DecimalRoundTrip(0);
  }

  /** A body that, once trimmed, does not start with a digit or a '+' sign
      never counts as an entry number. */
  lemma NonNumericReplyRejected(code: int, body: string)
    requires var t := Trim(body); t == [] || (!IsDigit(t[0]) && t[0] != '+')
    ensures !ReplyAccepted(code, body)
  {
  }

  // ---------------------------------------------------------------------
  // The request

  /** How a field is written into the request URL: `String(x, 2)` or
      `String((int)x)`; the decimal text itself is not modelled. */
  datatype FieldValue = TwoDecimals(x: real) | Whole(n: int)

  /** The C cast `(int)x`: truncation toward zero. */
  function Trunc(x: real): (n: int)
    ensures x >= 0.0 ==> 0 <= n && n as real <= x < n as real + 1.0
    ensures x < 0.0 ==> n <= 0 && n as real - 1.0 < x <= n as real
  {
    if x >= 0.0 then x.Floor else -((-x).Floor)
  }

  /** The channel each request field number carries. */
  function FieldChannel(field: nat): Channel
    requires 1 <= field <= 8
  {
    match field
    case 1 => Pm1
    case 2 => Pm25
    case 3 => Pm4
    case 4 => Pm10
    case 5 => Temperature
    case 6 => Voc
    case 7 => Nox
    case _ => Humidity
  }

  /** The field number each channel is sent in. */
  function FieldNumber(c: Channel): (field: nat)
    ensures 1 <= field <= 8 && FieldChannel(field) == c
  {
    match c
    case Pm1 => 1
    case Pm25 => 2
    case Pm4 => 3
    case Pm10 => 4
    case Temperature => 5
    case Voc => 6
    case Nox => 7
    case Humidity => 8
  }

  /** Every field carries a different channel: the mapping loses nothing. */
  lemma FieldMappingIsBijective(field: nat)
    requires 1 <= field <= 8
    ensures FieldNumber(FieldChannel(field)) == field
  {
  }

  /** A channel as it is encoded: the gas indices truncated to integers,
      everything else with two decimals. */
  function Encode(r: Reading, c: Channel): FieldValue
    requires IsValidReading(r)
  {
    if c == Voc || c == Nox then Whole(Trunc(Get(r, c).r)) else TwoDecimals(Get(r, c).r)
  }

  /** The eight request fields, field1 first, as the URL is built. */
  function UploadFields(r: Reading): (fields: seq<FieldValue>)
    requires IsValidReading(r)
    ensures |fields| == 8
    ensures forall k :: 0 <= k < 8 ==> fields[k] == Encode(r, FieldChannel(k + 1))
  {
    [TwoDecimals(r.pm1.r), TwoDecimals(r.pm25.r), TwoDecimals(r.pm4.r), TwoDecimals(r.pm10.r),
     TwoDecimals(r.temperature.r), Whole(Trunc(r.voc.r)), Whole(Trunc(r.nox.r)),
     TwoDecimals(r.humidity.r)]
  }

  /** The truncated gas indices of a valid reading lie in [0, 500]. */
  lemma GasFieldsInRange(r: Reading)
    requires IsValidReading(r)
    ensures 0 <= Trunc(r.voc.r) <= 500 && 0 <= Trunc(r.nox.r) <= 500
  {
  }

  // ---------------------------------------------------------------------
  // The decision chain

  /** The Wi-Fi status readings one upload makes: the check in the upload
      itself, and the two readings `reconnect` takes if it is called. */
  datatype WifiProbe = WifiProbe(linkUp: bool, atReconnect: bool, afterAttempt: bool)

  /** The HTTP exchange's result: status code (negative for a transport
      error) and body. */
  datatype HttpReply = HttpReply(code: int, body: string)

  /** The link is usable: it was up, or `reconnect` succeeded. */
  predicate LinkReady(s: Supervisor, now: Millis, wifi: WifiProbe)
  {
    wifi.linkUp || ReconnectStep(s, now, wifi.atReconnect, wifi.afterAttempt).ok
  }

  /** sendToThingSpeak. A request is issued only for a valid reading over a
      usable link; success needs that request, status 200 and a positive entry
      number. `reconnect` is called only when the link was down. */
  method SendToThingSpeak(net: NetworkManager, r: Reading, now: Millis, wifi: WifiProbe, http: HttpReply)
    returns (success: bool, request: Option<seq<FieldValue>>)
    requires net.Valid()
    modifies net
    ensures net.Valid()
    ensures request.Some? <==> IsValidReading(r) && LinkReady(old(net.State()), now, wifi)
    ensures request.Some? ==> request.value == UploadFields(r)
    ensures success <==> request.Some? && ReplyAccepted(http.code, http.body)
    ensures net.State() == if IsValidReading(r) && !wifi.linkUp
                           then ReconnectStep(old(net.State()), now, wifi.atReconnect, wifi.afterAttempt).next
                           else old(net.State())
  {
    if !IsValidReading(r) {
      return false, None;
    }
    if !wifi.linkUp {
      var ok, _ := net.Reconnect(now, wifi.atReconnect, wifi.afterAttempt);
      if !ok {
        return false, None;
      }
    }
    var fields := UploadFields(r);
    request := Some(fields);
    success := false;
    if http.code > 0 {
      var response := Trim(http.body);
      if http.code == 200 && ToInt(response) > 0 {
        success := true;
      }
    }
  }
}
