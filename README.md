# AirQualityMonitor_SEN55 telemetry pipeline in Dafny

This project models the telemetry pipeline of the SEN55 air-quality monitor
firmware and the script of its dashboard page, and proves properties of it.
The firmware reads an eight-channel sensor once a second, rejects NaN and
out-of-range readings, records every good reading in a 60-slot history ring
buffer, and sends it to connected WebSocket observers. It averages the
readings and, every 20 seconds once at least 10 samples have accumulated,
uploads the averaged batch to ThingSpeak. Before an upload it checks the
Wi-Fi link through a reconnection supervisor, which allows at most 3 attempts
at least 5 s apart. The page keeps the last 60 values of each channel. From the
history snapshot it reloads PM2.5, temperature, humidity and VOC, and it
empties the PM1, PM4, PM10 and NOx arrays.

The modules are:

- `Readings` holds the float channel value `F` (`NaN` or a real), the reading and its channels.
- `Clock` holds the wrapping 32-bit `millis()` and unsigned elapsed time.
- `Window` holds the "last n of a stream" window that both history buffers keep.
- `SensorUtils` covers SensorUtils.cpp: the validator and the PM2.5 classifier.
- `Averaging` covers DataAveraging.cpp: the accumulator class, and the arithmetic mean as its reference.
- `Dashboard` covers src/WebDashboard.cpp: the ring buffer class, the snapshot, the live message, and the observer command dispatch.
- `Network` covers src/NetworkManager.cpp. A pure `ReconnectStep` state machine specifies the `NetworkManager` class.
- `ThingSpeak` covers `sendToThingSpeak` in src/main.cpp: the request fields, and the reply check with `String::trim` and `String::toInt`.
- `Firmware` covers `loop()` and the OTA handlers in src/main.cpp. A pure `Step` function specifies the `Firmware.Loop` method.
- `BrowserApp` covers data/app.js: the bounded channel arrays, the history reload, the message dispatch, the label and uptime helpers, and the reconnect timer.

Sensor reads, Wi-Fi status readings, the HTTP status and body, the number of
connected observers and the clock value of a pass are parameters of the model.
Every `millis()` call within one pass of `loop()` is taken to return that
pass's clock value.

Two behaviours of the code are worth knowing:

- **A failed upload loses its batch.** `getAveraged` resets the accumulator
  itself (DataAveraging.cpp:38). `loop()` therefore loses the batch even when
  the upload fails, although src/main.cpp:371-373 says the data is preserved
  for retry. `Firmware.UploadDrainsBatch` proves that after any upload only
  the pass's own reading is pending.
- **Recovery does not clear the attempt counter.** The counter is cleared
  only by a `reconnect` call that finds or brings the link up
  (src/NetworkManager.cpp:56-58 and 84-89), or by `resetReconnectAttempts`
  (src/NetworkManager.cpp:103-105), which nothing calls. `sendToThingSpeak`
  calls `reconnect` only when its own status check says the link is down.
  So once 3 attempts have failed, a link that comes back by itself does not clear the counter, and a later
  outage gets no reconnection attempt. `Firmware.ExhaustionOutlivesRecovery`
  and `Network.ExhaustedStaysExhausted` state this.

## Model

| member | source | states |
|---|---|---|
| `Clock.Elapsed` | src/NetworkManager.cpp:68 | unsigned 32-bit `now - since`: the plain difference when the clock has not wrapped, the difference plus 2^32 when it has, and `since + d` is `now` modulo 2^32 |
| `SensorUtils.IsValidReading` | SensorUtils.cpp:24-38 | accepted iff no channel is NaN and both VOC and NOx lie in [0, 500] |
| `SensorUtils.NaNRejected` | SensorUtils.cpp:27-30 | a NaN in any single channel rejects the reading |
| `SensorUtils.AcceptedWithoutRangeCheck` | SensorUtils.cpp:33-37 | PM, humidity and temperature values are never range-checked; gas indices 0 and 500 are accepted |
| `SensorUtils.Pm25Category` | SensorUtils.cpp:8-21 | the category is GOOD iff pm25 <= 15, MODERATE iff 15 < pm25 <= 35, sensitive iff 35 < pm25 <= 55, and UNHEALTHY iff pm25 > 55 or NaN |
| `SensorUtils.GetPm25Quality` | SensorUtils.cpp:8-22 | the text is "GOOD" iff pm25 <= 15, "MODERATE" iff 15 < pm25 <= 35, "UNHEALTHY (Sensitive)" iff 35 < pm25 <= 55, and "UNHEALTHY" iff pm25 > 55 or NaN |
| `SensorUtils.QualityOutputsDistinct` | SensorUtils.cpp:8-22 | different categories get different texts and different icons |
| `SensorUtils.Pm25CategoryMonotone` | SensorUtils.cpp:9-21 | more PM2.5 never gives a better category |
| `Averaging.Average` | DataAveraging.cpp:29-36 | each channel of the batch is that channel's running sum divided by the sample count |
| `Averaging.ChannelSumIsTotal` | DataAveraging.cpp:14-21 | without NaN the running sum of a channel equals the arithmetic total of the values added |
| `Averaging.AverageIsMean` | DataAveraging.cpp:29-36 | the batch is the arithmetic mean of exactly the readings added since the last reset |
| `Averaging.NaNPoisonsSum` | DataAveraging.cpp:14-21 | one NaN sample makes that channel's sum NaN |
| `Averaging.NaNBatchIsInvalid` | DataAveraging.cpp:29-36 | a batch containing a NaN sample averages to a reading the validator rejects |
| `Averaging.ChannelSumBounds` | DataAveraging.cpp:14-21 | n samples within [lo, hi] sum to within [n*lo, n*hi] |
| `Averaging.AverageOfValidIsValid` | DataAveraging.cpp:29-36 | the mean of valid readings is itself valid: no NaN, and gas indices within [0, 500] |
| `Averaging.DataAveraging.constructor` | DataAveraging.cpp:8-10 | all eight sums and the count start at zero |
| `Averaging.DataAveraging.AddReading` | DataAveraging.cpp:12-23 | the count grows by exactly one, each argument goes into its own channel sum only, and the sums stay the running sums of the pending samples |
| `Averaging.DataAveraging.GetAveraged` | DataAveraging.cpp:25-39 | with count 0 nothing is written or changed; otherwise the output is the mean of the pending samples and the state is reset |
| `Averaging.DataAveraging.Reset` | DataAveraging.cpp:41-43 | every sum and the count become zero whatever the prior state, so a second reset changes nothing |
| `Averaging.DataAveraging.GetCount` | DataAveraging.cpp:45-47 | the number of readings added since the last reset |
| `Averaging.DataAveraging.HasEnoughSamples` | DataAveraging.cpp:49-51 | true iff at least AVERAGING_SAMPLES readings are pending |
| `Averaging.EnoughSamplesBoundary` | DataAveraging.h:12 | 9 pending readings are not enough and 10 are |
| `Dashboard.RoundHalfAway` | src/WebDashboard.cpp:89-96 | C `round`: within 0.5 of the argument, with the argument's sign |
| `Dashboard.Round1` | src/WebDashboard.cpp:89-94 | one-decimal rounding is within 0.05 and keeps NaN |
| `Dashboard.RoundWhole` | src/WebDashboard.cpp:95-96 | whole-number rounding is within 0.5 and keeps NaN |
| `Dashboard.Records` | src/WebDashboard.cpp:121-126 | one record per entry in the same order, carrying only pm25, temperature, humidity, voc and the timestamp |
| `Dashboard.LiveCategory` | src/WebDashboard.cpp:100-104 | the live quality uses strict `<` at 15, 35 and 55, and NaN falls into UNHEALTHY |
| `Dashboard.CurrentReadingJson` | src/WebDashboard.cpp:84-110 | the message carries the pass's time; its quality code is "GOOD" iff pm25 < 15, "MODERATE" iff 15 <= pm25 < 35, "UNHEALTHY_SENSITIVE" iff 35 <= pm25 < 55, "UNHEALTHY" iff pm25 >= 55 or NaN; PM2.5 is within 0.05 of the reading with NaN kept, and VOC is a whole number within 0.5 |
| `Dashboard.ClassifiersDisagreeOnlyAtBoundaries` | src/WebDashboard.cpp:100-104 | the live rule and getPM25Quality agree except at exactly 15, 35 and 55, where the live rule is one category worse |
| `Dashboard.CString` | src/WebDashboard.cpp:175-176 | the message text is the payload up to its first NUL |
| `Dashboard.TextCommand` | src/WebDashboard.cpp:173-174 | a command is read only from a final, unfragmented, complete text frame |
| `Dashboard.WebDashboard.constructor` | src/WebDashboard.cpp:11-15 | an empty buffer: cursor 0 and not full |
| `Dashboard.WebDashboard.AddToHistory` | src/WebDashboard.cpp:65-82 | only the cursor's slot is overwritten, with the reading and its time; the cursor advances modulo 60; the full flag is set when the cursor wraps to 0 and never cleared |
| `Dashboard.WebDashboard.CreateHistoryJson` | src/WebDashboard.cpp:112-132 | the snapshot is the min(pushes, 60) most recent entries, oldest first, and the buffer is unchanged |
| `Dashboard.WebDashboard.Handle` | src/WebDashboard.cpp:52-63 | the reading always enters the history; the live message goes out only when an observer is connected |
| `Dashboard.WebDashboard.OnWebSocketEvent` | src/WebDashboard.cpp:150-189 | a new observer gets history then status; a single-frame text "getHistory" or "getStatus" gets exactly the matching reply; anything else gets none |
| `Dashboard.SnapshotOfStream` | src/WebDashboard.cpp:116-120 | under 60 pushes the snapshot is every entry; after that it is exactly the 60 most recent |
| `Network.ReconnectStep` | src/NetworkManager.cpp:52-94 | link up: success, counter cleared, no attempt; counter at 3 or too soon: failure, nothing changes; otherwise the attempt is counted and time-stamped first, and success clears the counter |
| `Network.RunStaysInRange` | src/NetworkManager.cpp:62-69 | the counter stays within [0, 3] over any sequence of calls |
| `Network.AttemptCapWhileDown` | src/NetworkManager.cpp:61-70 | while the link stays down, at most 3 minus the counter further attempts are made, however many calls and however much time |
| `Network.ExhaustedStaysExhausted` | src/NetworkManager.cpp:62-65 | with the counter at 3 and the link down, reconnect fails at once and changes nothing |
| `Network.NoAttemptInFirstInterval` | src/NetworkManager.cpp:9 | the last-attempt time starts at 0, so nothing is attempted in the first 5000 ms of uptime |
| `Network.NetworkManager.constructor` | src/NetworkManager.cpp:8-10 | counter 0 and last attempt at time 0 |
| `Network.NetworkManager.Connect` | src/NetworkManager.cpp:12-46 | at most 60 polls, stopping at the first connected reading; the counter is cleared only if the final reading says connected |
| `Network.NetworkManager.Reconnect` | src/NetworkManager.cpp:52-94 | the result and the new counters are those of `ReconnectStep` |
| `Network.NetworkManager.ResetReconnectAttempts` | src/NetworkManager.cpp:103-105 | only the counter is cleared |
| `ThingSpeak.TrimStart` | src/main.cpp:238 | the leading white space is removed, and the remainder does not start with white space |
| `ThingSpeak.TrimEnd` | src/main.cpp:238 | the trailing white space is removed, and the remainder does not end with white space |
| `ThingSpeak.Trim` | src/main.cpp:238 | the result is no longer than the text, is empty iff the text is all white space, and otherwise neither starts nor ends with white space |
| `ThingSpeak.DigitPrefix` | src/main.cpp:245 | the longest run of digits at the start of the text |
| `ThingSpeak.ToInt` | src/main.cpp:245 | `atol` is positive only when the text after leading white space starts with a digit or '+', and negative only when it starts with '-' |
| `ThingSpeak.Decimal` | src/main.cpp:245 | the decimal text of an entry number is non-empty and made only of digits |
| `ThingSpeak.DecimalValue` | src/main.cpp:245 | reading the decimal digits back gives the number |
| `ThingSpeak.DecimalRoundTrip` | src/main.cpp:245 | `toInt` reads back every decimal entry number |
| `ThingSpeak.TrimStartPadded` | src/main.cpp:238 | the leading white space before a word is exactly what is dropped |
| `ThingSpeak.TrimEndPadded` | src/main.cpp:238 | the trailing white space after a word is exactly what is dropped |
| `ThingSpeak.TrimPadded` | src/main.cpp:238 | `trim` removes white-space padding around a word exactly |
| `ThingSpeak.ReplyAccepted` | src/main.cpp:236-247 | a reply is accepted only with HTTP 200 and a trimmed body starting with a digit or '+' |
| `ThingSpeak.EntryNumberAccepted` | src/main.cpp:236-247 | HTTP 200 with a positive entry number, padded or not, succeeds, and the reply "0" does not |
| `ThingSpeak.NonNumericReplyRejected` | src/main.cpp:245 | a body that does not start with a digit or '+' after trimming never succeeds |
| `ThingSpeak.Trunc` | src/main.cpp:222-223 | the C cast `(int)x` truncates toward zero |
| `ThingSpeak.FieldNumber` | src/main.cpp:215-224 | every channel has a field in 1..8 that carries it |
| `ThingSpeak.FieldMappingIsBijective` | src/main.cpp:215-224 | field numbers and channels correspond one to one |
| `ThingSpeak.UploadFields` | src/main.cpp:215-224 | fields 1-4 carry pm1, pm25, pm4 and pm10, field 5 temperature, fields 6 and 7 the truncated voc and nox, and field 8 humidity |
| `ThingSpeak.GasFieldsInRange` | src/main.cpp:222-223 | the truncated gas indices of a valid reading lie in [0, 500] |
| `ThingSpeak.SendToThingSpeak` | src/main.cpp:190-264 | a request is made iff the reading is valid and the link is up or `reconnect` succeeds; success iff that request got HTTP 200 and a positive entry number; `reconnect` runs only for a valid reading over a link that was down |
| `Firmware.Step` | src/main.cpp:266-390 | a pass never touches the OTA globals; it adds a history entry, the pass's reading with its time, exactly when it records a valid reading, and a pass that records nothing leaves the history, the pending batch and the link counters alone |
| `Firmware.PausedDuringOta` | src/main.cpp:268-274 | during an OTA update a pass changes nothing |
| `Firmware.ReadsArePaced` | src/main.cpp:279-285 | a read happens only after 1000 ms on the wrapping clock, and the read time is updated before the read |
| `Firmware.BadReadingNotRecorded` | src/main.cpp:290-301 | a failed or invalid read changes only the read time: no history entry, no sample and no upload |
| `Firmware.RecordedReadingIsKept` | src/main.cpp:304-389 | a recorded reading enters the history with the pass's time and is the last pending sample after the pass |
| `Firmware.UploadsArePaced` | src/main.cpp:354-386 | the upload window opens only after 20000 ms on the wrapping clock, and the interval restarts whenever it opens, with or without an upload |
| `Firmware.UploadDrainsBatch` | src/main.cpp:355-374 | the batch is the mean of the at least 10 pending readings, and afterwards only the current reading is pending, whatever the upload's result |
| `Firmware.UploadedBatchIsValid` | src/main.cpp:355-367 | a batch built by the loop always passes validation, so a request is made exactly when the link is usable |
| `Firmware.StepKeepsPendingValid` | src/main.cpp:296-389 | only validated readings are ever pending |
| `Firmware.ExhaustionOutlivesRecovery` | src/main.cpp:198-205 | with the counter at 3, a pass leaves it at 3 unless the link is found up by `reconnect` itself |
| `Firmware.OtaPercent` | src/main.cpp:85-90 | the percentage is 0 for a zero total; otherwise, when progress × 100 fits in 32 bits, it is the integer quotient of progress × 100 by the total (the unsigned wrap is kept beyond that) |
| `Firmware.OtaPercentBounded` | src/main.cpp:87-90 | without overflow the percentage never exceeds 100 and is 100 at the end |
| `Firmware.Firmware.constructor` | src/main.cpp:45-49 | both markers are at 0, there is no OTA update, and the components are freshly constructed |
| `Firmware.Firmware.OnOtaStart` | src/main.cpp:62-76 | sets the pause flag and nothing else |
| `Firmware.Firmware.OnOtaError` | src/main.cpp:98-110 | clears the pause flag and nothing else |
| `Firmware.Firmware.OnOtaProgress` | src/main.cpp:85-95 | reports and remembers the percentage only when it differs from the last one and is a multiple of 10 |
| `Firmware.Firmware.UploadWindowPass` | src/main.cpp:354-386 | the upload window of `UploadWindow`: drain and send with enough samples, and restart the interval either way |
| `Firmware.Firmware.UploadBatch` | src/main.cpp:355-374 | the accumulator is drained before sending, and the new link counters and the upload's result are those of `SendBatch` |
| `Firmware.Firmware.Loop` | src/main.cpp:266-390 | one pass has exactly the effect and outcome of `Step`, and every pending sample stays valid |
| `BrowserApp.PushIsWindow` | data/app.js:169-187 | on an array within the cap, a push keeps exactly the last 60 values, oldest first |
| `BrowserApp.PushOntoWindow` | data/app.js:169-187 | pushing onto the window of a stream gives the window of the longer stream |
| `BrowserApp.PushAllIsWindow` | data/app.js:169-187 | after any stream of live readings, each array holds the last 60 values of its start followed by the stream |
| `BrowserApp.ShiftIfOver` | data/app.js:182-186 | at most the oldest value is dropped, so the result is a suffix of the array, and an array at most one value over the cap becomes exactly its last 60 values |
| `BrowserApp.CollectDefined` | data/app.js:196-201 | each carried column receives its present values in message order |
| `BrowserApp.DefinedStep` | data/app.js:196-201 | one more point extends each column by its value, if present |
| `BrowserApp.DefinedWhenComplete` | data/app.js:196-201 | with no value missing a column is reloaded value for value |
| `BrowserApp.DefinedWhenAbsent` | data/app.js:196-201 | a column with no present values reloads empty |
| `BrowserApp.RouteOf` | data/app.js:118-127 | "current" wins over a history array, which wins over "status"; anything else is ignored |
| `BrowserApp.QualityLabel` | data/app.js:154-166 | the class is empty iff the code is none of the four firmware codes, and then the text is the code itself |
| `BrowserApp.QualityLabelsCoverFirmwareCodes` | data/app.js:154-166 | every firmware quality code has its own label and a non-empty class; an unknown code is shown as itself with no class |
| `BrowserApp.UptimeSplit` | data/app.js:254-259 | minutes are below 60, and hours and minutes together account for the uptime to within the minute |
| `BrowserApp.UptimeHoursBounded` | data/app.js:256 | a firmware uptime of `millis() / 1000` never shows more than 1193 hours |
| `BrowserApp.Wire` | src/WebDashboard.cpp:84-148 | a firmware message as the page parses it: only the live message has `type` "current", only the status message has `type` "status" and carries the uptime, only the history message has a `history` array, with one point per record, and the live message keeps its quality code |
| `BrowserApp.FirmwareMessagesRoute` | data/app.js:118-127 | the live, history and status messages the firmware sends each reach their own handler |
| `BrowserApp.ReloadedColumnMatchesFirmware` | data/app.js:190-204 | reloading from the firmware's snapshot restores its PM2.5 column value for value, oldest first |
| `BrowserApp.OpenRequestsAreAnswered` | data/app.js:86-87 | the two requests the page sends on opening are read by the firmware as exactly those commands |
| `BrowserApp.CStringWithoutNul` | data/app.js:86-87 | a payload without NUL is read in full |
| `BrowserApp.Page.constructor` | data/app.js:2-8 | every array is empty and no reconnect timer is pending |
| `BrowserApp.Page.AddToHistory` | data/app.js:169-187 | all eight arrays at once: each gets the sample's value pushed, then loses its first value if it grew past 60; the timer is untouched |
| `BrowserApp.Page.LoadHistoryData` | data/app.js:190-204 | all eight arrays are replaced: pm25, temperature, humidity and voc receive their present values in order, and pm1, pm4, pm10 and nox end empty |
| `BrowserApp.Page.HandleWebSocketMessage` | data/app.js:118-127 | a live reading with its fields pushes one value onto each of the eight arrays and shows its label; a history message replaces all eight arrays as loadHistoryData does; a status message shows the uptime; a live message without fields, a status message and anything else leave all eight arrays and the timer unchanged |
| `BrowserApp.Page.OnOpen` | data/app.js:78-88 | clears the pending timer and asks for history, then status; all eight arrays are unchanged |
| `BrowserApp.Page.OnClose` | data/app.js:104-114 | starts a reconnect timer only when none is pending; all eight arrays are unchanged |
| `BrowserApp.AtMostOneTimer` | data/app.js:108-113 | at most one reconnect timer is ever live |

## Left out

- Serial output, `delay`, the status LED, the gauge, the sparklines, the DOM and the sidebar are left out. They produce output only.
- I/O and device wiring are left out: `setup()`, the OTA registration, mDNS, LittleFS, static file serving, `/api/reset`, `ESP.restart` and `waitForSensorStabilization`. `NetworkManager.connect`'s result at boot is not connected to the loop.
- The sensor driver (src/SensorManager.cpp) is left out. A read is an optional reading given to each pass.
- Floating-point rounding, infinities and signed zero are left out. `F` is NaN or an exact real, so sums and means are exact.
- `String(x, 2)` decimal formatting, ArduinoJson serialisation and `JSON.parse` are left out. The request carries the numbers themselves, and messages arrive already parsed.
- The values in the status message (heap, observers, uptime, sensor state) are inputs. Only the uptime display is modelled.
- `Averaging.DataAveraging.AddReading`: the `int` overflow of `count` is not modelled. It would take more than 2^31 readings without a reset.
- `ThingSpeak.ToInt`: `atol`'s overflow on very long digit strings is not modelled.
- The `data[len] = 0` write past the payload in src/WebDashboard.cpp:175 is left out. Its safety depends on the WebSocket library's buffer. The C-string reading of the payload is modelled.
- The static `instance` pointer that routes WebSocket callbacks is left out, as is `getClientCount`. The observer count is an input.
- The firing of browser timers and the new socket a timer opens are left out. Only the timer variable and the set of live timers are modelled.
- `BrowserApp.Page.HandleWebSocketMessage`: a "current" message is taken to have either all of its numeric fields or none. A message missing only some of them, where the handler throws part-way through, is not distinguished.
- `BrowserApp.QualityLabel`: a quality code that names an inherited object property, such as "toString", is treated as unknown. In the browser that lookup finds the property instead.
- `BrowserApp.Wire`: firmware messages are converted only when they carry no NaN. How NaN is serialised is not modelled. The loop only ever records validated readings.
