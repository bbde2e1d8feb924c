# Garage-door monitor: decision logic in Dafny

This project models the decision logic of an ESP8266 garage-door monitor. Its
Arduino, WiFi and HTTP glue is left out. The model has four parts, one module each:

- **DoorControl** (`src/main.cpp`). A raw analog reading is classified by the
  first inclusive sensor range that contains it: Open, then Closed, then Ajar,
  else Unknown. The closing policy applies, in order:
  - a minimum-open guard;
  - a maximum-open override;
  - the "stay open" fail-safe when the clock is not set;
  - a keep-closed window in hhmm form, which may span midnight.

  `checkDoor` is the per-tick state machine over three globals: the open
  timestamp, the retry deadline and the sequence count. It is the class
  `DoorMonitor`. Its method `CheckDoor` is proved equal to the function
  `CheckDoorSpec`, and the properties of a tick are lemmas over that function.
  What a tick would send or actuate is returned as a list of `Effect`s:
  notifications and switch presses.
- **Notify** (`src/notify.cpp`):
  - the event message: its type, subject, fixed text, and the caller's text appended;
  - the single-slot throttle on (last event id, last time), as the class `Notifier`.
- **Config** (`src/config.cpp`):
  - the two `updateValue` overloads;
  - `checkAndSwapValues`;
  - the effect of `parseConfig` on the application configuration (class `ConfigStore`);
  - the rate-limit gate of `updateConfig`.
- **Defs** (`include/main.h`): the door-state and event-id encodings and the default `ConfigParams`.

Two helper modules support these:

- **Word32** models `unsigned long` arithmetic, so `millis()` and the
  millisecond settings wrap at 2^32.
- **Options** defines `Option`.

Time, sensor readings, the clock-library status (`timeSet`, hour, minute),
WiFi availability and HTTP status codes are all parameters.

Each source file is modelled against its own configuration record. The files
come from different revisions:

- `main.cpp` uses `ConfigParams`, which has the `MaxClosingAttempts` cap, and
  its own unthrottled notifier.
- `notify.cpp` and `config.cpp` use `ApplicationConfig`, which has
  `MinNotifyPeriodMs`.

The code has some behaviour a reader might not expect. The model keeps it and
states it as lemmas:

- Only an Open reading records the open timestamp. A successful closing sequence
  does not clear it; the next Closed reading does.
- The switch is pressed on every try without first re-reading the sensor.
- A reading that matches no range is not treated like Ajar. It goes on to the
  closing policy and can start a closing sequence (`UnknownReadingCanActuate`).
- The retry deadline is compared as an absolute clock value (`millis() <
  nextCloseAttemptMs`). Near the 2^32 wrap the spacing between sequences
  therefore does not hold (`RetryDeadlineIgnoresWrap`). The notification
  throttle and the config rate limit use unsigned subtraction, which is
  correct across the wrap (`SuppressionWindow`, `RefreshSpacing`).
- The sequence cap (`MaxClosingAttempts`) is present and active by default.
- Parsing the same document twice can give a different configuration than
  parsing it once, because of the min/max swap (`RepeatedParseMayDiffer`).
- There is no debounce filter: each tick acts on one reading.

## Model

| member | source | states |
|---|---|---|
| `Word32.Sub32` | src/notify.cpp:98-99 | elapsed time by unsigned subtraction: adding it back to the start gives the end; equals the plain difference when no wrap occurred |
| `Word32.ElapsedAfterAdd` | src/main.cpp:205 | for any delay shorter than the counter period, unsigned subtraction recovers the delay exactly, wherever the counter wraps |
| `Defs.DoorStateEncoding` | include/main.h:6-10 | Open=0, Closed=1, Ajar=2 are distinct valid indices below DOOR_STATE_COUNT; DOOR_UNKNOWN (-1) is not a valid index |
| `Defs.EventIdsDistinct` | include/main.h:12-18 | the seven event ids are pairwise distinct and IOT_EVENT_NONE is 0 |
| `Defs.DefaultRangesDisjoint` | include/main.h:37-41 | each default sensor range has lo <= hi and no reading lies in two default ranges |
| `Defs.DefaultDurationsAndWindow` | include/main.h:32-35 | default MinDoorOpenMs (5 min) is positive and below MaxDoorOpenMs (6 h); the default window {2200, 500} spans midnight |
| `Defs.DefaultClosingLimits` | include/main.h:27-30 | default MaxClosingAttempts is 4, so the cap is active, and MaxClosingTries is 2 |
| `DoorControl.GetNamedDoorState` | src/main.cpp:36-47 | the name is "Open", "Closed" or "Ajar" exactly for states 0, 1, 2, and "Unknown" exactly for every other value, -1 included |
| `DoorControl.FirstMatchFromSpec` | src/main.cpp:186-190 | the scan from index `from` returns the first index whose inclusive range contains the reading, or DOOR_UNKNOWN when none from there does |
| `DoorControl.ClassifyIsFirstMatch` | src/main.cpp:186-198 | classification returns the lowest index whose range contains the reading, else DOOR_UNKNOWN, and that answer is unique, so overlaps resolve Open before Closed before Ajar |
| `DoorControl.GetDoorState` | src/main.cpp:182-199 | the range loop returns at its first hit: the lowest matching index, or DOOR_UNKNOWN when nothing matches |
| `DoorControl.DefaultClassification` | src/main.cpp:186-198 | under the default ranges, 900..1024 is Open, 300..700 Closed, 0..100 Ajar, anything else Unknown |
| `DoorControl.DoorShouldBeClosed` | src/main.cpp:201-238 | with an open timestamp, below a nonzero MinDoorOpenMs the result is false; otherwise above a nonzero MaxDoorOpenMs it is true; otherwise it is true iff time is set and hour*100+minute lies in the window |
| `DoorControl.BadTimeAlertMeansStayOpen` | src/main.cpp:218-225 | the unreliable-time notice is raised only when time is not set and the policy then declines to close; with no duration rule deciding, it is due in the first hour of every six hours of uptime (at 0 h and 6 h, not at 1 h or 5 h) |
| `DoorControl.WrappedWindowIsComplement` | src/main.cpp:230-232 | a window with from > to closes exactly outside the daytime gap strictly between `to` and `from` |
| `DoorControl.NoDurationRulesMeansSchedule` | src/main.cpp:204-237 | with no open timestamp, or both durations 0 (disabled), the decision is the schedule alone, and false when time is not set |
| `DoorControl.DurationOverrideExamples` | src/main.cpp:204-216 | defaults: opened 100 s ago at 23:00 stays open (minimum guard beats the window); opened 22000 s ago at 12:00 closes (maximum override beats the window) |
| `DoorControl.WindowExamples` | src/main.cpp:227-237 | window 2200-500 contains 2359 and 100 but not 1200; window 900-1700 contains 1000 but not 800 |
| `DoorControl.FirstClosedTry` | src/main.cpp:317-331 | the first try among 1..n whose re-read is Closed, or 0; no earlier try was Closed |
| `DoorControl.NextAttemptAt` | src/main.cpp:335-337 | the retry deadline is the end time plus the spacing in 32-bit arithmetic, remapped from 0 to 1 so it is never 0 ("absent") |
| `DoorControl.TryPressesOnce` | src/main.cpp:317-331 | each try of a sequence actuates the switch exactly once |
| `DoorControl.TriesPressCount` | src/main.cpp:317-332 | n tries actuate the switch exactly n times |
| `DoorControl.AjarTickIsNoOp` | src/main.cpp:273-277 | an Ajar reading changes no global and produces no effect |
| `DoorControl.ClosedTickClears` | src/main.cpp:279-288 | a Closed reading zeroes the retry deadline, the count and the open timestamp, starts no sequence, and reports "closed" only when a retry was pending |
| `DoorControl.ClosedTicksAreIdempotent` | src/main.cpp:279-288 | from cleared globals, any number of Closed ticks leaves them cleared and produces no effect at all |
| `DoorControl.ClosedTicksNeverActuate` | src/main.cpp:279-288 | from any globals, a run of Closed ticks ends with cleared globals and never presses the switch |
| `DoorControl.FirstOpenRecordsTimestamp` | src/main.cpp:290-296 | the first Open reading without a timestamp records a nonzero one (the clock, or 1 for 0), leaves the other globals alone and does nothing else that tick |
| `DoorControl.ChecksBeforeSequence` | src/main.cpp:298-312 | closing not wanted resets deadline and count; else too soon (deadline set and clock below it) or cap reached (cap > 0 and count >= cap) changes nothing; none actuates |
| `DoorControl.SequenceOutcome` | src/main.cpp:314-352 | a sequence makes at most MaxClosingTries presses and stops at the first Closed re-read. Success clears deadline and count. Failure sets the deadline to `NextAttemptAt` of the end time (never 0), raises the count by exactly one, and ends with the "last attempt" notice when the raised count reaches the cap, else the "next attempt in N minutes" notice, both naming the last door state read. The open timestamp is untouched |
| `DoorControl.OnlySequencesActuate` | src/main.cpp:271-319 | a tick presses the switch only when it passed every check and started a sequence |
| `DoorControl.CapBoundsAttemptCount` | src/main.cpp:309-315 | with the cap active, a count within the cap stays within the cap after any tick |
| `DoorControl.RetrySpacingWithoutWrap` | src/main.cpp:304-307 | when the deadline does not wrap, a new sequence is refused for exactly the configured spacing after the failed one and allowed from its end on |
| `DoorControl.RetryDeadlineIgnoresWrap` | src/main.cpp:335-337 | a sequence failing one minute before the clock wraps gets deadline 240000, and a tick 15 s later is not "too soon" |
| `DoorControl.UnknownReadingCanActuate` | src/main.cpp:272-319 | a reading of 200 matches no default range, yet at 23:00 with an old open timestamp it starts a sequence that presses the switch |
| `DoorControl.DoorMonitor.constructor` | src/main.cpp:269-270 | the globals start at 0: no open timestamp, no retry deadline, no sequences counted |
| `DoorControl.DoorMonitor.CheckDoor` | src/main.cpp:271-354 | the new globals and the effects of a tick are those of `CheckDoorSpec` on the old globals; the configuration is unchanged |
| `DoorControl.DoorMonitor.ApplyPolicy` | src/main.cpp:298-316 | given the policy's verdicts, the new globals and effects are those of `PolicyResult`: reset when closing is not wanted, unchanged when too soon or capped, otherwise those of a sequence |
| `DoorControl.DoorMonitor.RunClosingSequence` | src/main.cpp:314-352 | counts the sequence, announces it, runs the tries, and on failure sets the retry deadline and reports the failure ("last attempt" when the cap is reached) |
| `DoorControl.DoorMonitor.CloseTries` | src/main.cpp:317-332 | reports Closed iff some try in 1..MaxClosingTries re-reads Closed. Its effects are those of the tries up to that one, or of all tries. The last state is the last re-read, or the tick's own state when no try ran |
| `Notify.DigitsRoundTrip` | src/notify.cpp:75 | the "%d" digits of a natural number are nonempty decimal digits that read back as the number |
| `Notify.DecimalRoundTrip` | src/notify.cpp:75 | the "%d" text of any id, negative ones included, reads back as the id |
| `Notify.CreateEventMessage` | src/notify.cpp:32-86 | type "Warning" iff CLOSING_FAILURE, "Critical" iff CLOSED_DOOR, "Info" for every other id. The subject is the event's own subject; an unknown id gives subject "Unknown event" and its decimal text. The message is the event's fixed text followed by the caller's text: all of it for length -1 or a length beyond the text, its first msgLen characters for a positive length within it, nothing otherwise |
| `Notify.UnknownEventIdRecoverable` | src/notify.cpp:72-76 | the message of an unknown event carries the id in decimal, from which the id can be read back |
| `Notify.DifferentEventPasses` | src/notify.cpp:99 | an event id other than the last notified one is never suppressed |
| `Notify.SuppressionWindow` | src/notify.cpp:98-101 | the same id sent d ms after the last let-through call is suppressed iff d is below MinNotifyPeriodMs, across a wrap of millis() |
| `Notify.Notifier.constructor` | src/notify.cpp:88-89 | the throttle starts at time 0 with IOT_EVENT_NONE |
| `Notify.Notifier.SendNotification` | src/notify.cpp:96-128 | a suppressed call returns true, posts nothing and changes no state. Any other call records (id, now) before the WiFi check, posts the composed message only with WiFi, and returns true only on HTTP 200 |
| `Config.UpdateValue` | src/config.cpp:21-26 | the field takes the key's value when the key is present and is unchanged when it is absent |
| `Config.UpdateScaled` | src/config.cpp:14-19 | the field takes the key's value times the multiplier (32-bit) when the key is present and is unchanged when it is absent |
| `Config.UpdateValueIdempotent` | src/config.cpp:21-26 | updating a field twice from the same document equals updating it once |
| `Config.CheckAndSwapValues` | src/config.cpp:28-38 | afterwards min <= max. The pair holds the same two values. An ordered pair is untouched and not reported; a reversed one is swapped and reported |
| `Config.ParsedConfigNormalised` | src/config.cpp:64-91 | after a parse, MinDoorOpenMs <= MaxDoorOpenMs and every sensor range has lo <= hi, while KeepClosedFromTo is taken as given (not reordered) or kept when absent |
| `Config.NoErrorsMeansAsRead` | src/config.cpp:64-91 | a parse reports at most four errors, and none exactly when the durations and all three sensor ranges are stored as read, without a swap |
| `Config.EmptyDocumentKeepsNormalisedConfig` | src/config.cpp:49-91 | a document with no keys leaves an already normalised configuration unchanged |
| `Config.RepeatedParseMayDiffer` | src/config.cpp:56-64 | with only MinDoorOpenMin = 10 given and 1/2 min current, one parse gives min 2 min / max 10 min, a second parse of the same document gives min 10 min |
| `Config.RefreshSpacing` | src/config.cpp:119-124 | after an attempt at t0, an unforced refresh d ms later goes ahead iff d >= UpdateConfigMs, across a wrap |
| `Config.ConfigStore.constructor` | src/config.cpp:118 | the configuration holds the initial record and lastConfigUpdate starts at 0 |
| `Config.ConfigStore.ParseConfig` | src/config.cpp:40-103 | a document that did not parse leaves the configuration unchanged and reports one error. Otherwise the configuration becomes `ParsedConfig` of the old one, normalised, and the reports number `ParseErrors`: one per min/max pair read reversed |
| `Config.ConfigStore.UpdateFields` | src/config.cpp:49-62 | each scalar field is overridden from its key, scaled where the source scales it |
| `Config.ConfigStore.UpdateSensorRanges` | src/config.cpp:72-91 | the three ranges become `ParsedRanges` of the old ones, and the number of swaps reported is the number of ranges read reversed |
| `Config.ConfigStore.UpdateSensorRange` | src/config.cpp:72-91 | one sensor range is read from its key when present, then ordered; the other ranges and fields are unchanged; a swap is reported exactly when the range as read was reversed |
| `Config.ConfigStore.UpdateConfig` | src/config.cpp:119-124 | the fetch goes ahead iff forced or a full UpdateConfigMs has elapsed since the last attempt. If it goes ahead the attempt time is recorded before the fetch; otherwise nothing changes |

## Left out

- WiFi, HTTPClient and URL routing are not modelled: `checkWifi` and
  `main.cpp`'s HTTP `sendNotification` (src/main.cpp:32-91), the network body of
  both `updateConfig` functions, and the POST in `notify.cpp`. A notification in
  `main.cpp` is a recorded `Effect`. In `notify.cpp`, WiFi availability and the
  HTTP status are inputs.
- `main.cpp`'s own `parseConfig` and `updateConfig` (src/main.cpp:94-180) belong
  to an older revision and are not modelled. The `config.cpp` versions are.
- JSON parsing and serialisation (`deserializeJson`, `parseObject`,
  `SerializeMessageBody`) are a foreign library. A parsed document is a map from
  keys to values, or None when parsing failed. An array read as a scalar converts
  to 0/false, a boolean read as a number to 1/0, a number read as a boolean to
  whether it is nonzero, and a missing array element reads as 0.
- Setting the clock (`SetTime`, `sscanf`, `setTime`) is not modelled. `timeSet`,
  hour and minute are inputs.
- GPIO, LEDs, the buzzer and `delay` are not modelled: `closeDoor`'s beep pattern
  and relay pulse, `alertOn`/`alertOff`, `setup`, src/alarm.cpp and
  include/pins.h. One try's actuation is the single `PressSwitch` effect.
- `Serial` and `log` output, and the text formatted by `snprintf`, are not
  modelled. A closing-failure notice keeps only its variable parts: the door
  state name, and either the count or the minutes.
- `loop()`, its `nextLoopMs` scheduling, `yield()` and the one-shot reset
  notification are not modelled.
- `CheckDoor` reads the clock once when the tick starts (`nowMs`) and once after
  a failed sequence (`doneAtMs`). The microseconds between the source's
  successive `millis()` calls within those phases are not modelled.
- `CheckDoor` does not model 32-bit overflow of `closeAttemptCount`. The count is
  unbounded, and only a disabled cap lets it grow past `MaxClosingAttempts`.
- `NextAttemptAt` models the signed `int` product `TimeBetweenClosingAttemptsMin
  * 60 * 1000` as wrapping modulo 2^32 before the unsigned addition. In C that
  overflow is undefined.
- `CreateEventMessage` models message text as unbounded. The fixed buffers
  (Type 12, Subject 80, Message 400 characters) are not modelled, nor what
  happens when the appended text overruns them.
- `CreateEventMessage` takes the caller's text as a string, never NULL. The
  crash of a NULL text with length -1 is not modelled.
- `ApplicationConfig` is not defined in the files available. Its field types
  follow `ConfigParams`: `…Ms` fields are `unsigned long`, counts are `int`,
  flags are `bool`. The formatted `txtMinOpenTime`/`txtMaxOpenTime` fields
  (`formatMillis`) are left out.
- `IOT_EVENT_BAD_TIME`, `IOT_EVENT_CONFIG_ERROR` and
  `IOT_EVENT_CONTROL_DISABLED` are not defined in the header available. They
  are modelled as 7, 8 and 9. Any values distinct from each other and from the
  header's ids give the same behaviour.
- `ParseConfig` counts its configuration-error notifications but does not pass
  them through `Notifier`, so their throttling is not modelled.
- A debounce filter is not modelled: none exists in these source files.
