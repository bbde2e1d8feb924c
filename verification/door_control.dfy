/** The door-control loop of the monitor: classification of the position
    sensor, the closing policy and the per-tick state machine that runs
    closing sequences. Network, GPIO and delays are outside the model: what the
    firmware would send or actuate is returned as a list of effects. */
module DoorControl {
  import opened Word32
  import opened Defs

  // ---------------------------------------------------------------------------
  // Names of door states

  /** The display names of the door states, by state index. */
  const DoorStateNames: seq<string> := ["Open", "Closed", "Ajar"]

  function GetNamedDoorState(doorState: int): (name: string)
    ensures name == "Unknown" <==> !(DoorOpen <= doorState <= DoorAjar)
    ensures name == "Open" <==> doorState == DoorOpen
    ensures name == "Closed" <==> doorState == DoorClosed
    ensures name == "Ajar" <==> doorState == DoorAjar
  {
    if DoorOpen <= doorState && doorState <= DoorAjar then DoorStateNames[doorState] else "Unknown"
  }

  // ---------------------------------------------------------------------------
  // Classification of a raw reading

  /** `state` is what first-match classification must return for `raw`: the
      lowest state index whose range contains the reading, or DoorUnknown when
      no range does. */
  predicate IsFirstMatch(ranges: Ranges, raw: int, state: int) {
    if 0 <= state < DoorStateCount then
      ranges[state].Contains(raw) && forall j :: 0 <= j < state ==> !ranges[j].Contains(raw)
    else
      state == DoorUnknown && forall j :: 0 <= j < DoorStateCount ==> !ranges[j].Contains(raw)
  }

  /** First range, at index `from` or later, that contains `raw`. */
  function FirstMatchFrom(ranges: Ranges, raw: int, from: nat): int
    decreases DoorStateCount - from
  {
    if from >= DoorStateCount then DoorUnknown
    else if ranges[from].Contains(raw) then from
    else FirstMatchFrom(ranges, raw, from + 1)
  }

  function Classify(ranges: Ranges, raw: int): int {
    FirstMatchFrom(ranges, raw, 0)
  }

  lemma {:induction false} FirstMatchFromSpec(ranges: Ranges, raw: int, from: nat)
    requires from <= DoorStateCount
    ensures var s := FirstMatchFrom(ranges, raw, from);
      if s == DoorUnknown then
        forall j :: from <= j < DoorStateCount ==> !ranges[j].Contains(raw)
      else
        from <= s < DoorStateCount && ranges[s].Contains(raw) &&
        forall j :: from <= j < s ==> !ranges[j].Contains(raw)
    decreases DoorStateCount - from
  {
    if from < DoorStateCount && !ranges[from].Contains(raw) {
      FirstMatchFromSpec(ranges, raw, from + 1);
    }
  }

  /** Classification is first-match, and first-match has exactly one answer:
      overlapping ranges resolve Open before Closed before Ajar. */
  lemma ClassifyIsFirstMatch(ranges: Ranges, raw: int, state: int)
    ensures IsFirstMatch(ranges, raw, Classify(ranges, raw))
    ensures IsFirstMatch(ranges, raw, state) ==> state == Classify(ranges, raw)
  {
    FirstMatchFromSpec(ranges, raw, 0);
  }

  /** The range-matching loop of the sensor read: returns at the first hit. */
  method GetDoorState(ranges: Ranges, rawVal: int) returns (state: int)
    ensures IsFirstMatch(ranges, rawVal, state)
    ensures state == Classify(ranges, rawVal)
  {
    var ndx := 0;
    while ndx < DoorStateCount
      invariant 0 <= ndx <= DoorStateCount
      invariant forall j :: 0 <= j < ndx ==> !ranges[j].Contains(rawVal)
    {
      if ranges[ndx].Contains(rawVal) {
        state := ndx;
        ClassifyIsFirstMatch(ranges, rawVal, state);
        return;
      }
      ndx := ndx + 1;
    }
    state := DoorUnknown;
    ClassifyIsFirstMatch(ranges, rawVal, state);
  }

  /** Under the default ranges every reading has exactly one classification. */
  lemma DefaultClassification(raw: int)
    ensures Classify(DefaultConfigParams.sensorRangeValues, raw) ==
      if 900 <= raw <= 1024 then DoorOpen
      else if 300 <= raw <= 700 then DoorClosed
      else if 0 <= raw <= 100 then DoorAjar
      else DoorUnknown
  {
  }

  // ---------------------------------------------------------------------------
  // Closing policy

  /** Time the door has been open, by unsigned subtraction of millis() values. */
  function OpenFor(openedSinceMs: U32, nowMs: U32): U32 {
    Sub32(nowMs, openedSinceMs)
  }

  /** The minimum-open guard: opened too recently to be closed. */
  predicate MinOpenGuard(cfg: ConfigParams, openedSinceMs: U32, nowMs: U32) {
    openedSinceMs != 0 && cfg.minDoorOpenMs > 0 && OpenFor(openedSinceMs, nowMs) < cfg.minDoorOpenMs
  }

  /** The maximum-open override: open for too long, close whatever the schedule. */
  predicate MaxOpenOverride(cfg: ConfigParams, openedSinceMs: U32, nowMs: U32) {
    openedSinceMs != 0 && cfg.maxDoorOpenMs > 0 && OpenFor(openedSinceMs, nowMs) > cfg.maxDoorOpenMs
  }

  /** Whether `hhmm` falls in the keep-closed window, which may span midnight. */
  predicate InWindow(w: ClockWindow, hhmm: int) {
    if w.WrapsMidnight() then w.fromHhmm <= hhmm || hhmm <= w.toHhmm
    else w.fromHhmm <= hhmm && hhmm <= w.toHhmm
  }

  /** The closing policy. `timeSet`, `hour` and `minute` come from the clock
      library; `openedSinceMs == 0` means the door has no open timestamp. */
  function DoorShouldBeClosed(cfg: ConfigParams, openedSinceMs: U32, nowMs: U32,
                              timeSet: bool, hour: int, minute: int): (close: bool)
    ensures MinOpenGuard(cfg, openedSinceMs, nowMs) ==> !close
    ensures !MinOpenGuard(cfg, openedSinceMs, nowMs) && MaxOpenOverride(cfg, openedSinceMs, nowMs) ==> close
    ensures !MinOpenGuard(cfg, openedSinceMs, nowMs) && !MaxOpenOverride(cfg, openedSinceMs, nowMs) ==>
              (close <==> timeSet && InWindow(cfg.keepClosedFromTo, hour * 100 + minute))
  {
    if MinOpenGuard(cfg, openedSinceMs, nowMs) then false
    else if MaxOpenOverride(cfg, openedSinceMs, nowMs) then true
    else if !timeSet then false
    else InWindow(cfg.keepClosedFromTo, hour * 100 + minute)
  }

  /** Whether the policy evaluation reports unreliable time: only when no
      duration override decided, time is not set, and the uptime in whole
      hours is a multiple of 6. */
  predicate BadTimeAlertDue(cfg: ConfigParams, openedSinceMs: U32, nowMs: U32, timeSet: bool) {
    !MinOpenGuard(cfg, openedSinceMs, nowMs) && !MaxOpenOverride(cfg, openedSinceMs, nowMs) &&
    !timeSet && (nowMs / 1000 / 60 / 60) % 6 == 0
  }

  /** The unreliable-time notice is raised only on the path where the policy
      then declines to close because time is not set; with no duration rule
      deciding, it is raised during the first hour of every six hours of
      uptime and not in the others. */
  lemma BadTimeAlertMeansStayOpen(cfg: ConfigParams, openedSinceMs: U32, nowMs: U32,
                                  timeSet: bool, hour: int, minute: int)
    ensures BadTimeAlertDue(cfg, openedSinceMs, nowMs, timeSet) ==>
              !timeSet && !DoorShouldBeClosed(cfg, openedSinceMs, nowMs, timeSet, hour, minute)
    ensures BadTimeAlertDue(cfg, 0, 0, false) && BadTimeAlertDue(cfg, 0, 6 * 3600000 + 3599999, false)
    ensures !BadTimeAlertDue(cfg, 0, 3600000, false) && !BadTimeAlertDue(cfg, 0, 5 * 3600000 + 3599999, false)
  {
  }

  /** A window that spans midnight is the complement of the daytime gap between
      its end and its start. */
  lemma WrappedWindowIsComplement(w: ClockWindow, hhmm: int)
    requires w.WrapsMidnight()
    ensures InWindow(w, hhmm) <==> !(w.toHhmm < hhmm < w.fromHhmm)
  {
  }

  /** Without an open timestamp, or with both duration rules disabled, the
      decision is the schedule alone, and never "close" when time is unset. */
  lemma NoDurationRulesMeansSchedule(cfg: ConfigParams, openedSinceMs: U32, nowMs: U32,
                                     timeSet: bool, hour: int, minute: int)
    requires openedSinceMs == 0 || (cfg.minDoorOpenMs == 0 && cfg.maxDoorOpenMs == 0)
    ensures DoorShouldBeClosed(cfg, openedSinceMs, nowMs, timeSet, hour, minute) ==
            (timeSet && InWindow(cfg.keepClosedFromTo, hour * 100 + minute))
  {
  }

  /** The worked examples of the closing policy under the default settings:
      opened 100 s ago at 23:00 stays open (minimum-open guard); opened
      22000 s ago at 12:00 closes (maximum-open override). */
  lemma DurationOverrideExamples(t0: U32)
    requires t0 != 0
    ensures !DoorShouldBeClosed(DefaultConfigParams, t0, Add32(t0, 100000), true, 23, 0)
    ensures DoorShouldBeClosed(DefaultConfigParams, t0, Add32(t0, 22000000), true, 12, 0)
  {
    ElapsedAfterAdd(t0, 100000);
    ElapsedAfterAdd(t0, 22000000);
  }

  /** Window examples: 22:00-05:00 contains 23:59 and 01:00 but not 12:00;
      09:00-17:00 contains 10:00 but not 08:00. */
  lemma WindowExamples()
    ensures InWindow(ClockWindow(2200, 500), 2359) && InWindow(ClockWindow(2200, 500), 100)
    ensures !InWindow(ClockWindow(2200, 500), 1200)
    ensures !InWindow(ClockWindow(900, 1700), 800) && InWindow(ClockWindow(900, 1700), 1000)
  {
  }

  // ---------------------------------------------------------------------------
  // The per-tick state machine

  /** The three globals of the loop; 0 in a timestamp means "absent". */
  datatype DoorGlobals = DoorGlobals(doorOpenedSinceMs: U32, nextCloseAttemptMs: U32, closeAttemptCount: int)

  const ClearedGlobals: DoorGlobals := DoorGlobals(0, 0, 0)

  /** What a tick asks the outside world to do, in order. */
  datatype Effect =
    | Notify(eventId: int)                           // event without a message body
    | NotifyNoRange(rawVal: int)                     // bad data: reading fits no range
    | NotifyTimeUnreliable                           // bad data: clock not set
    | NotifyRetry(doorState: string, retryInMin: int)     // closing failure, more attempts to come
    | NotifyLastAttempt(doorState: string, attempts: int) // closing failure, cap reached
    | PressSwitch                                    // alarm pattern, then one relay pulse

  /** Effects of one sensor read: a bad-data notice when nothing matched. */
  function ReadEffects(raw: int, state: int): seq<Effect> {
    if state == DoorUnknown then [NotifyNoRange(raw)] else []
  }

  /** Effects of try `k` of a closing sequence: press, re-read, and a closed
      notice when the re-read shows Closed. `sensor(k)` is the reading after try k. */
  function TryEffects(cfg: ConfigParams, sensor: nat -> int, k: nat): seq<Effect> {
    var st := Classify(cfg.sensorRangeValues, sensor(k));
    [PressSwitch] + ReadEffects(sensor(k), st) + (if st == DoorClosed then [Notify(IotEventClosedDoor)] else [])
  }

  /** Effects of tries 1..n. */
  function TriesEffects(cfg: ConfigParams, sensor: nat -> int, n: nat): seq<Effect> {
    if n == 0 then [] else TriesEffects(cfg, sensor, n - 1) + TryEffects(cfg, sensor, n)
  }

  /** The first try in 1..n whose re-read shows Closed, or 0 when none does. */
  function FirstClosedTry(cfg: ConfigParams, sensor: nat -> int, n: nat): (k: nat)
    ensures k <= n
    ensures k != 0 ==> 1 <= k && Classify(cfg.sensorRangeValues, sensor(k)) == DoorClosed
    ensures forall j :: 1 <= j <= n && (k == 0 || j < k) ==>
              Classify(cfg.sensorRangeValues, sensor(j)) != DoorClosed
  {
    if n == 0 then 0
    else
      var k := FirstClosedTry(cfg, sensor, n - 1);
      if k != 0 then k
      else if Classify(cfg.sensorRangeValues, sensor(n)) == DoorClosed then n
      else 0
  }

  /** Number of tries a sequence may make. */
  function TriesAllowed(cfg: ConfigParams): nat {
    if cfg.maxClosingTries > 0 then cfg.maxClosingTries else 0
  }

  /** The retry deadline after a failed sequence, never 0 (0 means "absent"). */
  function NextAttemptAt(doneAtMs: U32, betweenMin: int): (next: U32)
    ensures next != 0
    ensures Add32(doneAtMs, Wrap32(betweenMin * 60 * 1000)) != 0 ==> next == Add32(doneAtMs, Wrap32(betweenMin * 60 * 1000))
    ensures Add32(doneAtMs, Wrap32(betweenMin * 60 * 1000)) == 0 ==> next == 1
  {
    var next := Add32(doneAtMs, Wrap32(betweenMin * 60 * 1000));
    if next == 0 then 1 else next
  }

  predicate TooSoon(g: DoorGlobals, nowMs: U32) {
    g.nextCloseAttemptMs != 0 && nowMs < g.nextCloseAttemptMs
  }

  predicate CapReached(cfg: ConfigParams, count: int) {
    cfg.maxClosingAttempts > 0 && count >= cfg.maxClosingAttempts
  }

  /** Whether the tick reaches the closing sequence. */
  predicate StartsSequence(cfg: ConfigParams, g: DoorGlobals, nowMs: U32, timeSet: bool,
                           hour: int, minute: int, raw: int) {
    var state := Classify(cfg.sensorRangeValues, raw);
    state != DoorAjar && state != DoorClosed && !(state == DoorOpen && g.doorOpenedSinceMs == 0) &&
    DoorShouldBeClosed(cfg, g.doorOpenedSinceMs, nowMs, timeSet, hour, minute) &&
    !TooSoon(g, nowMs) && !CapReached(cfg, g.closeAttemptCount)
  }

  datatype TickResult = TickResult(globals: DoorGlobals, effects: seq<Effect>)

  /** One closing sequence, started with globals `g` after effects `pre`;
      `state` is the tick's first classification and `doneAtMs` the clock
      once the tries are over. */
  function SequenceResult(cfg: ConfigParams, g: DoorGlobals, state: int, sensor: nat -> int,
                          doneAtMs: U32, pre: seq<Effect>): TickResult
  {
    var tries := TriesAllowed(cfg);
    var k := FirstClosedTry(cfg, sensor, tries);
    var count := g.closeAttemptCount + 1;
    if k != 0 then
      TickResult(g.(nextCloseAttemptMs := 0, closeAttemptCount := 0), pre + TriesEffects(cfg, sensor, k))
    else
      var last := if tries == 0 then state else Classify(cfg.sensorRangeValues, sensor(tries));
      var notice := if CapReached(cfg, count) then NotifyLastAttempt(GetNamedDoorState(last), count)
                    else NotifyRetry(GetNamedDoorState(last), cfg.timeBetweenClosingAttemptsMin);
      TickResult(g.(nextCloseAttemptMs := NextAttemptAt(doneAtMs, cfg.timeBetweenClosingAttemptsMin),
                    closeAttemptCount := count),
                 pre + TriesEffects(cfg, sensor, tries) + [notice])
  }

  /** One tick of the door check: `raw` is the first reading, `sensor(k)` the
      reading after try k, `nowMs` the clock at the start of the tick and
      `doneAtMs` the clock after a failed sequence. */
  function CheckDoorSpec(cfg: ConfigParams, g: DoorGlobals, nowMs: U32, timeSet: bool, hour: int, minute: int,
                         raw: int, sensor: nat -> int, doneAtMs: U32): TickResult
  {
    var state := Classify(cfg.sensorRangeValues, raw);
    var read := ReadEffects(raw, state);
    if state == DoorAjar then
      TickResult(g, read)
    else if state == DoorClosed then
      TickResult(ClearedGlobals, read + (if g.nextCloseAttemptMs != 0 then [Notify(IotEventClosedDoor)] else []))
    else if state == DoorOpen && g.doorOpenedSinceMs == 0 then
      TickResult(g.(doorOpenedSinceMs := if nowMs == 0 then 1 else nowMs), read)
    else
      PolicyResult(cfg, g, state, nowMs, BadTimeAlertDue(cfg, g.doorOpenedSinceMs, nowMs, timeSet),
                   DoorShouldBeClosed(cfg, g.doorOpenedSinceMs, nowMs, timeSet, hour, minute), sensor, doneAtMs, read)
  }

  /** The rest of a tick once the reading is Open (with a timestamp) or
      Unknown, given whether the bad-time alert is due and whether the door
      should be closed: the retry and cap checks, then a sequence. */
  function PolicyResult(cfg: ConfigParams, g: DoorGlobals, state: int, nowMs: U32, alert: bool, close: bool,
                        sensor: nat -> int, doneAtMs: U32, read: seq<Effect>): TickResult
  {
    var checked := read + (if alert then [NotifyTimeUnreliable] else []);
    if !close then
      TickResult(g.(nextCloseAttemptMs := 0, closeAttemptCount := 0), checked)
    else if TooSoon(g, nowMs) || CapReached(cfg, g.closeAttemptCount) then
      TickResult(g, checked)
    else
      SequenceResult(cfg, g, state, sensor, doneAtMs, checked + [Notify(IotEventAutoClosingDoor)])
  }

  /** Once a try shows Closed, later tries do not change the first such try. */
  lemma {:induction false} FirstClosedTryStable(cfg: ConfigParams, sensor: nat -> int, k: nat, n: nat)
    requires 1 <= k <= n
    requires FirstClosedTry(cfg, sensor, k - 1) == 0
    requires Classify(cfg.sensorRangeValues, sensor(k)) == DoorClosed
    ensures FirstClosedTry(cfg, sensor, n) == k
    decreases n
  {
    if n > k {
      FirstClosedTryStable(cfg, sensor, k, n - 1);
    }
  }

  // ---------------------------------------------------------------------------
  // Properties of a tick

  /** Number of relay actuations among the effects. */
  function Presses(effects: seq<Effect>): nat
    decreases |effects|
  {
    if effects == [] then 0
    else Presses(effects[..|effects| - 1]) + (if effects[|effects| - 1] == PressSwitch then 1 else 0)
  }

  /** Actuations of two effect lists in sequence add up. */
  lemma {:induction false} PressesAppend(a: seq<Effect>, b: seq<Effect>)
    ensures Presses(a + b) == Presses(a) + Presses(b)
    decreases |b|
  {
    if b == [] {
      assert a + b == a;
    } else {
      var front := b[..|b| - 1];
      assert (a + b)[..|a + b| - 1] == a + front;
      PressesAppend(a, front);
    }
  }

  /** A list without a switch press actuates nothing. */
  lemma {:induction false} PressesNone(effects: seq<Effect>)
    requires PressSwitch !in effects
    ensures Presses(effects) == 0
    decreases |effects|
  {
    if effects != [] {
      PressesNone(effects[..|effects| - 1]);
    }
  }

  /** Each try actuates the switch exactly once. */
  lemma TryPressesOnce(cfg: ConfigParams, sensor: nat -> int, k: nat)
    ensures Presses(TryEffects(cfg, sensor, k)) == 1
  {
    var st := Classify(cfg.sensorRangeValues, sensor(k));
    var read := ReadEffects(sensor(k), st);
    var closed: seq<Effect> := if st == DoorClosed then [Notify(IotEventClosedDoor)] else [];
    assert TryEffects(cfg, sensor, k) == [PressSwitch] + read + closed;
    assert Presses(read) == 0 && Presses(closed) == 0;
    PressesAppend([PressSwitch], read);
    PressesAppend([PressSwitch] + read, closed);
  }

  /** Tries 1..n actuate the switch exactly n times. */
  lemma {:induction false} TriesPressCount(cfg: ConfigParams, sensor: nat -> int, n: nat)
    ensures Presses(TriesEffects(cfg, sensor, n)) == n
  {
    if n == 0 {
      assert TriesEffects(cfg, sensor, n) == [];
    } else {
      var before, last := TriesEffects(cfg, sensor, n - 1), TryEffects(cfg, sensor, n);
      assert Presses(before) == n - 1 by { TriesPressCount(cfg, sensor, n - 1); }
      assert Presses(last) == 1 by { TryPressesOnce(cfg, sensor, n); }
      assert Presses(before + last) == n by { PressesAppend(before, last); }
    }
  }

  /** An Ajar reading changes no global and asks for nothing. */
  lemma AjarTickIsNoOp(cfg: ConfigParams, g: DoorGlobals, nowMs: U32, timeSet: bool, hour: int, minute: int,
                       raw: int, sensor: nat -> int, doneAtMs: U32)
    requires Classify(cfg.sensorRangeValues, raw) == DoorAjar
    ensures CheckDoorSpec(cfg, g, nowMs, timeSet, hour, minute, raw, sensor, doneAtMs) == TickResult(g, [])
  {
  }

  /** A Closed reading clears both timestamps and the sequence count, starts no
      sequence, and reports "closed" only when a retry was pending. */
  lemma ClosedTickClears(cfg: ConfigParams, g: DoorGlobals, nowMs: U32, timeSet: bool, hour: int, minute: int,
                         raw: int, sensor: nat -> int, doneAtMs: U32)
    requires Classify(cfg.sensorRangeValues, raw) == DoorClosed
    ensures var r := CheckDoorSpec(cfg, g, nowMs, timeSet, hour, minute, raw, sensor, doneAtMs);
      r.globals == ClearedGlobals &&
      r.effects == if g.nextCloseAttemptMs != 0 then [Notify(IotEventClosedDoor)] else []
  {
  }

  /** The inputs of one tick. */
  datatype TickInput = TickInput(nowMs: U32, timeSet: bool, hour: int, minute: int,
                                 raw: int, sensor: nat -> int, doneAtMs: U32)

  /** Successive ticks: the final globals and all effects in order. */
  function RunTicks(cfg: ConfigParams, g: DoorGlobals, ticks: seq<TickInput>): TickResult
    decreases |ticks|
  {
    if ticks == [] then TickResult(g, [])
    else
      var t := ticks[0];
      var r := CheckDoorSpec(cfg, g, t.nowMs, t.timeSet, t.hour, t.minute, t.raw, t.sensor, t.doneAtMs);
      var rest := RunTicks(cfg, r.globals, ticks[1..]);
      TickResult(rest.globals, r.effects + rest.effects)
  }

  predicate AllReadClosed(cfg: ConfigParams, ticks: seq<TickInput>) {
    forall i :: 0 <= i < |ticks| ==> Classify(cfg.sensorRangeValues, ticks[i].raw) == DoorClosed
  }

  /** Repeated ticks that read Closed never record an open door and never
      actuate: after the first of them the globals stay cleared and nothing is
      asked of the outside world. */
  lemma {:induction false} ClosedTicksAreIdempotent(cfg: ConfigParams, ticks: seq<TickInput>)
    requires AllReadClosed(cfg, ticks)
    ensures RunTicks(cfg, ClearedGlobals, ticks) == TickResult(ClearedGlobals, [])
  {
    if ticks != [] {
      ClosedTicksAreIdempotent(cfg, ticks[1..]);
    }
  }

  /** From any globals, a run of Closed ticks ends cleared and never actuates. */
  lemma ClosedTicksNeverActuate(cfg: ConfigParams, g: DoorGlobals, ticks: seq<TickInput>)
    requires |ticks| > 0 && AllReadClosed(cfg, ticks)
    ensures RunTicks(cfg, g, ticks).globals == ClearedGlobals
    ensures Presses(RunTicks(cfg, g, ticks).effects) == 0
  {
    ClosedTicksAreIdempotent(cfg, ticks[1..]);
    var t := ticks[0];
    ClosedTickClears(cfg, g, t.nowMs, t.timeSet, t.hour, t.minute, t.raw, t.sensor, t.doneAtMs);
  }

  /** The first Open reading without a timestamp records a nonzero one (the
      clock, or 1 when the clock reads 0) and does nothing else that tick. */
  lemma FirstOpenRecordsTimestamp(cfg: ConfigParams, g: DoorGlobals, nowMs: U32, timeSet: bool, hour: int,
                                  minute: int, raw: int, sensor: nat -> int, doneAtMs: U32)
    requires Classify(cfg.sensorRangeValues, raw) == DoorOpen && g.doorOpenedSinceMs == 0
    ensures var r := CheckDoorSpec(cfg, g, nowMs, timeSet, hour, minute, raw, sensor, doneAtMs);
      r.globals.doorOpenedSinceMs != 0 &&
      (nowMs != 0 ==> r.globals.doorOpenedSinceMs == nowMs) &&
      (nowMs == 0 ==> r.globals.doorOpenedSinceMs == 1) &&
      r.globals.nextCloseAttemptMs == g.nextCloseAttemptMs &&
      r.globals.closeAttemptCount == g.closeAttemptCount &&
      r.effects == []
  {
  }

  /** Before a sequence, the checks apply in order: closing not wanted resets
      the retry deadline and the count; otherwise too soon, or the cap reached,
      changes nothing. None of them actuates. */
  lemma ChecksBeforeSequence(cfg: ConfigParams, g: DoorGlobals, nowMs: U32, timeSet: bool, hour: int,
                             minute: int, raw: int, sensor: nat -> int, doneAtMs: U32)
    requires var state := Classify(cfg.sensorRangeValues, raw);
      state != DoorAjar && state != DoorClosed && !(state == DoorOpen && g.doorOpenedSinceMs == 0)
    requires !StartsSequence(cfg, g, nowMs, timeSet, hour, minute, raw)
    ensures var r := CheckDoorSpec(cfg, g, nowMs, timeSet, hour, minute, raw, sensor, doneAtMs);
      Presses(r.effects) == 0 &&
      if !DoorShouldBeClosed(cfg, g.doorOpenedSinceMs, nowMs, timeSet, hour, minute) then
        r.globals == g.(nextCloseAttemptMs := 0, closeAttemptCount := 0)
      else
        r.globals == g
  {
    PressesNone(CheckDoorSpec(cfg, g, nowMs, timeSet, hour, minute, raw, sensor, doneAtMs).effects);
  }

  /** A closing sequence counts itself once and actuates at most
      `maxClosingTries` times. It stops at the first re-read that shows Closed,
      clearing the retry deadline and the count; a failed sequence leaves a
      nonzero retry deadline. The open timestamp is never touched. */
  lemma SequenceOutcome(cfg: ConfigParams, g: DoorGlobals, nowMs: U32, timeSet: bool, hour: int,
                        minute: int, raw: int, sensor: nat -> int, doneAtMs: U32)
    requires StartsSequence(cfg, g, nowMs, timeSet, hour, minute, raw)
    ensures var r := CheckDoorSpec(cfg, g, nowMs, timeSet, hour, minute, raw, sensor, doneAtMs);
      var k := FirstClosedTry(cfg, sensor, TriesAllowed(cfg));
      Presses(r.effects) <= TriesAllowed(cfg) &&
      r.globals.doorOpenedSinceMs == g.doorOpenedSinceMs &&
      (k != 0 ==> r.globals == g.(nextCloseAttemptMs := 0, closeAttemptCount := 0) && Presses(r.effects) == k) &&
      (k == 0 ==> r.globals.nextCloseAttemptMs != 0 &&
                  r.globals.nextCloseAttemptMs == NextAttemptAt(doneAtMs, cfg.timeBetweenClosingAttemptsMin) &&
                  r.globals.closeAttemptCount == g.closeAttemptCount + 1 &&
                  Presses(r.effects) == TriesAllowed(cfg) &&
                  |r.effects| > 0 &&
                  var last := if TriesAllowed(cfg) == 0 then Classify(cfg.sensorRangeValues, raw)
                              else Classify(cfg.sensorRangeValues, sensor(TriesAllowed(cfg)));
                  r.effects[|r.effects| - 1] ==
                    if CapReached(cfg, g.closeAttemptCount + 1)
                    then NotifyLastAttempt(GetNamedDoorState(last), g.closeAttemptCount + 1)
                    else NotifyRetry(GetNamedDoorState(last), cfg.timeBetweenClosingAttemptsMin))
  {
    var state := Classify(cfg.sensorRangeValues, raw);
    var checked := ReadEffects(raw, state) +
      (if BadTimeAlertDue(cfg, g.doorOpenedSinceMs, nowMs, timeSet) then [NotifyTimeUnreliable] else []);
    var pre := checked + [Notify(IotEventAutoClosingDoor)];
    PressesNone(pre);
    var k := FirstClosedTry(cfg, sensor, TriesAllowed(cfg));
    if k != 0 {
      TriesPressCount(cfg, sensor, k);
      PressesAppend(pre, TriesEffects(cfg, sensor, k));
    } else {
      var tried := pre + TriesEffects(cfg, sensor, TriesAllowed(cfg));
      TriesPressCount(cfg, sensor, TriesAllowed(cfg));
      PressesAppend(pre, TriesEffects(cfg, sensor, TriesAllowed(cfg)));
      var r := CheckDoorSpec(cfg, g, nowMs, timeSet, hour, minute, raw, sensor, doneAtMs);
      assert r.effects == tried + [r.effects[|r.effects| - 1]];
      PressesNone([r.effects[|r.effects| - 1]]);
      PressesAppend(tried, [r.effects[|r.effects| - 1]]);
    }
  }

  /** Only a closing sequence actuates the switch. */
  lemma OnlySequencesActuate(cfg: ConfigParams, g: DoorGlobals, nowMs: U32, timeSet: bool, hour: int,
                             minute: int, raw: int, sensor: nat -> int, doneAtMs: U32)
    requires Presses(CheckDoorSpec(cfg, g, nowMs, timeSet, hour, minute, raw, sensor, doneAtMs).effects) > 0
    ensures StartsSequence(cfg, g, nowMs, timeSet, hour, minute, raw)
  {
    var state := Classify(cfg.sensorRangeValues, raw);
    if state != DoorAjar && state != DoorClosed && !(state == DoorOpen && g.doorOpenedSinceMs == 0) &&
       !StartsSequence(cfg, g, nowMs, timeSet, hour, minute, raw) {
      ChecksBeforeSequence(cfg, g, nowMs, timeSet, hour, minute, raw, sensor, doneAtMs);
    }
  }

  /** With the cap active, the sequence count never exceeds it. */
  lemma CapBoundsAttemptCount(cfg: ConfigParams, g: DoorGlobals, nowMs: U32, timeSet: bool, hour: int,
                              minute: int, raw: int, sensor: nat -> int, doneAtMs: U32)
    requires cfg.maxClosingAttempts > 0 && 0 <= g.closeAttemptCount <= cfg.maxClosingAttempts
    ensures var r := CheckDoorSpec(cfg, g, nowMs, timeSet, hour, minute, raw, sensor, doneAtMs);
      0 <= r.globals.closeAttemptCount <= cfg.maxClosingAttempts
  {
    if StartsSequence(cfg, g, nowMs, timeSet, hour, minute, raw) {
      SequenceOutcome(cfg, g, nowMs, timeSet, hour, minute, raw, sensor, doneAtMs);
    }
  }

  /** Without a wrap of the clock, a new sequence is refused for exactly the
      configured spacing after a failed one and permitted from its end on. */
  lemma RetrySpacingWithoutWrap(g: DoorGlobals, doneAtMs: U32, betweenMin: int, nowMs: U32)
    requires 0 < betweenMin * 60 * 1000 && doneAtMs + betweenMin * 60 * 1000 < Modulus
    requires doneAtMs <= nowMs
    ensures TooSoon(g.(nextCloseAttemptMs := NextAttemptAt(doneAtMs, betweenMin)), nowMs) <==>
            nowMs - doneAtMs < betweenMin * 60 * 1000
  {
  }

  /** The retry deadline is compared as an absolute clock value, so a deadline
      that wraps past 2^32 does not hold: a sequence failing one minute before
      the wrap, with 5 minutes' spacing, may be retried 15 seconds later. */
  lemma RetryDeadlineIgnoresWrap()
    ensures NextAttemptAt(Modulus - 60000, 5) == 240000
    ensures !TooSoon(DoorGlobals(1, NextAttemptAt(Modulus - 60000, 5), 1), Modulus - 45000)
  {
  }

  /** A reading that matches no range is not treated like Ajar: it goes on to
      the closing policy and can start a closing sequence. Under the defaults,
      with the door timestamped long ago, at 23:00 a reading of 200 actuates. */
  lemma UnknownReadingCanActuate()
    ensures Classify(DefaultConfigParams.sensorRangeValues, 200) == DoorUnknown
    ensures Presses(CheckDoorSpec(DefaultConfigParams, DoorGlobals(1, 0, 0), 1000000, true, 23, 0,
                                  200, _ => 500, 1100000).effects) == 1
  {
    assert FirstClosedTry(DefaultConfigParams, _ => 500, 2) == 1;
    SequenceOutcome(DefaultConfigParams, DoorGlobals(1, 0, 0), 1000000, true, 23, 0, 200, _ => 500, 1100000);
  }

  /** The monitor's globals and the configuration they are checked against. */
  class DoorMonitor {
    var configParams: ConfigParams
    var doorOpenedSinceMs: U32
    var nextCloseAttemptMs: U32
    var closeAttemptCount: int

    function Globals(): DoorGlobals
      reads this
    {
      DoorGlobals(doorOpenedSinceMs, nextCloseAttemptMs, closeAttemptCount)
    }

    constructor (cfg: ConfigParams)
      ensures configParams == cfg && Globals() == ClearedGlobals
    {
      configParams := cfg;
      doorOpenedSinceMs, nextCloseAttemptMs, closeAttemptCount := 0, 0, 0;
    }

    method CheckDoor(nowMs: U32, timeSet: bool, hour: int, minute: int,
                     raw: int, sensor: nat -> int, doneAtMs: U32) returns (effects: seq<Effect>)
      modifies this
      ensures configParams == old(configParams)
      ensures TickResult(Globals(), effects) ==
              CheckDoorSpec(configParams, old(Globals()), nowMs, timeSet, hour, minute, raw, sensor, doneAtMs)
    {
      var doorState := GetDoorState(configParams.sensorRangeValues, raw);
      effects := ReadEffects(raw, doorState);
      if doorState == DoorAjar {
        return;
      }

      if doorState == DoorClosed {
        if nextCloseAttemptMs != 0 {
          effects := effects + [Notify(IotEventClosedDoor)];
        }
        nextCloseAttemptMs := 0;
        closeAttemptCount := 0;
        doorOpenedSinceMs := 0;
        return;
      }

      if doorState == DoorOpen && doorOpenedSinceMs == 0 {
        doorOpenedSinceMs := nowMs;
        if doorOpenedSinceMs == 0 {
          doorOpenedSinceMs := 1;
        }
        return;
      }

      var alert := BadTimeAlertDue(configParams, doorOpenedSinceMs, nowMs, timeSet);
      var close := DoorShouldBeClosed(configParams, doorOpenedSinceMs, nowMs, timeSet, hour, minute);
      effects := ApplyPolicy(doorState, nowMs, alert, close, sensor, doneAtMs, effects);
    }

    /** Act on the policy's verdicts for a reading that is neither Ajar,
        Closed nor a first Open: `alert` whether the bad-time notice is due,
        `close` whether the door should be closed. Then the checks before a
        sequence, and the sequence. */
    method ApplyPolicy(doorState: int, nowMs: U32, alert: bool, close: bool,
                       sensor: nat -> int, doneAtMs: U32, read: seq<Effect>) returns (effects: seq<Effect>)
      modifies this
      ensures configParams == old(configParams)
      ensures TickResult(Globals(), effects) ==
              PolicyResult(configParams, old(Globals()), doorState, nowMs, alert, close, sensor, doneAtMs, read)
    {
      effects := read;
      if alert {
        effects := effects + [NotifyTimeUnreliable];
      }
      if !close {
        nextCloseAttemptMs := 0;
        closeAttemptCount := 0;
        return;
      }

      if nextCloseAttemptMs != 0 && nowMs < nextCloseAttemptMs {
        return;
      }

      if configParams.maxClosingAttempts > 0 && closeAttemptCount >= configParams.maxClosingAttempts {
        return;
      }

      effects := RunClosingSequence(doorState, sensor, doneAtMs, effects);
    }

    /** One closing sequence: count it, announce it, make the tries, and on
        failure schedule the next sequence and report it. */
    method RunClosingSequence(doorState: int, sensor: nat -> int, doneAtMs: U32, pre: seq<Effect>)
      returns (effects: seq<Effect>)
      modifies this
      ensures configParams == old(configParams)
      ensures TickResult(Globals(), effects) ==
              SequenceResult(configParams, old(Globals()), doorState, sensor, doneAtMs,
                             pre + [Notify(IotEventAutoClosingDoor)])
    {
      closeAttemptCount := closeAttemptCount + 1;
      effects := pre + [Notify(IotEventAutoClosingDoor)];
      var closed, state, tried := CloseTries(doorState, sensor);
      effects := effects + tried;
      if closed {
        nextCloseAttemptMs := 0;
        closeAttemptCount := 0;
        return;
      }

      nextCloseAttemptMs := Add32(doneAtMs, Wrap32(configParams.timeBetweenClosingAttemptsMin * 60 * 1000));
      if nextCloseAttemptMs == 0 {
        nextCloseAttemptMs := 1;
      }

      if configParams.maxClosingAttempts > 0 && closeAttemptCount >= configParams.maxClosingAttempts {
        effects := effects + [NotifyLastAttempt(GetNamedDoorState(state), closeAttemptCount)];
      } else {
        effects := effects + [NotifyRetry(GetNamedDoorState(state), configParams.timeBetweenClosingAttemptsMin)];
      }
    }

    /** The tries of a sequence: up to `maxClosingTries` times press the switch,
        wait, and re-read, stopping at the first re-read that shows Closed.
        `state` is the last classification (the tick's own when no try ran). */
    method CloseTries(doorState: int, sensor: nat -> int) returns (closed: bool, state: int, effects: seq<Effect>)
      ensures closed <==> FirstClosedTry(configParams, sensor, TriesAllowed(configParams)) != 0
      ensures closed ==> effects == TriesEffects(configParams, sensor, FirstClosedTry(configParams, sensor, TriesAllowed(configParams)))
      ensures !closed ==> effects == TriesEffects(configParams, sensor, TriesAllowed(configParams))
      ensures !closed ==> state == if TriesAllowed(configParams) == 0 then doorState
                                   else Classify(configParams.sensorRangeValues, sensor(TriesAllowed(configParams)))
    {
      var cfg := configParams;
      state := doorState;
      effects := [];
      var attempt := 1;
      while attempt <= cfg.maxClosingTries
        invariant 1 <= attempt <= TriesAllowed(cfg) + 1
        invariant FirstClosedTry(cfg, sensor, attempt - 1) == 0
        invariant effects == TriesEffects(cfg, sensor, attempt - 1)
        invariant state == if attempt == 1 then doorState else Classify(cfg.sensorRangeValues, sensor(attempt - 1))
      {
        ghost var before := effects;
        effects := effects + [PressSwitch];
        state := GetDoorState(cfg.sensorRangeValues, sensor(attempt));
        effects := effects + ReadEffects(sensor(attempt), state);
        if state == DoorClosed {
          effects := effects + [Notify(IotEventClosedDoor)];
          assert effects == TriesEffects(cfg, sensor, attempt) by {
            assert effects == before + TryEffects(cfg, sensor, attempt);
          }
          assert FirstClosedTry(cfg, sensor, TriesAllowed(cfg)) == attempt by {
            FirstClosedTryStable(cfg, sensor, attempt, TriesAllowed(cfg));
          }
          return true, state, effects;
        }
        assert effects == TriesEffects(cfg, sensor, attempt) by {
          assert effects == before + TryEffects(cfg, sensor, attempt);
        }
        assert FirstClosedTry(cfg, sensor, attempt) == 0;
        attempt := attempt + 1;
      }
      closed := false;
    }
  }
}
