/** Door-state and event encodings and the default configuration record of the
    monitor (the header shared by the firmware's source files). */
module Defs {
  import opened Word32

  // Door states: indices into the sensor-range table, or DoorUnknown.
  const DoorUnknown: int := -1
  const DoorOpen: int := 0
  const DoorClosed: int := 1
  const DoorAjar: int := 2
  const DoorStateCount: int := 3

  // Event ids passed to the notifier.
  const IotEventNone: int := 0
  const IotEventAutoClosingDoor: int := 1
  const IotEventUnknownState: int := 2
  const IotEventBadData: int := 3
  const IotEventReset: int := 4
  const IotEventClosingFailure: int := 5
  const IotEventClosedDoor: int := 6

  /** An inclusive range of raw analog readings. */
  datatype Range = Range(lo: int, hi: int) {
    predicate Contains(raw: int) { lo <= raw <= hi }
    predicate Ordered() { lo <= hi }
  }

  /** One range per door state, indexed Open, Closed, Ajar. */
  type Ranges = s: seq<Range> | |s| == DoorStateCount
    witness [Range(0, 0), Range(0, 0), Range(0, 0)]

  /** A time-of-day window in hhmm form; from > to spans midnight. */
  datatype ClockWindow = ClockWindow(fromHhmm: int, toHhmm: int) {
    predicate WrapsMidnight() { fromHhmm > toHhmm }
  }

  /** The tunable parameters of the control loop. */
  datatype ConfigParams = ConfigParams(
    mainLoopMs: U32,
    updateConfigMs: U32,
    closeDoorSlowBeepCount: int,
    closeDoorFastBeepCount: int,
    maxClosingTries: int,
    doorClosingTimeMs: U32,
    timeBetweenClosingAttemptsMin: int,
    maxClosingAttempts: int,
    doorClosingSwitchPressMs: U32,
    maxDoorOpenMs: U32,
    minDoorOpenMs: U32,
    keepClosedFromTo: ClockWindow,
    sensorRangeValues: Ranges)

  /** The field initialisers of the configuration record. */
  const DefaultConfigParams: ConfigParams := ConfigParams(
    mainLoopMs := 15 * 1000,
    updateConfigMs := 60 * 1000,
    closeDoorSlowBeepCount := 4,
    closeDoorFastBeepCount := 12,
    maxClosingTries := 2,
    doorClosingTimeMs := 20 * 1000,
    timeBetweenClosingAttemptsMin := 5,
    maxClosingAttempts := 4,
    doorClosingSwitchPressMs := 500,
    maxDoorOpenMs := 6 * 60 * 60 * 1000,
    minDoorOpenMs := 5 * 60 * 1000,
    keepClosedFromTo := ClockWindow(2200, 500),
    sensorRangeValues := [Range(900, 1024), Range(300, 700), Range(0, 100)])

  predicate IsDoorStateIndex(s: int) { 0 <= s < DoorStateCount }

  /** Open, Closed and Ajar are the indices 0, 1, 2 of the range table, and
      the unknown marker is none of them. */
  lemma DoorStateEncoding()
    ensures IsDoorStateIndex(DoorOpen) && IsDoorStateIndex(DoorClosed) && IsDoorStateIndex(DoorAjar)
    ensures DoorOpen != DoorClosed && DoorClosed != DoorAjar && DoorOpen != DoorAjar
    ensures !IsDoorStateIndex(DoorUnknown)
  {
  }

  /** The event ids are pairwise distinct and "no event" is 0. */
  lemma EventIdsDistinct()
    ensures IotEventNone == 0
    ensures |{IotEventNone, IotEventAutoClosingDoor, IotEventUnknownState, IotEventBadData,
              IotEventReset, IotEventClosingFailure, IotEventClosedDoor}| == 7
  {
  }

  /** Each default range is ordered and no reading lies in two of them. */
  lemma DefaultRangesDisjoint()
    ensures forall i :: 0 <= i < DoorStateCount ==> DefaultConfigParams.sensorRangeValues[i].Ordered()
    ensures forall raw, i, j ::
              0 <= i < j < DoorStateCount && DefaultConfigParams.sensorRangeValues[i].Contains(raw)
              ==> !DefaultConfigParams.sensorRangeValues[j].Contains(raw)
  {
  }

  /** The default minimum open time (5 min) is below the default maximum (6 h),
      and the default closing window 22:00-05:00 spans midnight. */
  lemma DefaultDurationsAndWindow()
    ensures 0 < DefaultConfigParams.minDoorOpenMs < DefaultConfigParams.maxDoorOpenMs
    ensures DefaultConfigParams.keepClosedFromTo.WrapsMidnight()
  {
  }

  /** By default a sequence makes at most 2 tries and at most 4 sequences run
      before the monitor stops trying. */
  lemma DefaultClosingLimits()
    ensures DefaultConfigParams.maxClosingAttempts == 4 > 0
    ensures DefaultConfigParams.maxClosingTries == 2
  {
  }
}
