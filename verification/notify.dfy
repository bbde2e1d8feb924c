/** The notification gate: composing an event message and suppressing repeats
    of the same event within the configured period. The HTTP POST itself is
    outside the model; its outcome (WiFi available, HTTP status) is an input. */
module Notify {
  import opened Word32
  import opened Defs
  import opened Options

  // Event ids used by this revision beyond the shared ones.
  const IotEventBadTime: int := 7
  const IotEventConfigError: int := 8
  const IotEventControlDisabled: int := 9

  const EventTypeInfo: string := "Info"
  const EventTypeWarn: string := "Warning"
  const EventTypeCritical: string := "Critical"

  /** The body posted to the notification endpoint. */
  datatype NotifyMessage = NotifyMessage(eventType: string, subject: string, message: string)

  // ---------------------------------------------------------------------------
  // Decimal text of an integer, as printed by "%d"

  function DigitChar(d: int): char
    requires 0 <= d < 10
  {
    ('0' as int + d) as char
  }

  function Digits(n: nat): string
    decreases n
  {
    if n < 10 then [DigitChar(n)] else Digits(n / 10) + [DigitChar(n % 10)]
  }

  function Decimal(n: int): string {
    if n < 0 then "-" + Digits(-n) else Digits(n)
  }

  /** Reading back a string of digits, most significant first. */
  function DigitsValue(s: string): int
    decreases |s|
  {
    if s == [] then 0 else DigitsValue(s[..|s| - 1]) * 10 + (s[|s| - 1] as int - '0' as int)
  }

  function DecimalValue(s: string): int {
    if |s| > 0 && s[0] == '-' then -DigitsValue(s[1..]) else DigitsValue(s)
  }

  lemma {:induction false} DigitsRoundTrip(n: nat)
    ensures |Digits(n)| > 0 && forall i :: 0 <= i < |Digits(n)| ==> '0' <= Digits(n)[i] <= '9'
    ensures DigitsValue(Digits(n)) == n
    decreases n
  {
    if n >= 10 {
      var s := Digits(n);
      assert s[..|s| - 1] == Digits(n / 10) && s[|s| - 1] == DigitChar(n % 10);
      DigitsRoundTrip(n / 10);
    }
  }

  /** A leading minus sign negates the digits after it. */
  lemma NegativeValue(t: string)
    ensures DecimalValue("-" + t) == -DigitsValue(t)
  {
    assert ("-" + t)[1..] == t;
  }

  /** Text without a leading minus sign reads as plain digits. */
  lemma UnsignedValue(t: string)
    requires |t| > 0 && t[0] != '-'
    ensures DecimalValue(t) == DigitsValue(t)
  {
  }

  /** The decimal text of an id determines the id. */
  lemma DecimalRoundTrip(n: int)
    ensures DecimalValue(Decimal(n)) == n
  {
    if n < 0 {
      var t := Digits(-n);
      assert DigitsValue(t) == -n by { DigitsRoundTrip(-n); }
      assert Decimal(n) == "-" + t;
      NegativeValue(t);
    } else {
      var t := Digits(n);
      assert DigitsValue(t) == n && |t| > 0 && t[0] != '-' by { DigitsRoundTrip(n); }
      assert Decimal(n) == t;
      UnsignedValue(t);
    }
  }

  // ---------------------------------------------------------------------------
  // Event message

  predicate KnownEvent(eventId: int) {
    eventId in {IotEventAutoClosingDoor, IotEventBadData, IotEventBadTime, IotEventClosingFailure,
                IotEventClosedDoor, IotEventReset, IotEventConfigError, IotEventControlDisabled}
  }

  const UnknownEventPrefix: string := "Message for an unknown event: "

  function EventType(eventId: int): string {
    if eventId == IotEventClosingFailure then EventTypeWarn
    else if eventId == IotEventClosedDoor then EventTypeCritical
    else EventTypeInfo
  }

  /** Subject and fixed message text of an event. */
  function EventText(eventId: int): (string, string) {
    if eventId == IotEventAutoClosingDoor then
      ("Garage door auto closing", "The garage door was found open when it should have been closed.\n")
    else if eventId == IotEventBadData then
      ("Garage door getting bad data", "See message below from monitor.\n")
    else if eventId == IotEventBadTime then
      ("Garage door lost time", "The current time can not be reliably determined. Functions that rely on correct current time will be suspended.\n")
    else if eventId == IotEventClosingFailure then
      ("Garage door closing failure'", "There was an error trying to close the garage door.\n")
    else if eventId == IotEventClosedDoor then
      ("Garage door is now closed", "The garage door is now closed as expected.\n")
    else if eventId == IotEventReset then
      ("Garage door monitor reset", "The garage door monitor has been reset. This could be due to power cycle, or code crash.\n")
    else if eventId == IotEventConfigError then
      ("Failure parsing configuration", "Failed to parse the configuration data retrieved from the server.\n")
    else if eventId == IotEventControlDisabled then
      ("Door control is disabled", "Door would have closed by now, but control has been disabled.\n")
    else
      ("Unknown event", UnknownEventPrefix + Decimal(eventId) + "\n")
  }

  /** The caller's text appended after the fixed message: all of it when the
      length is -1, its first `msgLen` characters (at most all) when positive,
      nothing otherwise. */
  function Appended(msg: string, msgLen: int): string {
    var n := if msgLen == -1 then |msg| else msgLen;
    if n > 0 then msg[..if n < |msg| then n else |msg|] else ""
  }

  function CreateEventMessage(eventId: int, msg: string, msgLen: int): (m: NotifyMessage)
    ensures m.eventType == EventTypeWarn <==> eventId == IotEventClosingFailure
    ensures m.eventType == EventTypeCritical <==> eventId == IotEventClosedDoor
    ensures m.eventType == EventTypeInfo <==> eventId != IotEventClosingFailure && eventId != IotEventClosedDoor
    ensures !KnownEvent(eventId) ==>
              m.subject == "Unknown event" &&
              m.message == UnknownEventPrefix + Decimal(eventId) + "\n" + Appended(msg, msgLen)
    ensures |m.message| == |EventText(eventId).1| + |Appended(msg, msgLen)|
    ensures m.message[..|EventText(eventId).1|] == EventText(eventId).1
    ensures msgLen == -1 ==> m.message == EventText(eventId).1 + msg
    ensures msgLen <= 0 && msgLen != -1 ==> m.message == EventText(eventId).1
    ensures 0 < msgLen <= |msg| ==> m.message == EventText(eventId).1 + msg[..msgLen]
    ensures msgLen > |msg| ==> m.message == EventText(eventId).1 + msg
    ensures m.subject == EventText(eventId).0
  {
    var (subject, text) := EventText(eventId);
    var appended := Appended(msg, msgLen);
    assert (text + appended)[..|text|] == text;
    NotifyMessage(EventType(eventId), subject, text + appended)
  }

  /** The id of an unknown event can be read back from its message. */
  lemma UnknownEventIdRecoverable(eventId: int)
    requires !KnownEvent(eventId)
    ensures var text := EventText(eventId).1;
      DecimalValue(text[|UnknownEventPrefix|..|text| - 1]) == eventId
  {
    var text := EventText(eventId).1;
    assert text[|UnknownEventPrefix|..|text| - 1] == Decimal(eventId);
    DecimalRoundTrip(eventId);
  }

  // ---------------------------------------------------------------------------
  // The throttle

  /** Whether a call repeats the last event within the period. */
  predicate Suppressed(lastId: int, lastTimeMs: U32, eventId: int, nowMs: U32, periodMs: U32) {
    eventId == lastId && Sub32(nowMs, lastTimeMs) < periodMs
  }

  /** A different event always passes the throttle. */
  lemma DifferentEventPasses(lastId: int, lastTimeMs: U32, eventId: int, nowMs: U32, periodMs: U32)
    requires eventId != lastId
    ensures !Suppressed(lastId, lastTimeMs, eventId, nowMs, periodMs)
  {
  }

  /** The same event is suppressed for exactly `periodMs` after it was let
      through, measured across a wrap of the clock: suppressed at t0 + d for
      every d below the period, let through at t0 + period. */
  lemma SuppressionWindow(id: int, t0: U32, periodMs: U32, d: U32)
    ensures Suppressed(id, t0, id, Add32(t0, d), periodMs) <==> d < periodMs
  {
    ElapsedAfterAdd(t0, d);
  }

  /** The notification state: the last event let through and when. */
  class Notifier {
    var lastNotifyTime: U32
    var lastNotifiedEventId: int

    constructor ()
      ensures lastNotifyTime == 0 && lastNotifiedEventId == IotEventNone
    {
      lastNotifyTime := 0;
      lastNotifiedEventId := IotEventNone;
    }

    /** Send an event. `minNotifyPeriodMs` is the configured period, `wifiOk`
        the outcome of bringing WiFi up and `httpCode` the POST's status.
        `posted` is the message handed to the POST, if any. */
    method SendNotification(nowMs: U32, minNotifyPeriodMs: U32, eventId: int, msg: string, msgLen: int,
                            wifiOk: bool, httpCode: int)
      returns (result: bool, posted: Option<NotifyMessage>)
      modifies this
      ensures Suppressed(old(lastNotifiedEventId), old(lastNotifyTime), eventId, nowMs, minNotifyPeriodMs) ==>
                result && posted == None &&
                lastNotifyTime == old(lastNotifyTime) && lastNotifiedEventId == old(lastNotifiedEventId)
      ensures !Suppressed(old(lastNotifiedEventId), old(lastNotifyTime), eventId, nowMs, minNotifyPeriodMs) ==>
                lastNotifyTime == nowMs && lastNotifiedEventId == eventId &&
                posted == (if wifiOk then Some(CreateEventMessage(eventId, msg, msgLen)) else None) &&
                result == (wifiOk && httpCode == 200)
    {
      if eventId == lastNotifiedEventId && Sub32(nowMs, lastNotifyTime) < minNotifyPeriodMs {
        return true, None;
      }
      lastNotifyTime := nowMs;
      lastNotifiedEventId := eventId;

      if !wifiOk {
        return false, None;
      }

      var msgToSend := CreateEventMessage(eventId, msg, msgLen);
      posted := Some(msgToSend);
      result := false;
      if httpCode == 200 {
        result := true;
      }
    }
  }

}
