/** The ordering window of a cloud-kitchen slot (the customer hook's
    `checkIfOrderingOpen`): from a slot's start and end times of day, how
    far before the start ordering closes, and the current minute of the day,
    decide whether ordering is open, how long is left until the cutoff and
    which status label to show. The clock is a parameter. */
module SlotWindow {
  import opened Common

  const MinutesPerDay := 24 * 60
  /** At or below this many minutes left the label is "closing soon". */
  const ClosingSoonMinutes := 60

  datatype StatusLabel = Open | ClosingSoon | Closed

  datatype TimeRemaining = TimeRemaining(hours: int, minutes: int)

  datatype WindowState = WindowState(
    isOpen: bool,
    timeRemaining: Option<TimeRemaining>,
    statusLabel: StatusLabel)

  predicate IsMinuteOfDay(m: int) { 0 <= m < MinutesPerDay }

  function TotalMinutes(t: TimeRemaining): int { t.hours * 60 + t.minutes }

  /** The cutoff: `leadMinutes` (the slot's cutoff hours times 60) before the
      start, moved forward one day when that is negative. */
  function CutoffMinutes(startMinutes: int, leadMinutes: nat): int {
    var raw := startMinutes - leadMinutes;
    if raw < 0 then MinutesPerDay + raw else raw
  }

  /** A normal slot has ended once its end is reached; an overnight slot
      (end at or before start) between this morning's end and the next start. */
  predicate HasSlotEndedToday(startMinutes: int, endMinutes: int, nowMinutes: int) {
    if endMinutes > startMinutes then nowMinutes >= endMinutes
    else nowMinutes >= endMinutes && nowMinutes < startMinutes
  }

  /** The source's test, including its second disjunct in the wrapped branch
      (which the first conjunct makes unreachable). */
  predicate IsBeforeCutoff(startMinutes: int, cutoff: int, nowMinutes: int) {
    if cutoff < 0 || cutoff > startMinutes then
      var wrappedCutoff := if cutoff < 0 then MinutesPerDay + cutoff else cutoff;
      nowMinutes < startMinutes && (nowMinutes < wrappedCutoff || nowMinutes >= startMinutes)
    else
      nowMinutes < cutoff
  }

  function Closed(): WindowState { WindowState(false, None, StatusLabel.Closed) }

  function CheckIfOrderingOpen(startMinutes: int, endMinutes: int, leadMinutes: nat, nowMinutes: int): (w: WindowState)
    requires IsMinuteOfDay(nowMinutes)
    // the three outputs agree with each other
    ensures !w.isOpen <==> w.timeRemaining.None?
    ensures w.statusLabel == StatusLabel.Closed <==> !w.isOpen
    // an ended slot is closed; a slot whose end equals its start never ends
    ensures (endMinutes > startMinutes && nowMinutes >= endMinutes) ==> !w.isOpen
    ensures (endMinutes <= startMinutes && endMinutes <= nowMinutes < startMinutes) ==> !w.isOpen
    ensures endMinutes == startMinutes ==> !HasSlotEndedToday(startMinutes, endMinutes, nowMinutes)
    // for a start inside the day: ordering never runs into the slot itself ...
    ensures IsMinuteOfDay(startMinutes) && w.isOpen ==> nowMinutes < startMinutes
    // ... and the countdown is a well-formed hours/minutes split of a
    // positive time that ends exactly at the cutoff's time of day
    ensures IsMinuteOfDay(startMinutes) && w.isOpen ==>
      var t := w.timeRemaining.value;
      && 0 <= t.minutes < 60
      && 1 <= TotalMinutes(t) <= MinutesPerDay - 1
      && (nowMinutes + TotalMinutes(t)) % MinutesPerDay == (startMinutes - leadMinutes) % MinutesPerDay
      && (w.statusLabel == ClosingSoon <==> TotalMinutes(t) <= ClosingSoonMinutes)
      && (w.statusLabel == StatusLabel.Open <==> TotalMinutes(t) > ClosingSoonMinutes)
    // what "open" means, stated without the source's wrap steps: the slot
    // has not ended, now is before the start, and now is before the
    // cutoff's time of day (for cutoffs up to two days before the start) ...
    ensures IsMinuteOfDay(startMinutes) && leadMinutes <= startMinutes + 2 * MinutesPerDay ==>
      (w.isOpen <==>
        && !HasSlotEndedToday(startMinutes, endMinutes, nowMinutes)
        && nowMinutes < startMinutes
        && nowMinutes < (startMinutes - leadMinutes) % MinutesPerDay)
    // ... and a cutoff further back never opens
    ensures IsMinuteOfDay(startMinutes) && leadMinutes > startMinutes + 2 * MinutesPerDay ==> !w.isOpen
  {
    var cutoff := CutoffMinutes(startMinutes, leadMinutes);
    CutoffWindow(startMinutes, leadMinutes, nowMinutes);
    if HasSlotEndedToday(startMinutes, endMinutes, nowMinutes) then
      Closed()
    else if !IsBeforeCutoff(startMinutes, cutoff, nowMinutes) then
      Closed()
    else
      var remaining := Remaining(cutoff, nowMinutes);
      var status := if remaining <= ClosingSoonMinutes then ClosingSoon else StatusLabel.Open;
      assert TotalMinutes(TimeRemaining(remaining / 60, remaining % 60)) == remaining;
      WindowState(true, Some(TimeRemaining(remaining / 60, remaining % 60)), status)
  }

  /** The minutes from now until the cutoff, moved forward one day when the
      cutoff is earlier in the day. */
  function Remaining(cutoff: int, nowMinutes: int): int {
    var raw := cutoff - nowMinutes;
    if raw < 0 then MinutesPerDay + raw else raw
  }

  /** The cutoff test and the countdown, case by case on how far the cutoff
      lies before the start. */
  lemma {:induction false} CutoffWindow(startMinutes: int, leadMinutes: nat, nowMinutes: int)
    requires IsMinuteOfDay(nowMinutes)
    ensures IsMinuteOfDay(startMinutes) && IsBeforeCutoff(startMinutes, CutoffMinutes(startMinutes, leadMinutes), nowMinutes) ==>
      var r := Remaining(CutoffMinutes(startMinutes, leadMinutes), nowMinutes);
      && nowMinutes < startMinutes
      && 1 <= r <= MinutesPerDay - 1
      && (nowMinutes + r) % MinutesPerDay == (startMinutes - leadMinutes) % MinutesPerDay
    ensures IsMinuteOfDay(startMinutes) && leadMinutes <= startMinutes + 2 * MinutesPerDay ==>
      (IsBeforeCutoff(startMinutes, CutoffMinutes(startMinutes, leadMinutes), nowMinutes) <==>
        nowMinutes < startMinutes && nowMinutes < (startMinutes - leadMinutes) % MinutesPerDay)
    ensures IsMinuteOfDay(startMinutes) && leadMinutes > startMinutes + 2 * MinutesPerDay ==>
      !IsBeforeCutoff(startMinutes, CutoffMinutes(startMinutes, leadMinutes), nowMinutes)
  {
    if IsMinuteOfDay(startMinutes) {
      var raw := startMinutes - leadMinutes;
      var cutoff := CutoffMinutes(startMinutes, leadMinutes);
      if raw >= 0 {
        assert cutoff == raw && raw % MinutesPerDay == raw;
      } else if raw >= -MinutesPerDay {
        assert cutoff == raw + MinutesPerDay;
        assert raw % MinutesPerDay == raw + MinutesPerDay;
      } else if raw >= -2 * MinutesPerDay {
        assert cutoff < 0;
        assert raw % MinutesPerDay == raw + 2 * MinutesPerDay;
      } else {
        assert cutoff + MinutesPerDay < 0;
      }
    }
  }

  /** In the wrapped branch the test reduces to its reachable part. */
  lemma {:induction false} WrappedTestIsReachablePart(startMinutes: int, cutoff: int, nowMinutes: int)
    requires cutoff < 0 || cutoff > startMinutes
    ensures IsBeforeCutoff(startMinutes, cutoff, nowMinutes) <==>
      nowMinutes < startMinutes && nowMinutes < (if cutoff < 0 then MinutesPerDay + cutoff else cutoff)
  {
  }

  /** A normal slot is closed from its start to its end: once it has started,
      the cutoff has passed. */
  lemma {:induction false} ClosedWhileServing(startMinutes: int, endMinutes: int, leadMinutes: nat, nowMinutes: int)
    requires IsMinuteOfDay(startMinutes) && IsMinuteOfDay(nowMinutes)
    requires endMinutes > startMinutes && startMinutes <= nowMinutes < endMinutes
    ensures !CheckIfOrderingOpen(startMinutes, endMinutes, leadMinutes, nowMinutes).isOpen
    ensures !HasSlotEndedToday(startMinutes, endMinutes, nowMinutes)
  {
  }

  /** Slot 06:00-10:00 with an 8 hour cutoff: the cutoff wraps to 22:00, and
      at 23:00 ordering is closed. */
  lemma {:induction false} BreakfastAtElevenPm()
    ensures CutoffMinutes(360, 480) == 1320
    ensures CheckIfOrderingOpen(360, 600, 480, 1380) == Closed()
  {
  }

  /** The same slot at 05:00: the source reports it open with 17h00m left,
      counting down to 22:00 of the same day. */
  lemma {:induction false} BreakfastAtFiveAm()
    ensures CheckIfOrderingOpen(360, 600, 480, 300) ==
      WindowState(true, Some(TimeRemaining(17, 0)), StatusLabel.Open)
  {
  }

  // -------------------------------------------------- "HH:MM[:SS]" parsing

  /** `const [h, m] = s.split(':').map(Number); h * 60 + m` for times whose
      first two fields are decimal digits; other strings give None. */
  function ParseClock(s: string): (r: Option<int>)
    ensures r.Some? ==> r.value >= 0
  {
    var i := IndexOf(s, ':');
    if i < 0 then None
    else
      var rest := s[i + 1..];
      var j := IndexOf(rest, ':');
      var minutesText := if j < 0 then rest else rest[..j];
      match (ParseNat(s[..i]), ParseNat(minutesText))
      case (Some(h), Some(m)) => Some(h * 60 + m)
      case _ => None
  }

  function Pad2(n: nat): (s: string)
    requires n < 100
    ensures |s| == 2 && AllDigits(s)
  {
    if n < 10 then "0" + NatToString(n) else NatToString(n)
  }

  /** A time of day as the database renders it. */
  function FormatClock(h: nat, m: nat): string
    requires h < 24 && m < 60
  {
    Pad2(h) + ":" + Pad2(m) + ":00"
  }

  lemma {:induction false} DigitsValueOfPad2(n: nat)
    requires n < 100
    ensures DigitsValue(Pad2(n)) == n
  {
    DigitsValueOfNatToString(n);
    if n < 10 {
      var s := Pad2(n);
      assert s[..1] == "0";
    }
  }

  /** Parsing a rendered time of day gives back its minute of the day. */
  lemma {:induction false} ParseFormatClock(h: nat, m: nat)
    requires h < 24 && m < 60
    ensures ParseClock(FormatClock(h, m)) == Some(h * 60 + m)
    ensures IsMinuteOfDay(h * 60 + m)
  {
    var s := FormatClock(h, m);
    assert s == Pad2(h) + [':'] + (Pad2(m) + ":00");
    IndexOfAfterDigits(Pad2(h), Pad2(m) + ":00", ':');
    var rest := s[3..];
    assert rest == Pad2(m) + [':'] + "00";
    IndexOfAfterDigits(Pad2(m), "00", ':');
    assert s[..2] == Pad2(h);
    assert rest[..2] == Pad2(m);
    DigitsValueOfPad2(h);
    DigitsValueOfPad2(m);
  }

  /** The window of a slot given as strings; None when a time does not parse
      (where the source would compute with NaN). */
  function SlotWindowAt(startTime: string, endTime: string, leadMinutes: nat, nowMinutes: int): (r: Option<WindowState>)
    requires IsMinuteOfDay(nowMinutes)
    ensures r.Some? <==> ParseClock(startTime).Some? && ParseClock(endTime).Some?
    ensures r.Some? ==> r.value == CheckIfOrderingOpen(ParseClock(startTime).value, ParseClock(endTime).value, leadMinutes, nowMinutes)
  {
    match (ParseClock(startTime), ParseClock(endTime))
    case (Some(s), Some(e)) => Some(CheckIfOrderingOpen(s, e, leadMinutes, nowMinutes))
    case _ => None
  }
}
