/**
 * The 40-minute lesson slots offered by the profile form, from 7:30 AM while a slot
 * may still start at or before 1:30 PM, rendered as "h:mm AM - h:mm PM" labels.
 */
module TimeSlots {
  import opened Common
  import opened Decimal

  /** A wall-clock time on a 24-hour dial. */
  datatype Clock = Clock(hour: nat, minute: nat)

  predicate ValidClock(c: Clock) {
    c.hour < 24 && c.minute < 60
  }

  function MinuteOfDay(c: Clock): nat {
    c.hour * 60 + c.minute
  }

  function ClockAt(t: nat): Clock {
    Clock(t / 60, t % 60)
  }

  const FirstStart: nat := 7 * 60 + 30
  const LastStart: nat := 13 * 60 + 30
  const SlotLength: nat := 40
  /** How many starts `FirstStart + SlotLength * k` do not pass `LastStart`. */
  const SlotCount: nat := (LastStart - FirstStart) / SlotLength + 1

  function SlotStart(k: nat): nat {
    FirstStart + SlotLength * k
  }

  /** formatTime: 12-hour hour (hours above 12 lose 12, so 12 stays 12), two-digit minutes, AM/PM. */
  function FormatTime(h: nat, m: nat): (s: string)
  {
    var suffix := if h >= 12 then "PM" else "AM";
    var formattedHour := if h > 12 then h - 12 else h;
    NatToString(formattedHour) + ":" + PadStart2(NatToString(m)) + " " + suffix
  }

  function RangeLabel(start: Clock, end: Clock): string {
    FormatTime(start.hour, start.minute) + " - " + FormatTime(end.hour, end.minute)
  }

  function SlotBegin(k: nat): Clock {
    ClockAt(SlotStart(k))
  }

  /** A slot ends `SlotLength` minutes after it begins. */
  function SlotEnd(k: nat): Clock {
    ClockAt(SlotStart(k) + SlotLength)
  }

  function SlotLabel(k: nat): string {
    RangeLabel(SlotBegin(k), SlotEnd(k))
  }

  /** The labels the loop produces, one per slot. */
  function Schedule(): (r: seq<string>)
    ensures |r| == SlotCount
    ensures forall k :: 0 <= k < SlotCount ==> r[k] == SlotLabel(k)
  {
    seq(SlotCount, k requires 0 <= k => SlotLabel(k))
  }

  lemma MinuteOfClockAt(t: nat)
    ensures MinuteOfDay(ClockAt(t)) == t
    ensures ClockAt(t).minute < 60
  {
  }

  lemma ClockOfParts(h: nat, m: nat)
    requires m < 60
    ensures ClockAt(h * 60 + m) == Clock(h, m)
  {
  }

  /** timeRanges: steps hour and minute by 40 minutes with a carry into the hour. */
  method TimeRanges() returns (ranges: seq<string>)
    ensures ranges == Schedule()
    ensures |ranges| == 10
    ensures ranges[0] == "7:30 AM - 8:10 AM"
    ensures ranges[9] == "1:30 PM - 2:10 PM"
  {
    ranges := [];
    var hour: nat := 7;
    var minute: nat := 30;
    while hour < 13 || (hour == 13 && minute <= 30)
      invariant minute < 60
      invariant hour * 60 + minute == SlotStart(|ranges|)
      invariant |ranges| <= SlotCount
      invariant forall i :: 0 <= i < |ranges| ==> ranges[i] == SlotLabel(i)
      decreases LastStart + SlotLength - (hour * 60 + minute)
    {
      var startHour, startMinute := hour, minute;
      minute := minute + 40;
      if minute >= 60 {
        hour := hour + 1;
        minute := minute - 60;
      }
      var endHour, endMinute := hour, minute;
      var text := FormatTime(startHour, startMinute) + " - " + FormatTime(endHour, endMinute);
      CarryStep(|ranges|, startHour, startMinute, endHour, endMinute);
      SlotLabelOf(|ranges|, startHour, startMinute, endHour, endMinute);
      ExtendLabels(ranges, text);
      ranges := ranges + [text];
    }
    assert ranges == Schedule();
    FirstAndLastLabels();
  }

  /** One loop step: after the carry, (eh, em) is the clock 40 minutes after (sh, sm) and both name slot k's ends. */
  lemma CarryStep(k: nat, sh: nat, sm: nat, eh: nat, em: nat)
    requires sm < 60 && em < 60
    requires sh * 60 + sm == SlotStart(k) && eh * 60 + em == sh * 60 + sm + SlotLength
    ensures SlotBegin(k) == Clock(sh, sm) && SlotEnd(k) == Clock(eh, em)
  {
    ClockOfParts(sh, sm);
    ClockOfParts(eh, em);
  }

  lemma SlotLabelOf(k: nat, sh: nat, sm: nat, eh: nat, em: nat)
    requires SlotBegin(k) == Clock(sh, sm) && SlotEnd(k) == Clock(eh, em)
    ensures SlotLabel(k) == FormatTime(sh, sm) + " - " + FormatTime(eh, em)
  {
  }

  lemma ExtendLabels(ranges: seq<string>, text: string)
    requires forall i :: 0 <= i < |ranges| ==> ranges[i] == SlotLabel(i)
    requires text == SlotLabel(|ranges|)
    ensures forall i :: 0 <= i < |ranges| + 1 ==> (ranges + [text])[i] == SlotLabel(i)
  {
  }

  /** Reads one `FormatTime` label off the front of `s`, returning the clock and the remaining text. */
  function ParseTime(s: string): Option<(Clock, string)>
  {
    var k := LeadingDigits(s);
    if k == 0 then None else ParseAfterHour(ParseDecimal(s[..k]), s[k..])
  }

  /** The part of a label after the hour digits: ":mm AM" or ":mm PM". */
  function ParseAfterHour(hh: nat, t: string): Option<(Clock, string)>
  {
    if |t| < 6 || t[0] != ':' || !IsDigit(t[1]) || !IsDigit(t[2]) || t[3] != ' ' || t[5] != 'M' then None
    else if t[4] == 'A' then Some((Clock(hh, ParseDecimal(t[1..3])), t[6..]))
    else if t[4] == 'P' then Some((Clock(if hh == 12 then 12 else hh + 12, ParseDecimal(t[1..3])), t[6..]))
    else None
  }

  /** Reads a whole `RangeLabel`. */
  function ParseRange(s: string): Option<(Clock, Clock)>
  {
    match ParseTime(s)
    case None => None
    case Some((start, rest)) =>
      if |rest| < 3 || rest[..3] != " - " then None
      else
        match ParseTime(rest[3..])
        case Some((end, tail)) => if tail == "" then Some((start, end)) else None
        case None => None
  }

  /** formatTime loses nothing on a 24-hour clock: its label reads back as the same time. */
  lemma ParseFormatTime(c: Clock, rest: string)
    requires ValidClock(c)
    ensures ParseTime(FormatTime(c.hour, c.minute) + rest) == Some((c, rest))
  {
    var hh := if c.hour > 12 then c.hour - 12 else c.hour;
    var hs := NatToString(hh);
    var ms := PadStart2(NatToString(c.minute));
    var suffix := if c.hour >= 12 then "PM" else "AM";
    var t := ":" + ms + " " + suffix + rest;
    FormatTimeSplit(c, rest);
    ParseTimeSplit(hs, t);
    ParseNatToString(hh);
    TwoDigits(c.minute);
    AfterHour(hh, c, ms, suffix, rest);
  }

  lemma FormatTimeSplit(c: Clock, rest: string)
    ensures var hh := if c.hour > 12 then c.hour - 12 else c.hour;
      var suffix := if c.hour >= 12 then "PM" else "AM";
      FormatTime(c.hour, c.minute) + rest == NatToString(hh) + (":" + PadStart2(NatToString(c.minute)) + " " + suffix + rest)
  {
    var hh := if c.hour > 12 then c.hour - 12 else c.hour;
    var suffix := if c.hour >= 12 then "PM" else "AM";
    Regroup(NatToString(hh), ":", PadStart2(NatToString(c.minute)), " ", suffix, rest);
  }

  /** Concatenation regrouped after its first operand. */
  lemma Regroup(a: string, b: string, c: string, d: string, e: string, f: string)
    ensures a + b + c + d + e + f == a + (b + c + d + e + f)
  {
  }

  lemma ParseTimeSplit(hs: string, t: string)
    requires hs != [] && AllDigits(hs)
    requires t != [] && !IsDigit(t[0])
    ensures ParseTime(hs + t) == ParseAfterHour(ParseDecimal(hs), t)
  {
    LeadingDigitsOf(hs, t);
    assert (hs + t)[..|hs|] == hs && (hs + t)[|hs|..] == t;
  }

  lemma AfterHour(hh: nat, c: Clock, ms: string, suffix: string, rest: string)
    requires ValidClock(c)
    requires hh == if c.hour > 12 then c.hour - 12 else c.hour
    requires |ms| == 2 && AllDigits(ms) && ParseDecimal(ms) == c.minute
    requires suffix == if c.hour >= 12 then "PM" else "AM"
    ensures ParseAfterHour(hh, ":" + ms + " " + suffix + rest) == Some((c, rest))
  {
    var t := ":" + ms + " " + suffix + rest;
    assert t[1..3] == ms;
    assert t[4] == suffix[0] && t[5] == 'M';
    assert t[6..] == rest;
  }

  lemma ParseRangeLabel(a: Clock, b: Clock)
    requires ValidClock(a) && ValidClock(b)
    ensures ParseRange(RangeLabel(a, b)) == Some((a, b))
  {
    var fa := FormatTime(a.hour, a.minute);
    var fb := FormatTime(b.hour, b.minute);
    ParseFormatTime(a, " - " + fb);
    ParseFormatTime(b, "");
    ParseJoined(fa, fb, a, b);
  }

  lemma ParseJoined(fa: string, fb: string, a: Clock, b: Clock)
    requires ParseTime(fa + (" - " + fb)) == Some((a, " - " + fb))
    requires ParseTime(fb + "") == Some((b, ""))
    ensures ParseRange(fa + " - " + fb) == Some((a, b))
  {
    assert fb + "" == fb;
    assert fa + " - " + fb == fa + (" - " + fb);
    assert (" - " + fb)[..3] == " - ";
    assert (" - " + fb)[3..] == fb;
  }

  lemma SlotClocksValid(k: nat)
    requires k < SlotCount
    ensures ValidClock(SlotBegin(k)) && ValidClock(SlotEnd(k))
    ensures MinuteOfDay(SlotEnd(k)) == MinuteOfDay(SlotBegin(k)) + SlotLength
    ensures k + 1 < SlotCount ==> SlotEnd(k) == SlotBegin(k + 1)
  {
    MinuteOfClockAt(SlotStart(k));
    MinuteOfClockAt(SlotStart(k) + SlotLength);
  }

  /**
   * Every label reads back as a valid start and end, the end exactly 40 minutes after the
   * start, and each slot's end is the next slot's start.
   */
  lemma ScheduleShape(k: nat)
    requires k < SlotCount
    ensures ParseRange(Schedule()[k]) == Some((SlotBegin(k), SlotEnd(k)))
    ensures ValidClock(SlotBegin(k)) && ValidClock(SlotEnd(k))
    ensures MinuteOfDay(SlotEnd(k)) == MinuteOfDay(SlotBegin(k)) + SlotLength
    ensures k + 1 < SlotCount ==> SlotEnd(k) == SlotBegin(k + 1)
  {
    SlotClocksValid(k);
    assert Schedule()[k] == RangeLabel(SlotBegin(k), SlotEnd(k));
    ParseRangeLabel(SlotBegin(k), SlotEnd(k));
  }

  /** No two slots share a label, so the labels can serve as option values and keys. */
  lemma ScheduleDistinct(i: nat, j: nat)
    requires i < SlotCount && j < SlotCount && i != j
    ensures Schedule()[i] != Schedule()[j]
  {
    ScheduleShape(i);
    ScheduleShape(j);
    MinuteOfClockAt(SlotStart(i));
    MinuteOfClockAt(SlotStart(j));
  }

  lemma FirstAndLastLabels()
    ensures SlotCount == 10
    ensures Schedule()[0] == "7:30 AM - 8:10 AM"
    ensures Schedule()[9] == "1:30 PM - 2:10 PM"
  {
    assert SlotBegin(0) == Clock(7, 30) && SlotEnd(0) == Clock(8, 10);
    assert SlotBegin(9) == Clock(13, 30) && SlotEnd(9) == Clock(14, 10);
    MorningLabel();
    AfternoonLabel();
  }

  lemma MorningLabel()
    ensures RangeLabel(Clock(7, 30), Clock(8, 10)) == "7:30 AM - 8:10 AM"
  {
    assert FormatTime(7, 30) == "7:30 AM";
    assert FormatTime(8, 10) == "8:10 AM";
  }

  lemma AfternoonLabel()
    ensures RangeLabel(Clock(13, 30), Clock(14, 10)) == "1:30 PM - 2:10 PM"
  {
    assert FormatTime(13, 30) == "1:30 PM";
    assert FormatTime(14, 10) == "2:10 PM";
  }

  /**
   * The minute field of a formatted time is always exactly two digits for minutes below 100,
   * zero-padded below 10, and reads back as the minute.
   */
  lemma MinuteField(m: nat)
    requires m < 100
    ensures var ms := PadStart2(NatToString(m));
      |ms| == 2 && AllDigits(ms) && ParseDecimal(ms) == m && (ms[0] == '0' <==> m < 10)
  {
    TwoDigits(m);
    LeadingZeroPadding(m);
  }

  /** The suffix is PM exactly from noon on, and it is the last two characters. */
  lemma SuffixOf(h: nat, m: nat)
    ensures var s := FormatTime(h, m); |s| >= 2 && (s[|s| - 2..] == "PM" <==> h >= 12)
  {
    var s := FormatTime(h, m);
    assert s[|s| - 2..] == if h >= 12 then "PM" else "AM";
  }

  /** The hour text is the hour itself up to 12 and the hour less 12 above it. */
  lemma HourField(h: nat, m: nat)
    ensures var hs := NatToString(if h > 12 then h - 12 else h);
      FormatTime(h, m)[..|hs|] == hs && FormatTime(h, m)[|hs|] == ':'
  {
  }
}
