/**
 * The time-of-day merge of the mint start and end handlers: the "HH:MM" text
 * of a time input is split on ':', both pieces go through `Number`, and the
 * selected date receives the hours and minutes, with seconds set to zero.
 */
module TimeOfDay {
  import opened JsValues
  import opened JsDate

  /** The text of a time input as the browser reports it: empty, or "HH:MM" in range. */
  predicate IsTimeInputValue(s: string) {
    s == [] ||
    (|s| == 5 && s[2] == ':' && AllDecimalDigits(s[..2]) && AllDecimalDigits(s[3..]) &&
     TwoDigitNumber(s[..2]) < 24 && TwoDigitNumber(s[3..]) < 60)
  }

  /** The number two decimal digits spell, as the hour or the minute field shows it. */
  function TwoDigitNumber(dd: string): nat
    requires |dd| == 2 && AllDecimalDigits(dd)
  {
    TwoDigitsValue(dd);
    DigitsValue(dd, 10)
  }

  /** The text a time input shows for an hour and a minute. */
  function FormatTime(h: nat, m: nat): (s: string)
    requires h < 24 && m < 60
    ensures IsTimeInputValue(s) && |s| == 5
    ensures TwoDigitNumber(s[..2]) == h && TwoDigitNumber(s[3..]) == m
  {
    Pad2Value(h);
    Pad2Value(m);
    var s := Pad2(h) + [':'] + Pad2(m);
    assert s[..2] == Pad2(h) && s[3..] == Pad2(m);
    s
  }

  /**
   * `const [hours, minutes] = timeValue.split(":").map(Number)`: a missing
   * second piece leaves `minutes` undefined, which the Date setters read as NaN.
   */
  function TimeParts(timeValue: string): (parts: (Num, Num))
    ensures ':' !in timeValue ==> parts == (NumberOf(timeValue), NaN)
  {
    assert ':' !in timeValue ==> Split(timeValue, ':') == [timeValue] by {
      if ':' !in timeValue { SplitPiece(timeValue, ':'); }
    }
    var parts := Split(timeValue, ':');
    (NumberOf(parts[0]), if |parts| >= 2 then NumberOf(parts[1]) else NaN)
  }

  /** Every value a time input can report splits into setter arguments in range. */
  lemma TimeInputParts(s: string)
    requires IsTimeInputValue(s)
    ensures s == [] ==> TimeParts(s) == (Int(0), NaN)
    ensures s != [] ==> TimeParts(s) == (Int(TwoDigitNumber(s[..2])), Int(TwoDigitNumber(s[3..])))
    ensures HourArg(TimeParts(s).0) && MinuteArg(TimeParts(s).1)
  {
    if s != [] {
      var hh, mm := s[..2], s[3..];
      assert s == Join([hh, mm], ':');
      assert ':' !in hh by { assert forall i :: 0 <= i < 2 ==> IsDecimalDigit(hh[i]); }
      assert ':' !in mm by { assert forall i :: 0 <= i < 2 ==> IsDecimalDigit(mm[i]); }
      SplitJoin([hh, mm], ':');
    }
  }

  /** Reading back the text of a time input gives the hour and minute it shows. */
  lemma FormatTimeParts(h: nat, m: nat)
    requires h < 24 && m < 60
    ensures TimeParts(FormatTime(h, m)) == (Int(h), Int(m))
  {
    TimeInputParts(FormatTime(h, m));
  }

  /** The text of every non-empty time input is FormatTime of its own fields. */
  lemma TimeInputFormatted(s: string)
    requires IsTimeInputValue(s) && s != []
    ensures s == FormatTime(TwoDigitNumber(s[..2]), TwoDigitNumber(s[3..]))
  {
    Pad2OfDigits(s[..2]);
    Pad2OfDigits(s[3..]);
    assert s == s[..2] + [':'] + s[3..];
  }

  /**
   * The value the selected Date has after the time handler ran on it. Only a
   * valid date and a complete time give a valid result, and that result
   * keeps the calendar day and the milliseconds and has its seconds zeroed.
   */
  function MergeTime(d: DateValue, timeValue: string): (r: DateValue)
    requires IsTimeInputValue(timeValue)
    ensures r.Valid? <==> d.Valid? && timeValue != []
    ensures r.Valid? ==>
      r.year == d.year && r.month == d.month && r.day == d.day && r.seconds == 0 && r.millis == d.millis
  {
    TimeInputParts(timeValue);
    var (h, m) := TimeParts(timeValue);
    WithSeconds(WithMinutes(WithHours(d, h), m), Int(0))
  }

  /**
   * On a valid date and a complete "HH:MM", the merge keeps year, month, day
   * and milliseconds, takes hours and minutes from the text and zeroes seconds.
   */
  lemma MergeTimeFields(d: DateValue, h: nat, m: nat)
    requires d.Valid? && h < 24 && m < 60
    ensures MergeTime(d, FormatTime(h, m)).Valid?
    ensures MergeTime(d, FormatTime(h, m))
         == Valid(d.year, d.month, d.day, h, m, 0, d.millis)
  {
    FormatTimeParts(h, m);
  }

  /** Clearing the time input (the empty text) turns the date into an Invalid Date. */
  lemma MergeClearedTime(d: DateValue)
    ensures MergeTime(d, []) == Invalid
  {
    TimeInputParts([]);
  }

  /** An Invalid Date stays invalid whatever time is entered. */
  lemma MergeInvalid(s: string)
    requires IsTimeInputValue(s)
    ensures MergeTime(Invalid, s) == Invalid
  {
  }

  /** After a complete time, the next merge leaves no trace of the earlier one. */
  lemma MergeTimeLastWins(d: DateValue, s1: string, s2: string)
    requires IsTimeInputValue(s1) && IsTimeInputValue(s2) && s1 != []
    ensures MergeTime(MergeTime(d, s1), s2) == MergeTime(d, s2)
  {
    TimeInputParts(s1);
    TimeInputParts(s2);
  }

  /** Entering the same time twice changes nothing the second time. */
  lemma MergeTimeIdempotent(d: DateValue, s: string)
    requires IsTimeInputValue(s)
    ensures MergeTime(MergeTime(d, s), s) == MergeTime(d, s)
  {
    TimeInputParts(s);
  }
}
