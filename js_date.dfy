/**
 * A JavaScript `Date` as the page uses it: a mutable object whose local-time
 * fields are overwritten in place by `setHours`, `setMinutes` and
 * `setSeconds`, and which turns into an Invalid Date once any of them is given NaN.
 */
module JsDate {
  import opened JsValues

  /** The observable value of a Date: its local-time fields, or Invalid Date (a NaN time value). */
  datatype DateValue =
    | Invalid
    | Valid(year: int, month: int, day: int, hours: int, minutes: int, seconds: int, millis: int)

  /** Arguments the model covers: NaN, or a value already in range (no carry into other fields). */
  predicate HourArg(h: Num) { h.NaN? || 0 <= h.value < 24 }
  predicate MinuteArg(m: Num) { m.NaN? || 0 <= m.value < 60 }
  predicate SecondArg(s: Num) { s.NaN? || 0 <= s.value < 60 }

  /** The value of a Date after `setHours(h)`. */
  function WithHours(d: DateValue, h: Num): (r: DateValue)
    requires HourArg(h)
    ensures r.Valid? <==> d.Valid? && h.Int?
    ensures r.Valid? ==> r.hours == h.value
  {
    if d.Invalid? || h.NaN? then Invalid else d.(hours := h.value)
  }

  /** The value of a Date after `setMinutes(m)`. */
  function WithMinutes(d: DateValue, m: Num): (r: DateValue)
    requires MinuteArg(m)
    ensures r.Valid? <==> d.Valid? && m.Int?
    ensures r.Valid? ==> r.minutes == m.value
  {
    if d.Invalid? || m.NaN? then Invalid else d.(minutes := m.value)
  }

  /** The value of a Date after `setSeconds(s)`. */
  function WithSeconds(d: DateValue, s: Num): (r: DateValue)
    requires SecondArg(s)
    ensures r.Valid? <==> d.Valid? && s.Int?
    ensures r.Valid? ==> r.seconds == s.value
  {
    if d.Invalid? || s.NaN? then Invalid else d.(seconds := s.value)
  }

  class Date {
    var valid: bool
    var year: int
    var month: int
    var day: int
    var hours: int
    var minutes: int
    var seconds: int
    var millis: int

    function Value(): DateValue
      reads this
    {
      if valid then Valid(year, month, day, hours, minutes, seconds, millis) else Invalid
    }

    constructor (d: DateValue)
      ensures Value() == d
    {
      if d.Valid? {
        valid := true;
        year, month, day := d.year, d.month, d.day;
        hours, minutes, seconds, millis := d.hours, d.minutes, d.seconds, d.millis;
      } else {
        valid := false;
      }
    }

    method SetHours(h: Num)
      requires HourArg(h)
      modifies this
      ensures Value() == WithHours(old(Value()), h)
    {
      if valid {
        if h.NaN? {
          valid := false;
        } else {
          hours := h.value;
        }
      }
    }

    method SetMinutes(m: Num)
      requires MinuteArg(m)
      modifies this
      ensures Value() == WithMinutes(old(Value()), m)
    {
      if valid {
        if m.NaN? {
          valid := false;
        } else {
          minutes := m.value;
        }
      }
    }

    method SetSeconds(s: Num)
      requires SecondArg(s)
      modifies this
      ensures Value() == WithSeconds(old(Value()), s)
    {
      if valid {
        if s.NaN? {
          valid := false;
        } else {
          seconds := s.value;
        }
      }
    }
  }
}
