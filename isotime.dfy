/**
 * Calendar dates and naive date-times as Python's `date` and `datetime`, with the ISO 8601
 * spellings `isoformat` produces and the inverse `fromisoformat` parsing of those spellings.
 */
module IsoTime {
  import opened Wrappers

  predicate IsDigit(c: char) { '0' <= c <= '9' }

  predicate AllDigits(s: string) { forall i :: 0 <= i < |s| ==> IsDigit(s[i]) }

  function DigitChar(n: nat): (c: char)
    requires n < 10
    ensures IsDigit(c)
  {
    ('0' as int + n) as char
  }

  function DigitValue(c: char): (n: nat)
    requires IsDigit(c)
    ensures n < 10
  {
    c as int - '0' as int
  }

  function Pow10(w: nat): (p: nat)
    ensures p >= 1
  {
    if w == 0 then 1 else 10 * Pow10(w - 1)
  }

  /** `"%0*d" % (w, n)`: n in exactly w decimal digits, zero-padded on the left. */
  function Pad(n: nat, w: nat): (s: string)
    requires n < Pow10(w)
    ensures |s| == w && AllDigits(s)
  {
    if w == 0 then "" else Pad(n / 10, w - 1) + [DigitChar(n % 10)]
  }

  /** `int(s)` for a string of decimal digits. */
  function DigitsValue(s: string): nat
    requires AllDigits(s)
  {
    if s == [] then 0 else DigitsValue(s[..|s| - 1]) * 10 + DigitValue(s[|s| - 1])
  }

  /** Reading back a zero-padded number gives the number. */
  lemma {:induction false} DigitsValuePad(n: nat, w: nat)
    requires n < Pow10(w)
    ensures DigitsValue(Pad(n, w)) == n
  {
    if w > 0 {
      var s := Pad(n, w);
      assert s[..|s| - 1] == Pad(n / 10, w - 1);
      DigitsValuePad(n / 10, w - 1);
    }
  }

  /** A w-digit string is the padding of its own value: no other spelling reads the same. */
  lemma {:induction false} PadDigitsValue(s: string)
    requires AllDigits(s)
    ensures DigitsValue(s) < Pow10(|s|) && Pad(DigitsValue(s), |s|) == s
  {
    if s != [] {
      var init := s[..|s| - 1];
      PadDigitsValue(init);
      var n := DigitsValue(s);
      assert n / 10 == DigitsValue(init) && n % 10 == DigitValue(s[|s| - 1]);
      assert DigitChar(n % 10) == s[|s| - 1];
      assert s == init + [s[|s| - 1]];
    }
  }

  predicate IsLeap(y: int) { y % 4 == 0 && (y % 100 != 0 || y % 400 == 0) }

  function DaysInMonth(y: int, m: int): int
  {
    if m == 2 then (if IsLeap(y) then 29 else 28)
    else if m == 4 || m == 6 || m == 9 || m == 11 then 30
    else 31
  }

  datatype DateFields = DateFields(year: int, month: int, day: int)

  predicate ValidDate(d: DateFields)
  {
    1 <= d.year <= 9999 && 1 <= d.month <= 12 && 1 <= d.day <= DaysInMonth(d.year, d.month)
  }

  /** A Python `date`: the constructor refuses anything outside these ranges. */
  type Date = d: DateFields | ValidDate(d) witness DateFields(1, 1, 1)

  datatype DateTimeFields = DateTimeFields(
    date: Date, hour: int, minute: int, second: int, microsecond: int)

  predicate ValidTime(t: DateTimeFields)
  {
    0 <= t.hour < 24 && 0 <= t.minute < 60 && 0 <= t.second < 60 && 0 <= t.microsecond < 1000000
  }

  /** A naive Python `datetime` (no time zone). */
  type DateTime = t: DateTimeFields | ValidTime(t) witness DateTimeFields(DateFields(1, 1, 1), 0, 0, 0, 0)

  /** A strict order on dates: the chronological one. */
  function DateKey(d: Date): (k: int)
    ensures k == d.year * 10000 + d.month * 100 + d.day
  {
    d.year * 10000 + d.month * 100 + d.day
  }

  lemma DateKeyInjective(a: Date, b: Date)
    requires DateKey(a) == DateKey(b)
    ensures a == b
  {
  }

  /** `d.isoformat()`: "YYYY-MM-DD". */
  function FormatDate(d: Date): (s: string)
    ensures |s| == 10
  {
    Pad(d.year, 4) + "-" + Pad(d.month, 2) + "-" + Pad(d.day, 2)
  }

  predicate IsDateSpelling(s: string)
  {
    |s| == 10 && s[4] == '-' && s[7] == '-'
    && AllDigits(s[..4]) && AllDigits(s[5..7]) && AllDigits(s[8..])
  }

  /** `date.fromisoformat(s)`, for the "YYYY-MM-DD" spelling. */
  function ParseDate(s: string): Result<Date>
  {
    if !IsDateSpelling(s) then Failure(ValueError("Invalid isoformat string"))
    else
      var f := DateFields(DigitsValue(s[..4]), DigitsValue(s[5..7]), DigitsValue(s[8..]));
      if ValidDate(f) then Success(f) else Failure(ValueError("date out of range"))
  }

  lemma {:induction false} ParseFormatDate(d: Date)
    ensures ParseDate(FormatDate(d)) == Success(d)
  {
    var s := FormatDate(d);
    assert s[..4] == Pad(d.year, 4);
    assert s[5..7] == Pad(d.month, 2);
    assert s[8..] == Pad(d.day, 2);
    DigitsValuePad(d.year, 4);
    DigitsValuePad(d.month, 2);
    DigitsValuePad(d.day, 2);
  }

  /** Only the canonical spelling parses, so two different strings never name the same date. */
  lemma {:induction false} FormatParsedDate(s: string)
    requires ParseDate(s).Success?
    ensures FormatDate(ParseDate(s).value) == s
  {
    var d := ParseDate(s).value;
    PadDigitsValue(s[..4]);
    PadDigitsValue(s[5..7]);
    PadDigitsValue(s[8..]);
    assert s == s[..4] + "-" + s[5..7] + "-" + s[8..];
  }

  lemma ParseDateInjective(s: string, t: string)
    requires ParseDate(s).Success? && ParseDate(t).Success?
    requires ParseDate(s).value == ParseDate(t).value
    ensures s == t
  {
    FormatParsedDate(s);
    FormatParsedDate(t);
  }

  function TimePart(t: DateTime): (s: string)
    ensures |s| == 8 || |s| == 15
  {
    Pad(t.hour, 2) + ":" + Pad(t.minute, 2) + ":" + Pad(t.second, 2)
    + (if t.microsecond != 0 then "." + Pad(t.microsecond, 6) else "")
  }

  /** `t.isoformat()`: "YYYY-MM-DDTHH:MM:SS", followed by ".ffffff" when there are microseconds. */
  function FormatDateTime(t: DateTime): string
  {
    FormatDate(t.date) + "T" + TimePart(t)
  }

  predicate IsTimeSpelling(s: string)
  {
    (|s| == 8 || (|s| == 15 && s[8] == '.' && AllDigits(s[9..])))
    && s[2] == ':' && s[5] == ':' && AllDigits(s[..2]) && AllDigits(s[3..5]) && AllDigits(s[6..8])
  }

  /**
   * `datetime.fromisoformat(s)` for the spellings `isoformat` writes: a date, optionally
   * followed by any one separator character and "HH:MM:SS" or "HH:MM:SS.ffffff".
   */
  function ParseDateTime(s: string): Result<DateTime>
  {
    if |s| < 10 then Failure(ValueError("Invalid isoformat string"))
    else match ParseDate(s[..10])
      case Failure(e) => Failure(e)
      case Success(d) =>
        if |s| == 10 then Success(DateTimeFields(d, 0, 0, 0, 0))
        else
          var ts := s[11..];
          if !IsTimeSpelling(ts) then Failure(ValueError("Invalid isoformat string"))
          else
            var us := if |ts| == 15 then DigitsValue(ts[9..]) else 0;
            var f := DateTimeFields(d, DigitsValue(ts[..2]), DigitsValue(ts[3..5]), DigitsValue(ts[6..8]), us);
            if ValidTime(f) then Success(f) else Failure(ValueError("time out of range"))
  }

  /** Where the three two-digit fields of "HH:MM:SS..." sit. */
  lemma ClockSlices(h: string, m: string, sec: string, tail: string)
    requires |h| == 2 && |m| == 2 && |sec| == 2
    ensures (h + ":" + m + ":" + sec + tail)[..2] == h
    ensures (h + ":" + m + ":" + sec + tail)[3..5] == m
    ensures (h + ":" + m + ":" + sec + tail)[6..8] == sec
    ensures (h + ":" + m + ":" + sec + tail)[8..] == tail
    ensures (h + ":" + m + ":" + sec + tail)[2] == ':' && (h + ":" + m + ":" + sec + tail)[5] == ':'
  {
    var s := h + ":" + m + ":" + sec + tail;
    assert s == h + (":" + m + ":" + sec + tail);
    assert s[3..] == m + ":" + sec + tail;
    assert s[6..] == sec + tail;
  }

  /** The time part `isoformat` writes reads back as the same clock fields. */
  lemma TimePartDigits(t: DateTime)
    ensures IsTimeSpelling(TimePart(t))
    ensures DigitsValue(TimePart(t)[..2]) == t.hour
    ensures DigitsValue(TimePart(t)[3..5]) == t.minute
    ensures DigitsValue(TimePart(t)[6..8]) == t.second
    ensures (if |TimePart(t)| == 15 then DigitsValue(TimePart(t)[9..]) else 0) == t.microsecond
  {
    var h, m, sec := Pad(t.hour, 2), Pad(t.minute, 2), Pad(t.second, 2);
    var tail := if t.microsecond != 0 then "." + Pad(t.microsecond, 6) else "";
    ClockSlices(h, m, sec, tail);
    assert TimePart(t) == h + ":" + m + ":" + sec + tail;
    DigitsValuePad(t.hour, 2);
    DigitsValuePad(t.minute, 2);
    DigitsValuePad(t.second, 2);
    if t.microsecond != 0 {
      assert tail[1..] == Pad(t.microsecond, 6);
      DigitsValuePad(t.microsecond, 6);
    }
  }

  lemma {:induction false} ParseFormatDateTime(t: DateTime)
    ensures ParseDateTime(FormatDateTime(t)) == Success(t)
  {
    var s := FormatDateTime(t);
    assert s[..10] == FormatDate(t.date);
    assert s[11..] == TimePart(t);
    ParseFormatDate(t.date);
    TimePartDigits(t);
  }
}
