/**
 UTC timestamps as the directory stores them: `datetime.isoformat()` of an aware UTC
 time, and `datetime.fromisoformat()` restricted to the two shapes that call writes
 (the library reads more shapes).
 */
module IsoTime {
  import opened Common

  datatype Stamp = Stamp(year: nat, month: nat, day: nat, hour: nat, minute: nat, second: nat, micro: nat)

  predicate Leap(year: nat) {
    year % 4 == 0 && (year % 100 != 0 || year % 400 == 0)
  }

  function DaysIn(year: nat, month: nat): nat {
    if month == 2 then (if Leap(year) then 29 else 28)
    else if month in {4, 6, 9, 11} then 30
    else 31
  }

  predicate Valid(t: Stamp) {
    && 1 <= t.year <= 9999 && 1 <= t.month <= 12 && 1 <= t.day <= DaysIn(t.year, t.month)
    && t.hour < 24 && t.minute < 60 && t.second < 60 && t.micro < 1_000_000
  }

  // ---------------------------------------------------------------- fixed-width decimals

  function Pow10(w: nat): (p: nat)
    ensures p >= 1
  {
    if w == 0 then 1 else 10 * Pow10(w - 1)
  }

  function DigitChar(d: nat): char
    requires d < 10
  {
    "0123456789"[d]
  }

  function DigitValue(c: char): Option<nat> {
    if '0' <= c <= '9' then Some(c as int - '0' as int) else None
  }

  function Digits(n: nat, width: nat): (s: string)
    ensures |s| == width
  {
    if width == 0 then "" else Digits(n / 10, width - 1) + [DigitChar(n % 10)]
  }

  function ParseDigits(s: string): Option<nat> {
    if s == "" then Some(0)
    else match (ParseDigits(s[..|s| - 1]), DigitValue(s[|s| - 1]))
      case (Some(hi), Some(lo)) => Some(10 * hi + lo)
      case _ => None
  }

  lemma {:induction false} DigitsRoundTrip(n: nat, width: nat)
    requires n < Pow10(width)
    ensures ParseDigits(Digits(n, width)) == Some(n)
  {
    if width > 0 {
      var s := Digits(n, width);
      assert s[..width - 1] == Digits(n / 10, width - 1);
      DigitsRoundTrip(n / 10, width - 1);
    }
  }

  // ---------------------------------------------------------------- the two formats

  function DateText(t: Stamp): (s: string)
    ensures |s| == 10
  {
    Digits(t.year, 4) + "-" + Digits(t.month, 2) + "-" + Digits(t.day, 2)
  }

  function ClockText(t: Stamp): (s: string)
    ensures |s| == 8
  {
    Digits(t.hour, 2) + ":" + Digits(t.minute, 2) + ":" + Digits(t.second, 2)
  }

  /** The fraction is dropped when it is zero. */
  function IsoFormat(t: Stamp): string {
    DateText(t) + "T" + ClockText(t) + (if t.micro == 0 then "" else "." + Digits(t.micro, 6)) + "+00:00"
  }

  function ParseDate(s: string): Option<(nat, nat, nat)>
    requires |s| == 10
  {
    if s[4] != '-' || s[7] != '-' then None
    else match (ParseDigits(s[..4]), ParseDigits(s[5..7]), ParseDigits(s[8..]))
      case (Some(y), Some(m), Some(d)) => Some((y, m, d))
      case _ => None
  }

  function ParseClock(s: string): Option<(nat, nat, nat)>
    requires |s| == 8
  {
    if s[2] != ':' || s[5] != ':' then None
    else match (ParseDigits(s[..2]), ParseDigits(s[3..5]), ParseDigits(s[6..]))
      case (Some(h), Some(m), Some(x)) => Some((h, m, x))
      case _ => None
  }

  /** None for every string that is not a written timestamp. */
  function FromIsoFormat(s: string): (r: Option<Stamp>)
    ensures r.Some? ==> Valid(r.value)
  {
    if |s| < 25 || s[10] != 'T' || s[|s| - 6..] != "+00:00" then None
    else
      var micro := if |s| == 25 then Some(0) else if |s| == 32 && s[19] == '.' then ParseDigits(s[20..26]) else None;
      match (ParseDate(s[..10]), ParseClock(s[11..19]), micro)
      case (Some(date), Some(clock), Some(us)) =>
        var t := Stamp(date.0, date.1, date.2, clock.0, clock.1, clock.2, us);
        if Valid(t) then Some(t) else None
      case _ => None
  }

  lemma DateRoundTrip(t: Stamp)
    requires Valid(t)
    ensures ParseDate(DateText(t)) == Some((t.year, t.month, t.day))
  {
    var s := DateText(t);
    assert s[..4] == Digits(t.year, 4) && s[5..7] == Digits(t.month, 2) && s[8..] == Digits(t.day, 2);
    assert Pow10(2) == 100 && Pow10(4) == 10_000;
    DigitsRoundTrip(t.year, 4);
    DigitsRoundTrip(t.month, 2);
    DigitsRoundTrip(t.day, 2);
  }

  lemma ClockRoundTrip(t: Stamp)
    requires Valid(t)
    ensures ParseClock(ClockText(t)) == Some((t.hour, t.minute, t.second))
  {
    var s := ClockText(t);
    assert s[..2] == Digits(t.hour, 2) && s[3..5] == Digits(t.minute, 2) && s[6..] == Digits(t.second, 2);
    assert Pow10(2) == 100;
    DigitsRoundTrip(t.hour, 2);
    DigitsRoundTrip(t.minute, 2);
    DigitsRoundTrip(t.second, 2);
  }

  /** Every timestamp written is read back unchanged, with and without a fraction. */
  lemma IsoRoundTrip(t: Stamp)
    requires Valid(t)
    ensures FromIsoFormat(IsoFormat(t)) == Some(t)
  {
    var s := IsoFormat(t);
    assert s[..10] == DateText(t) && s[11..19] == ClockText(t);
    DateRoundTrip(t);
    ClockRoundTrip(t);
    assert s[|s| - 6..] == "+00:00";
    if t.micro != 0 {
      assert s[20..26] == Digits(t.micro, 6);
      assert Pow10(6) == 10 * Pow10(5) == 100 * Pow10(4) == 1000 * Pow10(3) == 1_000_000;
      DigitsRoundTrip(t.micro, 6);
    }
  }
}
