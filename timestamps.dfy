/**
 * The naive `datetime` values that `BettingSignal` stamps itself with, and the
 * two conversions `to_dict` / `from_dict` apply to them: `isoformat()`, which
 * writes `YYYY-MM-DDTHH:MM:SS` followed by `.ffffff` only when the
 * microsecond is non-zero, and `datetime.fromisoformat`, which reads that text
 * back and refuses an impossible date or time.
 */
module Timestamps {
  import opened Wrappers

  datatype DateTime = DateTime(year: int, month: int, day: int, hour: int, minute: int, second: int, microsecond: int)

  predicate Leap(year: int) {
    year % 4 == 0 && (year % 100 != 0 || year % 400 == 0)
  }

  function DaysIn(year: int, month: int): (r: int)
    ensures 28 <= r <= 31
  {
    if month == 2 then (if Leap(year) then 29 else 28)
    else if month == 4 || month == 6 || month == 9 || month == 11 then 30
    else 31
  }

  /** The range checks of the `datetime` constructor. */
  predicate ValidDateTime(t: DateTime) {
    && 1 <= t.year <= 9999 && 1 <= t.month <= 12 && 1 <= t.day <= DaysIn(t.year, t.month)
    && 0 <= t.hour < 24 && 0 <= t.minute < 60 && 0 <= t.second < 60 && 0 <= t.microsecond < 1_000_000
  }

  function Pow10(w: nat): (r: nat)
    ensures r >= 1
  {
    if w == 0 then 1 else 10 * Pow10(w - 1)
  }

  predicate IsDigit(c: char) {
    '0' <= c <= '9'
  }

  function DigitChar(d: int): (c: char)
    requires 0 <= d < 10
    ensures IsDigit(c)
  {
    ('0' as int + d) as char
  }

  /** The `%0wd` rendering of `n`: exactly `w` decimal digits, most significant first. */
  function Digits(n: nat, w: nat): (r: string)
    ensures |r| == w
    ensures forall k :: 0 <= k < |r| ==> IsDigit(r[k])
  {
    if w == 0 then [] else Digits(n / 10, w - 1) + [DigitChar(n % 10)]
  }

  /** The value of a run of decimal digits. */
  function ParseNat(s: string): nat {
    if s == [] then 0 else 10 * ParseNat(s[..|s| - 1]) + (if IsDigit(s[|s| - 1]) then s[|s| - 1] as int - '0' as int else 0)
  }

  /** Reading `w` digits back gives the number written, whenever it fits in `w` digits. */
  lemma {:induction false} ParseDigits(n: nat, w: nat)
    requires n < Pow10(w)
    ensures ParseNat(Digits(n, w)) == n
  {
    if w > 0 {
      var s := Digits(n, w);
      assert s[..|s| - 1] == Digits(n / 10, w - 1);
      ParseDigits(n / 10, w - 1);
    }
  }

  predicate AllDigits(s: string) {
    forall k :: 0 <= k < |s| ==> IsDigit(s[k])
  }

  /** Reads a `w`-digit field at the front of `s`: its value and the text after it. */
  function Number(s: string, w: nat): (r: Option<(int, string)>)
    ensures r.Some? ==> 0 <= r.value.0 && |s| >= w && r.value.1 == s[w..]
  {
    if |s| >= w && AllDigits(s[..w]) then Some((ParseNat(s[..w]), s[w..])) else None
  }

  /** Reads the separator `c` at the front of `s`: the text after it. */
  function Separator(s: string, c: char): (r: Option<string>)
    ensures r.Some? ==> |s| >= 1 && s[0] == c && r.value == s[1..]
  {
    if |s| >= 1 && s[0] == c then Some(s[1..]) else None
  }

  /** `.ffffff`, written only for a non-zero microsecond. */
  function MicroPart(t: DateTime): (r: string)
    requires ValidDateTime(t)
    ensures |r| == if t.microsecond == 0 then 0 else 7
  {
    if t.microsecond == 0 then "" else "." + Digits(t.microsecond, 6)
  }

  /** `datetime.isoformat()` of a naive value: `YYYY-MM-DDTHH:MM:SS`, then `MicroPart`. */
  function IsoFormat(t: DateTime): (r: string)
    requires ValidDateTime(t)
    ensures |r| == if t.microsecond == 0 then 19 else 26
  {
    Digits(t.year, 4) + ("-" + (Digits(t.month, 2) + ("-" + (Digits(t.day, 2) + ("T"
    + (Digits(t.hour, 2) + (":" + (Digits(t.minute, 2) + (":" + (Digits(t.second, 2) + MicroPart(t)))))))))))
  }

  /** What may follow the seconds: nothing (microsecond 0) or `.` and six digits. */
  function Micro(s: string): Option<int> {
    if s == [] then Some(0)
    else match Separator(s, '.')
      case None => None
      case Some(r) =>
        match Number(r, 6)
        case Some((us, rest)) => if rest == [] then Some(us) else None
        case None => None
  }

  /**
   * `datetime.fromisoformat` on the two shapes `isoformat` writes: None (the
   * `ValueError`) for a misplaced or missing separator, a non-digit in a
   * field, text left over, or a value out of range.
   */
  function FromIsoFormat(s: string): (r: Option<DateTime>)
    ensures r.Some? ==> ValidDateTime(r.value)
  {
    match Number(s, 4)
    case None => None
    case Some((y, s1)) =>
    match Separator(s1, '-')
    case None => None
    case Some(s2) =>
    match Number(s2, 2)
    case None => None
    case Some((mo, s3)) =>
    match Separator(s3, '-')
    case None => None
    case Some(s4) =>
    match Number(s4, 2)
    case None => None
    case Some((d, s5)) =>
    match Separator(s5, 'T')
    case None => None
    case Some(s6) =>
    match Number(s6, 2)
    case None => None
    case Some((h, s7)) =>
    match Separator(s7, ':')
    case None => None
    case Some(s8) =>
    match Number(s8, 2)
    case None => None
    case Some((mi, s9)) =>
    match Separator(s9, ':')
    case None => None
    case Some(s10) =>
    match Number(s10, 2)
    case None => None
    case Some((sec, s11)) =>
    match Micro(s11)
    case None => None
    case Some(us) =>
      var t := DateTime(y, mo, d, h, mi, sec, us);
      if ValidDateTime(t) then Some(t) else None
  }

  /** A field written by `Digits` is read back by `Number`, leaving what followed it. */
  lemma NumberOfDigits(n: nat, w: nat, rest: string)
    requires n < Pow10(w)
    ensures Number(Digits(n, w) + rest, w) == Some((n, rest))
  {
    var s := Digits(n, w) + rest;
    assert s[..w] == Digits(n, w);
    ParseDigits(n, w);
  }

  lemma SeparatorOf(c: char, rest: string)
    ensures Separator([c] + rest, c) == Some(rest)
  {
    assert ([c] + rest)[1..] == rest;
  }

  lemma MicroOf(t: DateTime)
    requires ValidDateTime(t)
    ensures Micro(MicroPart(t)) == Some(t.microsecond)
  {
    if t.microsecond != 0 {
      assert Pow10(6) == 1_000_000;
      NumberOfDigits(t.microsecond, 6, "");
      assert Digits(t.microsecond, 6) + "" == Digits(t.microsecond, 6);
      SeparatorOf('.', Digits(t.microsecond, 6));
    }
  }

  /** `fromisoformat(t.isoformat()) == t` for every valid naive datetime. */
  lemma IsoRoundTrip(t: DateTime)
    requires ValidDateTime(t)
    ensures FromIsoFormat(IsoFormat(t)) == Some(t)
  {
    assert Pow10(2) == 100 && Pow10(4) == 10_000;
    var s11 := MicroPart(t);
    MicroOf(t);
    var s10 := Digits(t.second, 2) + s11;
    NumberOfDigits(t.second, 2, s11);
    var s9 := ":" + s10;
    SeparatorOf(':', s10);
    var s8 := Digits(t.minute, 2) + s9;
    NumberOfDigits(t.minute, 2, s9);
    var s7 := ":" + s8;
    SeparatorOf(':', s8);
    var s6 := Digits(t.hour, 2) + s7;
    NumberOfDigits(t.hour, 2, s7);
    var s5 := "T" + s6;
    SeparatorOf('T', s6);
    var s4 := Digits(t.day, 2) + s5;
    NumberOfDigits(t.day, 2, s5);
    var s3 := "-" + s4;
    SeparatorOf('-', s4);
    var s2 := Digits(t.month, 2) + s3;
    NumberOfDigits(t.month, 2, s3);
    var s1 := "-" + s2;
    SeparatorOf('-', s2);
    NumberOfDigits(t.year, 4, s1);
    assert IsoFormat(t) == Digits(t.year, 4) + s1;
  }
}
