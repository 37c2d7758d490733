/**
 * Rendering of property values for the property grid (format_value in gui/src/app.rs), together
 * with the decimal rendering of naturals that Rust's `to_string` and `{}` formatting perform.
 */
module Format {
  import opened Basics
  import D = Device
  import opened Messages

  predicate IsDigit(c: char) {
    '0' <= c <= '9'
  }

  predicate AllDigits(s: string) {
    forall i :: 0 <= i < |s| ==> IsDigit(s[i])
  }

  /** The text Rust prints for a natural: digits only, and no leading zero except in "0". */
  predicate Canonical(s: string) {
    |s| > 0 && AllDigits(s) && (|s| > 1 ==> s[0] != '0')
  }

  function DigitChar(d: nat): (c: char)
    requires d < 10
    ensures IsDigit(c) && (c as int) - ('0' as int) == d
  {
    ('0' as int + d) as char
  }

  /** The decimal text of n, as `n.to_string()` produces it. */
  function Decimal(n: nat): (s: string)
    ensures Canonical(s)
  {
    if n < 10 then [DigitChar(n)] else Decimal(n / 10) + [DigitChar(n % 10)]
  }

  /** The number a string of digits denotes. */
  function DecimalValue(s: string): nat
    requires AllDigits(s)
  {
    if s == [] then 0
    else DecimalValue(s[..|s| - 1]) * 10 + ((s[|s| - 1] as int) - ('0' as int))
  }

  /** Reading back the text of n gives n. */
  lemma {:induction false} DecimalRoundTrip(n: nat)
    ensures DecimalValue(Decimal(n)) == n
  {
    var s := Decimal(n);
    if n >= 10 {
      DecimalRoundTrip(n / 10);
      assert s[..|s| - 1] == Decimal(n / 10);
    }
  }

  lemma {:induction false} LeadingDigitBound(s: string)
    requires |s| > 0 && AllDigits(s)
    ensures DecimalValue(s) >= (s[0] as int) - ('0' as int)
  {
    if |s| > 1 {
      LeadingDigitBound(s[..|s| - 1]);
    }
  }

  /** Every canonical digit string is the text of the number it denotes: Decimal is onto them. */
  lemma {:induction false} CanonicalRoundTrip(s: string)
    requires Canonical(s)
    ensures Decimal(DecimalValue(s)) == s
  {
    var p := s[..|s| - 1];
    var d := (s[|s| - 1] as int) - ('0' as int);
    if p != [] {
      assert Canonical(p);
      LeadingDigitBound(p);
      CanonicalRoundTrip(p);
      var n := DecimalValue(s);
      assert n == DecimalValue(p) * 10 + d;
      assert n / 10 == DecimalValue(p) && n % 10 == d;
      assert s == p + [s[|s| - 1]];
    }
  }

  /** The hours and the minutes within the hour of a span of seconds. */
  function SplitDuration(secs: nat): (r: (nat, nat))
    ensures r.1 < 60
    ensures r.0 * 3600 + r.1 * 60 <= secs < r.0 * 3600 + r.1 * 60 + 60
  {
    (secs / 3600, (secs % 3600) / 60)
  }

  /** Two splits that both meet SplitDuration's contract agree: the contract determines the result. */
  lemma SplitDurationUnique(secs: nat, h: nat, m: nat)
    requires m < 60 && h * 3600 + m * 60 <= secs < h * 3600 + m * 60 + 60
    ensures (h, m) == SplitDuration(secs)
  {
  }

  /** The text of a value without its unit. */
  function ValueText(v: PropertyValue): (s: string)
    ensures |s| > 0
  {
    match v
    case Bool(b) => if b then "Yes" else "No"
    case Number(n) => Decimal(n)
    case Sensor(current, target) => Decimal(current) + " / " + Decimal(target)
    case String(s) => if s == "" then "-" else s
    case Duration(d) =>
      var (hours, mins) := SplitDuration(d.secs);
      Decimal(hours) + "h " + Decimal(mins) + "m"
  }

  /** format_value: the value's text, followed by a space and the unit when there is one. */
  function FormatValue(v: PropertyValue, unit: Option<string>): (s: string)
    ensures |s| > 0
  {
    match unit
    case None => ValueText(v)
    case Some(u) => ValueText(v) + " " + u
  }

  /** The length of the run of digits at the start of s. */
  function DigitRun(s: string): (k: nat)
    ensures k <= |s|
  {
    if s == [] || !IsDigit(s[0]) then 0 else 1 + DigitRun(s[1..])
  }

  /** The digits of a canonical number are followed by whatever comes next, if it is not a digit. */
  lemma {:induction false} DigitRunOfDigits(a: string, rest: string)
    requires AllDigits(a) && (rest != [] ==> !IsDigit(rest[0]))
    ensures DigitRun(a + rest) == |a|
  {
    if a == [] {
      assert a + rest == rest;
    } else {
      DigitRunOfDigits(a[1..], rest);
      assert (a + rest)[0] == a[0] && (a + rest)[1..] == a[1..] + rest;
    }
  }

  /** Reads a number followed by `sep`: the number and what follows, or nothing if the text does not start so. */
  function ReadNumberThen(s: string, sep: string): Option<(nat, string)> {
    var k := DigitRun(s);
    if 0 < k && k + |sep| <= |s| && s[k..k + |sep|] == sep then
      assert AllDigits(s[..k]) by { DigitRunDigits(s); }
      Some((DecimalValue(s[..k]), s[k + |sep|..]))
    else None
  }

  lemma {:induction false} DigitRunDigits(s: string)
    ensures AllDigits(s[..DigitRun(s)])
  {
    if s != [] && IsDigit(s[0]) {
      DigitRunDigits(s[1..]);
      assert s[..DigitRun(s)] == [s[0]] + s[1..][..DigitRun(s[1..])];
    }
  }

  /** The rendering of n followed by a separator that does not start with a digit reads back as n. */
  lemma ReadNumberThenDecimal(n: nat, sep: string, tail: string)
    requires |sep| > 0 && !IsDigit(sep[0])
    ensures ReadNumberThen(Decimal(n) + sep + tail, sep) == Some((n, tail))
  {
    var d := Decimal(n);
    var s := d + sep + tail;
    DigitRunOfDigits(d, sep + tail);
    assert s == d + (sep + tail);
    assert s[..|d|] == d && s[|d|..|d| + |sep|] == sep && s[|d| + |sep|..] == tail;
    DecimalRoundTrip(n);
  }

  /** Reads a Sensor cell "c / t" back into its two numbers. */
  function ReadSensor(s: string): Option<(nat, nat)> {
    match ReadNumberThen(s, " / ")
    case Some((c, rest)) => if |rest| > 0 && AllDigits(rest) then Some((c, DecimalValue(rest))) else None
    case None => None
  }

  /** Reads a Duration cell "Hh Mm" back into its hours and minutes. */
  function ReadDuration(s: string): Option<(nat, nat)> {
    match ReadNumberThen(s, "h ")
    case None => None
    case Some((h, rest)) =>
      match ReadNumberThen(rest, "m")
      case Some((m, tail)) => if tail == [] then Some((h, m)) else None
      case None => None
  }

  /**
   * What a reader of the grid recovers from a cell: a Number or a Sensor reads back to its numbers,
   * a Duration to its whole hours and the whole minutes within the hour (SplitDuration's contract,
   * which SplitDurationUnique shows determines them), an empty string shows as "-", a boolean as
   * Yes or No, and a unit is appended after one space.
   */
  lemma FormatValueReadsBack(v: PropertyValue, unit: Option<string>)
    ensures unit.Some? ==> FormatValue(v, unit) == FormatValue(v, None) + " " + unit.value
    ensures v.Bool? ==> FormatValue(v, None) == (if v.b then "Yes" else "No")
    ensures v.Number? ==> DecimalValue(FormatValue(v, None)) == v.n
    ensures v.Sensor? ==> ReadSensor(FormatValue(v, None)) == Some((v.current, v.target))
    ensures v.String? ==> FormatValue(v, None) == (if v.s == "" then "-" else v.s)
    ensures v.Duration? ==> ReadDuration(FormatValue(v, None)) == Some(SplitDuration(v.d.secs))
  {
    match v
    case Number(n) => DecimalRoundTrip(n);
    case Sensor(c, t) =>
      ReadNumberThenDecimal(c, " / ", Decimal(t));
      DecimalRoundTrip(t);
    case Duration(d) =>
      var (h, m) := SplitDuration(d.secs);
      ReadNumberThenDecimal(h, "h ", Decimal(m) + "m");
      assert Decimal(h) + "h " + Decimal(m) + "m" == Decimal(h) + "h " + (Decimal(m) + "m");
      ReadNumberThenDecimal(m, "m", []);
      assert Decimal(m) + "m" + [] == Decimal(m) + "m";
    case _ =>
  }
}
