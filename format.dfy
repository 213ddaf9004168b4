/**
 * `formatDuration` (app/page.tsx:329-334): whole seconds as an
 * hours:minutes:seconds string, each field padded on the left with '0' to at
 * least two characters. Written for any integer, with JavaScript's operators:
 * `Math.floor` for the divisions and the truncating `%`.
 */
module Format {

  /** The character of one decimal digit. */
  function DigitChar(d: nat): char
    requires d < 10
  {
    ('0' as int + d) as char
  }

  /** Decimal digits of a natural number, most significant first, no leading zeros. */
  function NatToString(n: nat): string
  {
    if n < 10 then [DigitChar(n)] else NatToString(n / 10) + [DigitChar(n % 10)]
  }

  /** `Number.prototype.toString()` on an integer. */
  function IntToString(n: int): string
  {
    if n < 0 then "-" + NatToString(-n) else NatToString(n)
  }

  /** `padStart(2, "0")`. */
  function PadStart2(s: string): (r: string)
    ensures |r| >= 2 && |r| >= |s| && r[|r| - |s|..] == s
    ensures forall i :: 0 <= i < |r| - |s| ==> r[i] == '0'
  {
    if |s| >= 2 then s else seq(2 - |s|, _ => '0') + s
  }

  /** JavaScript's `%` on integers: the remainder takes the sign of the dividend. */
  function JsRem(a: int, b: int): int
    requires b > 0
  {
    if a >= 0 then a % b else -((-a) % b)
  }

  function FormatDuration(seconds: int): (r: string)
    ensures |r| >= 8
  {
    var hours := seconds / 3600;
    var minutes := JsRem(seconds, 3600) / 60;
    var secs := JsRem(seconds, 60);
    PadStart2(IntToString(hours)) + ":" + PadStart2(IntToString(minutes)) + ":" + PadStart2(IntToString(secs))
  }

  predicate IsDigit(c: char)
  {
    '0' <= c <= '9'
  }

  predicate AllDigits(s: string)
  {
    forall i :: 0 <= i < |s| ==> IsDigit(s[i])
  }

  /** The number a string of decimal digits denotes (leading zeros allowed). */
  function ValueOf(s: string): nat
    requires AllDigits(s)
  {
    if s == [] then 0 else ValueOf(s[..|s| - 1]) * 10 + (s[|s| - 1] as int - '0' as int)
  }

  /** Reading back the decimal string of `n` gives `n`; it has one digit below 10 and two below 100. */
  lemma {:induction false} NatToStringRoundTrip(n: nat)
    ensures AllDigits(NatToString(n)) && ValueOf(NatToString(n)) == n
    ensures 1 <= |NatToString(n)|
    ensures n < 10 ==> |NatToString(n)| == 1
    ensures 10 <= n < 100 ==> |NatToString(n)| == 2
  {
    if n >= 10 {
      NatToStringRoundTrip(n / 10);
      var s := NatToString(n);
      assert s[..|s| - 1] == NatToString(n / 10);
    }
  }

  /** A leading '0' does not change the value. */
  lemma {:induction false} LeadingZero(s: string)
    requires AllDigits(s)
    ensures AllDigits("0" + s) && ValueOf("0" + s) == ValueOf(s)
  {
    if s != [] {
      var t := "0" + s;
      assert t[..|t| - 1] == "0" + s[..|s| - 1];
      LeadingZero(s[..|s| - 1]);
    }
  }

  /** A padded field reads back as its number and is exactly two characters below 100. */
  lemma PaddedField(n: nat)
    ensures var p := PadStart2(IntToString(n));
      AllDigits(p) && ValueOf(p) == n && 2 <= |p| && (n < 100 ==> |p| == 2)
  {
    NatToStringRoundTrip(n);
    var s := NatToString(n);
    if |s| < 2 {
      assert PadStart2(s) == "0" + s;
      LeadingZero(s);
    }
  }

  /**
   * Hour, minute and second fields that are decimal digits, with minutes and
   * seconds below 60, and hours * 3600 + minutes * 60 + seconds equal to `s`.
   */
  predicate ClockDigits(ph: string, pm: string, ps: string, s: int)
  {
    && AllDigits(ph) && AllDigits(pm) && AllDigits(ps)
    && ValueOf(pm) < 60 && ValueOf(ps) < 60
    && ValueOf(ph) * 3600 + ValueOf(pm) * 60 + ValueOf(ps) == s
  }

  /** `r` reads as a clock for `s` seconds: "H...:MM:SS" with fields as above. */
  predicate ShowsDuration(r: string, s: int)
  {
    && |r| >= 8 && r[|r| - 6] == ':' && r[|r| - 3] == ':'
    && ClockDigits(r[..|r| - 6], r[|r| - 5..|r| - 3], r[|r| - 2..], s)
  }

  /** Any non-negative number of seconds is formatted as a clock that reads back as it. */
  lemma FormatDurationRoundTrip(s: int)
    requires s >= 0
    ensures ShowsDuration(FormatDuration(s), s)
  {
    var h, m, sec := s / 3600, (s % 3600) / 60, s % 60;
    DurationSplit(s);
    PaddedField(h);
    PaddedField(m);
    PaddedField(sec);
    var ph, pm, ps := PadStart2(IntToString(h)), PadStart2(IntToString(m)), PadStart2(IntToString(sec));
    assert ClockDigits(ph, pm, ps, s);
    ClockFields(ph, pm, ps, s);
  }

  /** Three fields of which the last two have two characters, joined by colons, read back as their clock. */
  lemma ClockFields(ph: string, pm: string, ps: string, s: int)
    requires |ph| >= 2 && |pm| == 2 && |ps| == 2 && ClockDigits(ph, pm, ps, s)
    ensures ShowsDuration(ph + ":" + pm + ":" + ps, s)
  {
    var r := ph + ":" + pm + ":" + ps;
    assert r[..|r| - 6] == ph && r[|r| - 5..|r| - 3] == pm && r[|r| - 2..] == ps;
  }

  /** Hours, minutes and seconds recombine to the input. */
  lemma DurationSplit(s: int)
    requires s >= 0
    ensures (s % 3600) / 60 < 60 && s % 60 < 60
    ensures (s / 3600) * 3600 + ((s % 3600) / 60) * 60 + s % 60 == s
  {
    var q, r := s / 3600, s % 3600;
    MinutesOfHour(r);
    SecondsOfHour(q, r);
  }

  /** What is left over after the whole hours splits into minutes (below 60) and seconds. */
  lemma MinutesOfHour(r: int)
    requires 0 <= r < 3600
    ensures r / 60 < 60 && (r / 60) * 60 + r % 60 == r
  {
  }

  /** A whole number of hours is a whole number of minutes, so the seconds field is that of the remainder. */
  lemma SecondsOfHour(q: int, r: int)
    requires 0 <= r < 3600
    ensures (q * 3600 + r) % 60 == r % 60
  {
    var m, t := r / 60, r % 60;
    assert q * 3600 + r == (q * 60 + m) * 60 + t;
  }

  /** Below 100 hours the string is exactly eight characters, "HH:MM:SS". */
  lemma FormatDurationWidth(s: int)
    requires 0 <= s < 360000
    ensures |FormatDuration(s)| == 8
  {
    var h, m, sec := s / 3600, (s % 3600) / 60, s % 60;
    DurationSplit(s);
    PaddedField(h);
    PaddedField(m);
    PaddedField(sec);
    assert FormatDuration(s) == PadStart2(IntToString(h)) + ":" + PadStart2(IntToString(m)) + ":" + PadStart2(IntToString(sec));
  }
}
