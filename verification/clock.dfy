/** `formatTime` of the caller page (public/caller.js): the call timer shown
    as `mm:ss`. `ms` is an integer number of milliseconds; for the values the
    page produces it is never negative, but the function is modelled on every
    integer, with JavaScript's `String` of a negative number and its
    truncating `%`. */
module CallerClock {

  predicate IsDigit(c: char)
  {
    '0' <= c <= '9'
  }

  predicate IsDigits(s: string)
  {
    forall i :: 0 <= i < |s| ==> IsDigit(s[i])
  }

  function DigitChar(d: nat): (c: char)
    requires d < 10
    ensures IsDigit(c) && c as int - '0' as int == d
  {
    ('0' as int + d) as char
  }

  /** `String(n)` for a non-negative integer: decimal, no leading zeros. */
  function NatToString(n: nat): (r: string)
    ensures 1 <= |r| && IsDigits(r)
    ensures n < 10 <==> |r| == 1
    ensures n < 100 ==> |r| <= 2
    ensures n >= 10 ==> r[0] != '0'
  {
    if n < 10 then [DigitChar(n)] else NatToString(n / 10) + [DigitChar(n % 10)]
  }

  /** `String(n)` for any integer: the decimal digits of `|n|`, after a
      minus sign when `n` is negative; they read back as `|n|`. */
  function IntToString(n: int): (r: string)
    ensures n >= 0 ==> IsDigits(r) && ParseDigits(r) == n
    ensures n < 0 ==> |r| >= 2 && r[0] == '-' && IsDigits(r[1..]) && ParseDigits(r[1..]) == -n
  {
    if n < 0 then
      var d := NatToString(-n);
      ParsePrinted(-n);
      assert ("-" + d)[1..] == d;
      "-" + d
    else
      ParsePrinted(n);
      NatToString(n)
  }

  /** `str.padStart(width, fill)` with a one-character fill: the string
      itself ends the result, and it is preceded by just enough fill
      characters to reach `width`. */
  function PadStart(str: string, width: nat, fill: char): (r: string)
    ensures |r| == if |str| < width then width else |str|
    ensures r[|r| - |str|..] == str
    ensures forall i :: 0 <= i < |r| - |str| ==> r[i] == fill
  {
    if |str| < width then seq(width - |str|, _ => fill) + str else str
  }

  /** JavaScript's `a % b` for a positive divisor: the remainder takes the
      sign of `a`. */
  function JsRem(a: int, b: int): (r: int)
    requires b > 0
    ensures a >= 0 ==> r == a % b
    ensures a < 0 ==> -b < r <= 0 && r == -((-a) % b)
  {
    if a >= 0 then a % b else -((-a) % b)
  }

  /** `formatTime(ms)`. `Math.floor` of a quotient by a positive divisor is
      Dafny's `/` on integers. */
  function FormatTime(ms: int): (r: string)
    ensures |r| >= 5
  {
    var s := ms / 1000;
    Field(s / 60) + ":" + Field(JsRem(s, 60))
  }

  /** One field of the timer: the number zero padded to two characters. */
  function Field(n: int): string
  {
    PadStart(IntToString(n), 2, '0')
  }

  /** Reads a string of decimal digits as a number. */
  function ParseDigits(s: string): nat
    requires IsDigits(s)
  {
    if s == [] then 0 else ParseDigits(s[..|s| - 1]) * 10 + (s[|s| - 1] as int - '0' as int)
  }

  /** Printing a number and reading it back gives the number. */
  lemma {:induction false} ParsePrinted(n: nat)
    ensures ParseDigits(NatToString(n)) == n
    decreases n
  {
    if n >= 10 {
      var r := NatToString(n);
      assert r[..|r| - 1] == NatToString(n / 10);
      ParsePrinted(n / 10);
    }
  }

  lemma {:induction false} ParseZeros(z: string)
    requires forall i :: 0 <= i < |z| ==> z[i] == '0'
    ensures IsDigits(z) && ParseDigits(z) == 0
    decreases |z|
  {
    if z != [] {
      ParseZeros(z[..|z| - 1]);
    }
  }

  /** Leading zeros do not change the value read. */
  lemma {:induction false} ParseLeadingZeros(z: string, s: string)
    requires (forall i :: 0 <= i < |z| ==> z[i] == '0') && IsDigits(s)
    ensures IsDigits(z + s) && ParseDigits(z + s) == ParseDigits(s)
    decreases |s|
  {
    if s == [] {
      assert z + s == z;
      ParseZeros(z);
    } else {
      assert (z + s)[..|z + s| - 1] == z + s[..|s| - 1];
      ParseLeadingZeros(z, s[..|s| - 1]);
    }
  }

  /** Zero padding a printed number keeps it all digits and keeps its value. */
  lemma PaddedValue(n: nat, width: nat)
    ensures var r := PadStart(NatToString(n), width, '0');
            IsDigits(r) && ParseDigits(r) == n
  {
    var d := NatToString(n);
    var r := PadStart(d, width, '0');
    var z := r[..|r| - |d|];
    assert forall i :: 0 <= i < |z| ==> z[i] == '0';
    assert r == z + r[|r| - |d|..];
    ParseLeadingZeros(z, d);
    ParsePrinted(n);
  }

  /** A field for a non-negative number is at least two digits and reads
      back as the number; below 100 it is exactly two digits. */
  lemma FieldValue(n: int)
    requires n >= 0
    ensures IsDigits(Field(n)) && ParseDigits(Field(n)) == n
    ensures |Field(n)| >= 2 && (n < 100 ==> |Field(n)| == 2)
  {
    PaddedValue(n, 2);
  }

  /** `r` is a minutes field of at least two digits, a colon and a seconds
      field of exactly two digits, reading as `m` and `sec`. */
  predicate ShowsAs(r: string, m: nat, sec: nat)
  {
    && |r| >= 5 && r[|r| - 3] == ':'
    && IsDigits(r[..|r| - 3]) && IsDigits(r[|r| - 2..])
    && ParseDigits(r[..|r| - 3]) == m && ParseDigits(r[|r| - 2..]) == sec
  }

  /** Two fields joined by a colon read back as their values. */
  lemma JoinFields(mm: string, ss: string, m: nat, sec: nat)
    requires |mm| >= 2 && |ss| == 2
    requires IsDigits(mm) && IsDigits(ss) && ParseDigits(mm) == m && ParseDigits(ss) == sec
    ensures ShowsAs(mm + ":" + ss, m, sec)
  {
    var r := mm + ":" + ss;
    assert r[..|r| - 3] == mm;
    assert r[|r| - 2..] == ss;
  }

  /** For a non-negative `ms` the output is a minutes field of at least two
      digits, a colon, and a seconds field of exactly two digits; the seconds
      field reads as `floor(ms/1000) mod 60` and the minutes field as
      `floor(floor(ms/1000)/60)`, with no digit cut off. */
  lemma FormatTimeFields(ms: int)
    requires ms >= 0
    ensures ShowsAs(FormatTime(ms), ms / 1000 / 60, (ms / 1000) % 60)
  {
    var s := ms / 1000;
    var m, sec := s / 60, s % 60;
    assert JsRem(s, 60) == sec;
    FieldValue(m);
    FieldValue(sec);
    JoinFields(Field(m), Field(sec), m, sec);
  }

  /** `r` is shaped as in `ShowsAs` and `60 * minutes + seconds` is `total`. */
  predicate ReadsAsSeconds(r: string, total: int)
  {
    && |r| >= 5 && r[|r| - 3] == ':' && IsDigits(r[..|r| - 3]) && IsDigits(r[|r| - 2..])
    && ParseDigits(r[..|r| - 3]) * 60 + ParseDigits(r[|r| - 2..]) == total
  }

  /** Reading the output back as `mm:ss` gives the whole seconds elapsed. */
  lemma FormatTimeRoundTrip(ms: int)
    requires ms >= 0
    ensures ReadsAsSeconds(FormatTime(ms), ms / 1000)
  {
    var s := ms / 1000;
    FormatTimeFields(ms);
    assert (s / 60) * 60 + s % 60 == s;
  }

  /** Anything under a second shows as `00:00`. */
  lemma FormatTimeUnderOneSecond(ms: int)
    requires 0 <= ms < 1000
    ensures FormatTime(ms) == "00:00"
  {
    assert ms / 1000 == 0;
    assert NatToString(0) == "0";
    assert PadStart("0", 2, '0') == "00";
  }

  /** A negative duration, which the page never produces, prints the signs
      of both fields: the last second before zero shows as `-1:-1`. */
  lemma FormatTimeNegative(ms: int)
    requires -1000 <= ms < 0
    ensures FormatTime(ms) == "-1:-1"
  {
    assert ms / 1000 == -1 && -1 / 60 == -1;
    assert JsRem(-1, 60) == -1;
    assert Field(-1) == "-1" by {
      assert NatToString(1) == "1";
      assert IntToString(-1) == "-1";
    }
  }
}
