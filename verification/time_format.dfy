/** `formatTime`: whole seconds rendered as `m:ss`. Both player copies
    use the same formula. Seconds are a natural number here; the source
    floors `time / 60` and `time % 60` separately, which for a
    non-negative real t gives the same output as formatting floor(t). */
module TimeFormat {
  import opened Wrappers

  predicate IsDigit(c: char)
  {
    '0' <= c <= '9'
  }

  predicate AllDigits(s: string)
  {
    forall i :: 0 <= i < |s| ==> IsDigit(s[i])
  }

  function DigitChar(d: nat): (c: char)
    requires d < 10
    ensures IsDigit(c)
  {
    ('0' as int + d) as char
  }

  function DigitValue(c: char): (d: nat)
    requires IsDigit(c)
    ensures d < 10 && DigitChar(d) == c
  {
    c as int - '0' as int
  }

  /** The decimal numeral of `n`. For n below 10^21 this is what
      JavaScript's template literal prints; from 10^21 up JavaScript
      switches to exponent notation, which is not modelled. */
  function Decimal(n: nat): (r: string)
    ensures |r| >= 1 && AllDigits(r)
    decreases n
  {
    if n < 10 then [DigitChar(n)] else Decimal(n / 10) + [DigitChar(n % 10)]
  }

  /** The number a string of decimal digits denotes. */
  function DigitsValue(s: string): (n: nat)
    requires AllDigits(s)
    decreases |s|
  {
    if s == [] then 0 else DigitsValue(s[..|s| - 1]) * 10 + DigitValue(s[|s| - 1])
  }

  /** A numeral with no superfluous leading zero. */
  predicate Canonical(s: string)
  {
    |s| >= 1 && AllDigits(s) && (s[0] == '0' ==> |s| == 1)
  }

  lemma {:induction false} DecimalValue(n: nat)
    ensures DigitsValue(Decimal(n)) == n
    ensures Canonical(Decimal(n))
    decreases n
  {
    if n >= 10 {
      DecimalValue(n / 10);
      var r := Decimal(n);
      assert r[..|r| - 1] == Decimal(n / 10);
      assert r[0] == Decimal(n / 10)[0];
    }
  }

  lemma {:induction false} CanonicalNonZero(s: string)
    requires AllDigits(s) && |s| >= 1 && s[0] != '0'
    ensures DigitsValue(s) >= 1
    decreases |s|
  {
    if |s| > 1 {
      CanonicalNonZero(s[..|s| - 1]);
    }
  }

  lemma {:induction false} DecimalOfValue(s: string)
    requires Canonical(s)
    ensures Decimal(DigitsValue(s)) == s
    decreases |s|
  {
    if |s| > 1 {
      var init := s[..|s| - 1];
      CanonicalNonZero(init);
      DecimalOfValue(init);
      assert s == init + [s[|s| - 1]];
    }
  }

  /** `m:ss` with m = t div 60, and ss the seconds t mod 60, padded with a
      zero when below ten. */
  function FormatTime(t: nat): (r: string)
    ensures |r| >= 4 && r[|r| - 3] == ':'
    ensures Canonical(r[..|r| - 3]) && DigitsValue(r[..|r| - 3]) == t / 60
    ensures IsDigit(r[|r| - 2]) && IsDigit(r[|r| - 1]) && r[|r| - 2] <= '5'
    ensures DigitValue(r[|r| - 2]) * 10 + DigitValue(r[|r| - 1]) == t % 60
  {
    var minutes := t / 60;
    var seconds := t % 60;
    DecimalValue(minutes);
    var ss := (if seconds < 10 then "0" else "") + Decimal(seconds);
    assert ss == [DigitChar(seconds / 10), DigitChar(seconds % 10)] by {
      if seconds >= 10 {
        assert Decimal(seconds / 10) == [DigitChar(seconds / 10)];
      }
    }
    var r := Decimal(minutes) + ":" + ss;
    assert r[..|r| - 3] == Decimal(minutes);
    r
  }

  /** Reads `m:ss` back: a canonical minute numeral, a colon, and two
      digits below 60. */
  function ParseTime(s: string): (t: Option<nat>)
  {
    if |s| >= 4 && s[|s| - 3] == ':' && Canonical(s[..|s| - 3])
       && IsDigit(s[|s| - 2]) && IsDigit(s[|s| - 1]) && s[|s| - 2] <= '5'
    then Some(DigitsValue(s[..|s| - 3]) * 60 + DigitValue(s[|s| - 2]) * 10 + DigitValue(s[|s| - 1]))
    else None
  }

  /** Every rendering reads back as the time it renders. */
  lemma ParseFormatTime(t: nat)
    ensures ParseTime(FormatTime(t)) == Some(t)
  {
  }

  /** Every string that reads back as a time is that time's rendering, so
      the output format is exactly the `m:ss` language. */
  lemma FormatParseTime(s: string)
    requires ParseTime(s).Some?
    ensures FormatTime(ParseTime(s).value) == s
  {
    var m := s[..|s| - 3];
    var t := ParseTime(s).value;
    var sec := DigitValue(s[|s| - 2]) * 10 + DigitValue(s[|s| - 1]);
    assert sec < 60;
    assert t / 60 == DigitsValue(m) && t % 60 == sec;
    var r := FormatTime(t);
    DecimalOfValue(m);
    DecimalOfValue(r[..|r| - 3]);
    assert r[..|r| - 3] == m;
    assert DigitValue(r[|r| - 2]) == DigitValue(s[|s| - 2]);
    assert r[|r| - 2..] == s[|s| - 2..];
    assert r == r[..|r| - 3] + [':'] + r[|r| - 2..];
    assert s == s[..|s| - 3] + [':'] + s[|s| - 2..];
  }

  lemma FormatTimeInjective(a: nat, b: nat)
    requires FormatTime(a) == FormatTime(b)
    ensures a == b
  {
    ParseFormatTime(a);
    ParseFormatTime(b);
  }

  lemma FormatTimeExample()
    ensures FormatTime(65) == "1:05"
    ensures FormatTime(0) == "0:00"
    ensures FormatTime(600) == "10:00"
  {
  }
}
