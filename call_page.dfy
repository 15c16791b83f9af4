/** `formatTime` of the call page: a second count shown as minutes, a colon, and two-digit seconds. */
module CallPage {

  predicate IsDigit(c: char) {
    '0' <= c <= '9'
  }

  predicate AllDigits(s: string) {
    forall i :: 0 <= i < |s| ==> IsDigit(s[i])
  }

  function DigitChar(d: nat): (c: char)
    requires d < 10
    ensures IsDigit(c)
  {
    ('0' as int + d) as char
  }

  function DigitValue(c: char): (d: nat)
    requires IsDigit(c)
    ensures d < 10
  {
    c as int - '0' as int
  }

  /** `n.toString()`: decimal digits, with no leading zero. */
  function Decimal(n: nat): (s: string)
    ensures |s| >= 1 && AllDigits(s)
    ensures |s| > 1 ==> s[0] != '0'
    decreases n
  {
    if n < 10 then [DigitChar(n)] else Decimal(n / 10) + [DigitChar(n % 10)]
  }

  /** Reading a digit string back as a number; leading zeros count for nothing. */
  function Value(s: string): nat
    requires AllDigits(s)
  {
    if s == [] then 0 else Value(s[..|s| - 1]) * 10 + DigitValue(s[|s| - 1])
  }

  /** `s.padStart(width, fill)`: filled on the left up to `width`; a longer string is kept whole. */
  function PadStart(s: string, width: nat, fill: char): (r: string)
    ensures |r| == if |s| >= width then |s| else width
    ensures r[|r| - |s|..] == s
    ensures forall i :: 0 <= i < |r| - |s| ==> r[i] == fill
  {
    if |s| >= width then s else seq(width - |s|, _ => fill) + s
  }

  function FormatTime(seconds: nat): string {
    var minutes := seconds / 60;
    var remainingSeconds := seconds % 60;
    PadStart(Decimal(minutes), 2, '0') + ":" + PadStart(Decimal(remainingSeconds), 2, '0')
  }

  /** Reading `n.toString()` back gives `n`. */
  lemma {:induction false} ValueOfDecimal(n: nat)
    ensures Value(Decimal(n)) == n
    decreases n
  {
    if n >= 10 {
      ValueOfDecimal(n / 10);
      var s := Decimal(n);
      assert s[..|s| - 1] == Decimal(n / 10);
    }
  }

  /** One digit below 10, two below 100, at least three from 100 on. */
  lemma {:induction false} DecimalLength(n: nat)
    ensures n < 10 ==> |Decimal(n)| == 1
    ensures 10 <= n < 100 ==> |Decimal(n)| == 2
    ensures n >= 100 ==> |Decimal(n)| >= 3
    decreases n
  {
    if n >= 10 {
      DecimalLength(n / 10);
    }
  }

  lemma {:induction false} ValueOfZeros(z: string)
    requires forall i :: 0 <= i < |z| ==> z[i] == '0'
    ensures AllDigits(z) && Value(z) == 0
    decreases |z|
  {
    if z != [] {
      ValueOfZeros(z[..|z| - 1]);
    }
  }

  /** Zeros in front do not change a digit string's value. */
  lemma {:induction false} ValueIgnoresLeadingZeros(z: string, s: string)
    requires forall i :: 0 <= i < |z| ==> z[i] == '0'
    requires AllDigits(s)
    ensures AllDigits(z + s) && Value(z + s) == Value(s)
    decreases |s|
  {
    ValueOfZeros(z);
    if s == [] {
      assert z + s == z;
    } else {
      var t := s[..|s| - 1];
      ValueIgnoresLeadingZeros(z, t);
      assert (z + s)[..|z + s| - 1] == z + t;
    }
  }

  /** A zero-padded `n.toString()` is all digits. */
  lemma PaddedDigits(n: nat, width: nat)
    ensures AllDigits(PadStart(Decimal(n), width, '0'))
  {
  }

  /** A zero-padded `n.toString()` still reads back as `n`. */
  lemma PaddedValue(n: nat, width: nat)
    ensures AllDigits(PadStart(Decimal(n), width, '0'))
    ensures Value(PadStart(Decimal(n), width, '0')) == n
  {
    var s := Decimal(n);
    var r := PadStart(s, width, '0');
    var z := r[..|r| - |s|];
    assert r == z + s;
    ValueIgnoresLeadingZeros(z, s);
    ValueOfDecimal(n);
  }

  /** The timer starts at "00:00". */
  lemma FormatTimeZero()
    ensures FormatTime(0) == "00:00"
  {
    assert Decimal(0) == "0";
    assert PadStart("0", 2, '0') == "00";
  }

  /** `mm + ":" + ss` with a two-character `ss` splits back into its two fields. */
  lemma SplitAtColon(mm: string, ss: string)
    requires |ss| == 2
    ensures var r := mm + ":" + ss;
            |r| == |mm| + 3 && r[|r| - 3] == ':' && r[..|r| - 3] == mm && r[|r| - 2..] == ss
  {
  }

  /**
   * The minutes field has at least two digits and is never cut short, so 100 minutes or more
   * (6000 seconds) show three or more; the seconds field always has two.
   */
  lemma FormatTimeWidth(seconds: nat)
    ensures var r := FormatTime(seconds);
            && |r| - 3 == (if |Decimal(seconds / 60)| >= 2 then |Decimal(seconds / 60)| else 2)
            && (seconds >= 6000 ==> |r| - 3 >= 3)
  {
    var d := Decimal(seconds / 60);
    var mm := PadStart(d, 2, '0');
    var ss := PadStart(Decimal(seconds % 60), 2, '0');
    DecimalLength(seconds / 60);
    DecimalLength(seconds % 60);
    assert |ss| == 2;
    assert |mm| == (if |d| >= 2 then |d| else 2);
    assert FormatTime(seconds) == mm + ":" + ss;
  }

  /** The output is the minutes field, a colon, and a two-digit seconds field, both all digits. */
  lemma FormatTimeFields(seconds: nat)
    ensures var r := FormatTime(seconds);
            && |r| >= 5 && r[|r| - 3] == ':'
            && AllDigits(r[..|r| - 3]) && AllDigits(r[|r| - 2..])
  {
    var mm := PadStart(Decimal(seconds / 60), 2, '0');
    var ss := PadStart(Decimal(seconds % 60), 2, '0');
    DecimalLength(seconds % 60);
    assert |ss| == 2;
    SplitAtColon(mm, ss);
    PaddedDigits(seconds / 60, 2);
    PaddedDigits(seconds % 60, 2);
    assert FormatTime(seconds) == mm + ":" + ss;
  }

  /** Reading the fields back: the seconds field is in 00..59 and minutes * 60 + seconds is the input. */
  lemma FormatTimeRoundTrip(seconds: nat)
    ensures var r := FormatTime(seconds);
            && |r| >= 5 && AllDigits(r[..|r| - 3]) && AllDigits(r[|r| - 2..])
            && Value(r[|r| - 2..]) < 60
            && Value(r[..|r| - 3]) * 60 + Value(r[|r| - 2..]) == seconds
  {
    var minutes, rest := seconds / 60, seconds % 60;
    var mm := PadStart(Decimal(minutes), 2, '0');
    var ss := PadStart(Decimal(rest), 2, '0');
    FormatTimeFields(seconds);
    PaddedValue(minutes, 2);
    PaddedValue(rest, 2);
    SplitAtColon(mm, ss);
    assert FormatTime(seconds) == mm + ":" + ss;
    assert Value(mm) == minutes && Value(ss) == rest;
    assert minutes * 60 + rest == seconds;
  }

  /** The colon is the only character of the output that is not a digit. */
  lemma FormatTimeOneColon(seconds: nat)
    ensures var r := FormatTime(seconds);
            forall i :: 0 <= i < |r| ==> (r[i] == ':' <==> i == |r| - 3)
  {
    FormatTimeFields(seconds);
    var r := FormatTime(seconds);
    forall i | 0 <= i < |r|
      ensures r[i] == ':' <==> i == |r| - 3
    {
      if i < |r| - 3 {
        assert r[i] == r[..|r| - 3][i];
      } else if i > |r| - 3 {
        assert r[i] == r[|r| - 2..][i - (|r| - 2)];
      }
    }
  }
}
