/** String helpers that stand for Python's integer formatting, `str.strip`, `str.split` and `\s`. */
module Text {

  predicate IsDigit(c: char) {
    '0' <= c <= '9'
  }

  predicate AllDigits(s: string) {
    forall i :: 0 <= i < |s| ==> IsDigit(s[i])
  }

  function DigitChar(d: nat): (c: char)
    requires d < 10
    ensures IsDigit(c)
  {
    ('0' as int + d) as char
  }

  function DigitValue(c: char): (d: nat)
    requires IsDigit(c)
    ensures d < 10
  {
    c as int - '0' as int
  }

  /** `str(n)` for a natural number: its decimal digits, most significant first, no leading zero. */
  function Decimal(n: nat): (s: string)
    ensures |s| >= 1 && AllDigits(s)
    ensures |s| > 1 ==> s[0] != '0'
    decreases n
  {
    if n < 10 then [DigitChar(n)] else Decimal(n / 10) + [DigitChar(n % 10)]
  }

  /** The number a string of decimal digits denotes. */
  function DecimalValue(s: string): nat
    requires AllDigits(s)
    decreases |s|
  {
    if |s| == 0 then 0 else DecimalValue(s[..|s| - 1]) * 10 + DigitValue(s[|s| - 1])
  }

  lemma {:induction false} DecimalRoundTrip(n: nat)
    ensures DecimalValue(Decimal(n)) == n
    decreases n
  {
    var s := Decimal(n);
    if n >= 10 {
      DecimalRoundTrip(n / 10);
      assert s[..|s| - 1] == Decimal(n / 10);
    }
  }

  /** Python's `f"{i}"` for an integer. */
  function IntDecimal(i: int): string {
    if i < 0 then "-" + Decimal(-i) else Decimal(i)
  }

  /** Inserts a comma before every group of three digits counted from the right. */
  function GroupThousands(digits: string): (r: string)
    decreases |digits|
  {
    if |digits| <= 3 then digits
    else GroupThousands(digits[..|digits| - 3]) + "," + digits[|digits| - 3..]
  }

  function RemoveCommas(s: string): (r: string)
    decreases |s|
  {
    if |s| == 0 then ""
    else RemoveCommas(s[..|s| - 1]) + (if s[|s| - 1] == ',' then "" else [s[|s| - 1]])
  }

  lemma {:induction false} RemoveCommasAppend(a: string, b: string)
    ensures RemoveCommas(a + b) == RemoveCommas(a) + RemoveCommas(b)
    decreases |b|
  {
    if |b| == 0 {
      assert a + b == a;
    } else {
      var last := b[|b| - 1];
      assert (a + b)[..|a + b| - 1] == a + b[..|b| - 1];
      RemoveCommasAppend(a, b[..|b| - 1]);
    }
  }

  lemma {:induction false} RemoveCommasOfDigits(s: string)
    requires AllDigits(s)
    ensures RemoveCommas(s) == s
    decreases |s|
  {
    if |s| > 0 {
      RemoveCommasOfDigits(s[..|s| - 1]);
      assert s[..|s| - 1] + [s[|s| - 1]] == s;
    }
  }

  /** Removing the commas of a grouped number gives its digits back. */
  lemma {:induction false} GroupThousandsDigits(digits: string)
    requires AllDigits(digits)
    ensures RemoveCommas(GroupThousands(digits)) == digits
    decreases |digits|
  {
    if |digits| <= 3 {
      RemoveCommasOfDigits(digits);
    } else {
      var head, tail := digits[..|digits| - 3], digits[|digits| - 3..];
      var g := GroupThousands(head);
      assert GroupThousands(digits) == g + "," + tail;
      GroupThousandsDigits(head);
      RemoveCommasAppend(g + ",", tail);
      RemoveCommasAppend(g, ",");
      RemoveCommasOfDigits(tail);
      assert RemoveCommas(",") == "" by {
        assert ","[..0] == "";
      }
      assert head + tail == digits;
    }
  }

  /** Grouping inserts one comma per full group of three digits beyond the first digit. */
  lemma {:induction false} GroupThousandsLength(digits: string)
    requires |digits| >= 1
    ensures |GroupThousands(digits)| == |digits| + (|digits| - 1) / 3
    decreases |digits|
  {
    if |digits| > 3 {
      GroupThousandsLength(digits[..|digits| - 3]);
    }
  }

  /** Python's `f"{i:,}"`: the decimal digits grouped by thousands. */
  function CommaInt(i: int): string {
    if i < 0 then "-" + GroupThousands(Decimal(-i)) else GroupThousands(Decimal(i))
  }

  /** Right-aligns `s` in a field of `width` characters filled with '0' (Python's `0{width}d`
      for a non-negative number); a longer string is kept whole. */
  function ZeroPad(s: string, width: nat): (r: string)
    ensures |r| == if |s| >= width then |s| else width
    ensures r[|r| - |s|..] == s
    ensures forall i :: 0 <= i < |r| - |s| ==> r[i] == '0'
  {
    if |s| >= width then s else Zeros(width - |s|) + s
  }

  /** Python's `str.isspace` for one character, which is what `\s` matches in a str pattern. */
  predicate IsSpace(c: char) {
    ('\t' <= c <= '\r') || ('\U{1C}' <= c <= ' ') || c == '\U{85}' || c == '\U{A0}'
    || c == '\U{1680}' || ('\U{2000}' <= c <= '\U{200A}') || c == '\U{2028}' || c == '\U{2029}'
    || c == '\U{202F}' || c == '\U{205F}' || c == '\U{3000}'
  }

  function StripLeft(s: string, c: char): (r: string)
    ensures |r| <= |s|
    decreases |s|
  {
    if |s| > 0 && s[0] == c then StripLeft(s[1..], c) else s
  }

  function StripRight(s: string, c: char): (r: string)
    ensures |r| <= |s|
    decreases |s|
  {
    if |s| > 0 && s[|s| - 1] == c then StripRight(s[..|s| - 1], c) else s
  }

  /** `StripLeft` drops the leading run of `c` and nothing else. */
  lemma {:induction false} StripLeftShape(s: string, c: char)
    ensures var r := StripLeft(s, c);
            && r == s[|s| - |r|..]
            && (forall i :: 0 <= i < |s| - |r| ==> s[i] == c)
            && (|r| > 0 ==> r[0] != c)
    decreases |s|
  {
    if |s| > 0 && s[0] == c {
      StripLeftShape(s[1..], c);
    }
  }

  /** `StripRight` drops the trailing run of `c` and nothing else. */
  lemma {:induction false} StripRightShape(s: string, c: char)
    ensures var r := StripRight(s, c);
            && r == s[..|r|]
            && (forall i :: |r| <= i < |s| ==> s[i] == c)
            && (|r| > 0 ==> r[|r| - 1] != c)
    decreases |s|
  {
    if |s| > 0 && s[|s| - 1] == c {
      StripRightShape(s[..|s| - 1], c);
    }
  }

  /** Python's `s.strip(c)`: every leading and trailing `c` removed. */
  function Strip(s: string, c: char): string {
    StripRight(StripLeft(s, c), c)
  }

  function Occurrences(s: string, c: char): nat
    decreases |s|
  {
    if |s| == 0 then 0 else Occurrences(s[..|s| - 1], c) + (if s[|s| - 1] == c then 1 else 0)
  }

  /** `len(s.split(c))`: one more than the number of separators, so 1 for the empty string. */
  function SplitCount(s: string, c: char): nat {
    Occurrences(s, c) + 1
  }

  /** A run of k zero digits. */
  function Zeros(k: nat): (z: string)
    ensures |z| == k && AllDigits(z)
  {
    seq(k, _ => '0')
  }

  lemma {:induction false} ZerosValue(k: nat)
    ensures DecimalValue(Zeros(k)) == 0
    decreases k
  {
    if k > 0 {
      assert Zeros(k)[..k - 1] == Zeros(k - 1);
      ZerosValue(k - 1);
    }
  }

  /** Leading zeros do not change the number a digit string denotes. */
  lemma {:induction false} LeadingZeros(k: nat, s: string)
    requires AllDigits(s)
    ensures AllDigits(Zeros(k) + s) && DecimalValue(Zeros(k) + s) == DecimalValue(s)
    decreases |s|
  {
    var z := Zeros(k) + s;
    if |s| == 0 {
      assert z == Zeros(k);
      ZerosValue(k);
    } else {
      assert z[..|z| - 1] == Zeros(k) + s[..|s| - 1];
      LeadingZeros(k, s[..|s| - 1]);
    }
  }

  function Pow10(k: nat): (p: nat)
    ensures p >= 1
    decreases k
  {
    if k == 0 then 1 else 10 * Pow10(k - 1)
  }

  /** A number below 10^k has at most k digits. */
  lemma {:induction false} DecimalLength(n: nat, k: nat)
    requires k >= 1 && n < Pow10(k)
    ensures |Decimal(n)| <= k
    decreases n
  {
    if n >= 10 {
      assert Pow10(1) == 10;
      assert n / 10 < Pow10(k - 1);
      DecimalLength(n / 10, k - 1);
    }
  }

  /** `f"{n:0{w}d}"` denotes n again, and is exactly w digits wide when n has at most w
      digits. */
  lemma ZeroPadDecimal(n: nat, width: nat)
    ensures AllDigits(ZeroPad(Decimal(n), width))
    ensures DecimalValue(ZeroPad(Decimal(n), width)) == n
    ensures |Decimal(n)| <= width ==> |ZeroPad(Decimal(n), width)| == width
  {
    var d := Decimal(n);
    DecimalRoundTrip(n);
    if |d| < width {
      assert ZeroPad(d, width) == Zeros(width - |d|) + d;
      LeadingZeros(width - |d|, d);
    }
  }
}
