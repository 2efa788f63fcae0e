/** String helpers shared by the widgets and the demos. A Swift String is
    modelled as a sequence of characters, one character per terminal cell. */
module Text {
  import opened Geometry

  /** `n` blank cells. */
  function Spaces(n: nat): (r: string)
    ensures |r| == n && forall i :: 0 <= i < n ==> r[i] == ' '
  {
    seq(n, _ => ' ')
  }

  /** `String(repeating: c, count: n)`. */
  function Repeat(c: char, n: nat): (r: string)
    ensures |r| == n && forall i :: 0 <= i < n ==> r[i] == c
  {
    seq(n, _ => c)
  }

  /** `prefix(n)`: at most the first `n` characters. */
  function Prefix<T>(s: seq<T>, n: nat): (r: seq<T>)
    ensures |r| == Min(n, |s|) && r == s[..|r|]
  {
    if n < |s| then s[..n] else s
  }

  /** `suffix(n)`: at most the last `n` elements, in order. */
  function Suffix<T>(s: seq<T>, n: nat): (r: seq<T>)
    ensures |r| == Min(n, |s|)
    ensures forall i :: 0 <= i < |r| ==> r[i] == s[|s| - |r| + i]
  {
    if n < |s| then s[|s| - n..] else s
  }

  /** `padding(toLength: n, withPad: " ", startingAt: 0)`: exactly `n`
      characters, cut or filled with blanks on the right. */
  function PaddedTo(s: string, n: nat): (r: string)
    ensures |r| == n
    ensures |s| >= n ==> r == s[..n]
    ensures |s| < n ==> r[..|s|] == s && forall i :: |s| <= i < n ==> r[i] == ' '
  {
    if |s| >= n then s[..n] else s + Spaces(n - |s|)
  }

  /** `joined(separator:)`. */
  function Joined(items: seq<string>, separator: string): (r: string)
    ensures |items| == 1 ==> r == items[0]
  {
    if |items| == 0 then []
    else if |items| == 1 then items[0]
    else Joined(items[..|items| - 1], separator) + separator + items[|items| - 1]
  }

  /** The longest length among `lines`, or 0 when there are none. */
  function LongestLength(lines: seq<string>): (r: nat)
    ensures forall i :: 0 <= i < |lines| ==> |lines[i]| <= r
    ensures |lines| == 0 ==> r == 0
    ensures |lines| > 0 ==> exists i :: 0 <= i < |lines| && |lines[i]| == r
  {
    if |lines| == 0 then 0
    else
      var rest := LongestLength(lines[1..]);
      if |lines[0]| >= rest then |lines[0]| else rest
  }

  function DigitChar(d: nat): char
    requires d < 10
  {
    "0123456789"[d]
  }

  /** The decimal digits of `n`, as Swift's string interpolation prints it. */
  function NatDescription(n: nat): (r: string)
    ensures |r| >= 1
    ensures forall i :: 0 <= i < |r| ==> '0' <= r[i] <= '9'
  {
    if n < 10 then [DigitChar(n)] else NatDescription(n / 10) + [DigitChar(n % 10)]
  }

  /** `"\(i)"` for an Int. */
  function IntDescription(i: int): (r: string)
    ensures |r| >= 1
  {
    if i < 0 then "-" + NatDescription(-i) else NatDescription(i)
  }

  predicate IsDigit(c: char)
  {
    '0' <= c <= '9'
  }

  predicate AllDigits(s: string)
  {
    forall i :: 0 <= i < |s| ==> IsDigit(s[i])
  }

  /** The value of a run of decimal digits. */
  function DigitsValue(s: string): (r: nat)
    requires AllDigits(s)
  {
    if |s| == 0 then 0 else DigitsValue(s[..|s| - 1]) * 10 + (s[|s| - 1] as int - '0' as int)
  }

  /** The digits printed for a number read back as that number. */
  lemma {:induction false} DigitsOfDescription(n: nat)
    ensures AllDigits(NatDescription(n))
    ensures DigitsValue(NatDescription(n)) == n
  {
    var s := NatDescription(n);
    if n < 10 {
      assert s == [DigitChar(n)];
      assert DigitChar(n) as int - '0' as int == n;
    } else {
      DigitsOfDescription(n / 10);
      assert s == NatDescription(n / 10) + [DigitChar(n % 10)];
      assert s[..|s| - 1] == NatDescription(n / 10);
      assert DigitChar(n % 10) as int - '0' as int == n % 10;
    }
  }
}
