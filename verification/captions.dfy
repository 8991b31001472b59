/** The text the counter updaters render: `%d` formatting of an int and the
    three captions of main.cpp:86-88, with the parser that inverts them. */
module Captions {

  predicate IsDigit(c: char) { '0' <= c <= '9' }

  predicate AllDigits(s: string) { forall i :: 0 <= i < |s| ==> IsDigit(s[i]) }

  function DigitChar(d: nat): (c: char)
    requires d < 10
    ensures IsDigit(c) && c as int - '0' as int == d
  {
    (d + '0' as int) as char
  }

  /** Decimal digits of `n`, most significant first, no leading zeros. */
  function NatText(n: nat): (s: string)
    ensures 1 <= |s| && AllDigits(s)
    ensures n < 10 <==> |s| == 1
    decreases n
  {
    if n < 10 then [DigitChar(n)] else NatText(n / 10) + [DigitChar(n % 10)]
  }

  /** What `%d` prints for `v`: a minus sign for negatives, then the digits. */
  function IntText(v: int): string
  {
    if v < 0 then "-" + NatText(-v) else NatText(v)
  }

  /** The value of a digit string read most significant digit first. */
  function ParseNat(s: string): nat
    requires AllDigits(s)
    decreases |s|
  {
    if |s| == 0 then 0
    else ParseNat(s[..|s| - 1]) * 10 + (s[|s| - 1] as int - '0' as int)
  }

  /** Reads back what `IntText` prints. Non-digit strings read as 0. */
  function ParseInt(s: string): int
  {
    if 0 < |s| && s[0] == '-' && AllDigits(s[1..]) then -(ParseNat(s[1..]) as int)
    else if AllDigits(s) then ParseNat(s)
    else 0
  }

  lemma {:induction false} ParseNatText(n: nat)
    ensures ParseNat(NatText(n)) == n
    decreases n
  {
    if n >= 10 {
      var s := NatText(n);
      assert s[..|s| - 1] == NatText(n / 10);
      ParseNatText(n / 10);
    }
  }

  /** Printing then reading an int gives it back, negatives included. */
  lemma IntTextRoundTrip(v: int)
    ensures ParseInt(IntText(v)) == v
  {
    var s := IntText(v);
    if v < 0 {
      assert s[0] == '-' && s[1..] == NatText(-v);
      ParseNatText(-v);
    } else {
      assert IsDigit(s[0]) && AllDigits(s);
      ParseNatText(v);
    }
  }

  /** The `box%s` suffix: "box" for exactly one, "boxes" otherwise (zero and negatives included). */
  function Plural(v: int): string { if v == 1 then "" else "es" }

  /** The words after the number: " Banana box" or " Banana boxes", then `rest`. */
  function Tail(v: int, rest: string): (t: string)
    ensures 0 < |t| && t[0] == ' '
  {
    " Banana box" + Plural(v) + rest
  }

  /** Where the three parts of `p + (n + t)` sit. */
  lemma ThreeParts(p: string, n: string, t: string)
    ensures var r := p + (n + t);
      |r| == |p| + |n| + |t| && r[..|p|] == p && r[|p|..|p| + |n|] == n && r[|p| + |n|..] == t
  {
  }

  function NeedCaption(v: int): string { "Need " + (IntText(v) + Tail(v, " to stay alive")) }

  function LeftCaption(v: int): string { IntText(v) + Tail(v, " to be delivered") }

  function StageCaption(v: int): string { "Stage " + IntText(v) }

  /** The need counter's text: after "Need " the printed count, which reads
      back as `v`, then "box" for exactly one and "boxes" otherwise. */
  lemma NeedCaptionSpelled(v: int)
    ensures var s := NeedCaption(v);
      && 5 + |IntText(v)| <= |s| && s[..5] == "Need "
      && ParseInt(s[5..5 + |IntText(v)|]) == v
      && s[5 + |IntText(v)|..] == " Banana box" + (if v == 1 then "" else "es") + " to stay alive"
  {
    ThreeParts("Need ", IntText(v), Tail(v, " to stay alive"));
    IntTextRoundTrip(v);
  }

  /** The left counter's text: the printed count, which reads back as `v`,
      then "box" for exactly one and "boxes" otherwise. */
  lemma LeftCaptionSpelled(v: int)
    ensures var s := LeftCaption(v);
      && |IntText(v)| <= |s| && ParseInt(s[..|IntText(v)|]) == v
      && s[|IntText(v)|..] == " Banana box" + (if v == 1 then "" else "es") + " to be delivered"
  {
    var n, t := IntText(v), Tail(v, " to be delivered");
    assert (n + t)[..|n|] == n && (n + t)[|n|..] == t;
    IntTextRoundTrip(v);
  }

  /** The stage caption: after "Stage " the printed stage, which reads back
      as `v`. */
  lemma StageCaptionSpelled(v: int)
    ensures var s := StageCaption(v); 6 <= |s| && s[..6] == "Stage " && ParseInt(s[6..]) == v
  {
    assert StageCaption(v)[6..] == IntText(v);
    IntTextRoundTrip(v);
  }

  /** Where the sign and the digits of a printed int sit. */
  lemma IntTextShape(v: int)
    ensures 1 <= |IntText(v)|
    ensures IntText(v)[0] == '-' <==> v < 0
    ensures v >= 0 ==> IsDigit(IntText(v)[0])
    ensures forall k :: 1 <= k < |IntText(v)| ==> IsDigit(IntText(v)[k])
  {
    if v < 0 {
      var s := IntText(v);
      assert forall k :: 1 <= k < |s| ==> s[k] == NatText(-v)[k - 1];
    }
  }

  /** When the text after each of two printed numbers starts with a
      non-digit and the two strings agree, the numbers have the same length:
      otherwise the shorter one's text would sit where the longer one still
      has a sign or a digit. */
  lemma PrintedLengthsAgree(a: int, b: int, x: string, y: string)
    requires 0 < |x| && !IsDigit(x[0]) && 0 < |y| && !IsDigit(y[0])
    requires IntText(a) + x == IntText(b) + y
    ensures |IntText(a)| == |IntText(b)|
  {
    var sa, sb := IntText(a), IntText(b);
    IntTextShape(a);
    IntTextShape(b);
    ConcatAt(sa, x, 0);
    ConcatAt(sb, y, 0);
    ConcatAt(sa, x, |sa|);
    ConcatAt(sb, y, |sa|);
    ConcatAt(sa, x, |sb|);
    ConcatAt(sb, y, |sb|);
  }

  /** Indexing into a concatenation. */
  lemma ConcatAt(s: string, t: string, k: int)
    ensures 0 <= k < |s| ==> (s + t)[k] == s[k]
    ensures |s| <= k < |s| + |t| ==> (s + t)[k] == t[k - |s|]
  {
  }

  /** A printed number followed by text that does not start with a digit
      determines the number: the digits end where the text begins. */
  lemma PrintedNumberDelimited(a: int, b: int, x: string, y: string)
    requires 0 < |x| && !IsDigit(x[0]) && 0 < |y| && !IsDigit(y[0])
    requires IntText(a) + x == IntText(b) + y
    ensures a == b
  {
    var sa, sb := IntText(a), IntText(b);
    PrintedLengthsAgree(a, b, x, y);
    assert sa == (sa + x)[..|sa|] == (sb + y)[..|sb|] == sb;
    IntTextRoundTrip(a);
    IntTextRoundTrip(b);
  }

  /** The need caption names exactly one count. */
  lemma NeedCaptionInjective(a: int, b: int)
    requires NeedCaption(a) == NeedCaption(b)
    ensures a == b
  {
    var x, y := Tail(a, " to stay alive"), Tail(b, " to stay alive");
    assert IntText(a) + x == NeedCaption(a)[5..];
    assert IntText(b) + y == NeedCaption(b)[5..];
    PrintedNumberDelimited(a, b, x, y);
  }

  /** The left caption names exactly one count. */
  lemma LeftCaptionInjective(a: int, b: int)
    requires LeftCaption(a) == LeftCaption(b)
    ensures a == b
  {
    PrintedNumberDelimited(a, b, Tail(a, " to be delivered"), Tail(b, " to be delivered"));
  }

  /** The stage caption names exactly one stage. */
  lemma StageCaptionInjective(a: int, b: int)
    requires StageCaption(a) == StageCaption(b)
    ensures a == b
  {
    assert IntText(a) == StageCaption(a)[6..];
    assert IntText(b) == StageCaption(b)[6..];
    IntTextRoundTrip(a);
    IntTextRoundTrip(b);
  }
}
