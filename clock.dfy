/**
 * The countdown text shown on the game and voting screens:
 * `Math.floor(t / 60)`, a colon, then `t % 60` left-padded with '0' to two characters.
 */
module Clock {
  import opened Wrappers

  predicate IsDigit(c: char) {
    '0' <= c <= '9'
  }

  predicate AllDigits(s: string) {
    forall k :: 0 <= k < |s| ==> IsDigit(s[k])
  }

  function DigitChar(d: nat): (c: char)
    requires d < 10
    ensures IsDigit(c)
  {
    ('0' as int + d) as char
  }

  function DigitValue(c: char): (d: nat)
    requires IsDigit(c)
    ensures d < 10
  {
    c as int - '0' as int
  }

  /** Decimal text of a natural number, without leading zeros (JavaScript's `n.toString()`). */
  function NatToString(n: nat): (r: string)
    ensures |r| >= 1 && AllDigits(r)
    ensures n >= 10 ==> |r| >= 2
    ensures r[0] == '0' ==> n == 0
  {
    if n < 10 then [DigitChar(n)] else NatToString(n / 10) + [DigitChar(n % 10)]
  }

  /** JavaScript's `n.toString()` for an integer: a minus sign, then the decimal text of its magnitude. */
  function IntToString(n: int): string {
    if n < 0 then "-" + NatToString(-n) else NatToString(n)
  }

  /** The quotient of `a / b` truncated toward zero, as `Math.trunc(a / b)` gives it. */
  function TruncDiv(a: int, b: int): int
    requires b > 0
  {
    if a >= 0 then a / b else -((-a) / b)
  }

  /**
   * JavaScript's `%`: the remainder of the division truncated toward zero, so it takes
   * the sign of the dividend.
   */
  function JsRem(a: int, b: int): (r: int)
    requires b > 0
    ensures a == b * TruncDiv(a, b) + r
    ensures -b < r < b
    ensures a >= 0 ==> r >= 0
    ensures a <= 0 ==> r <= 0
  {
    if a >= 0 then a % b
    else
      var q := (-a) / b;
      assert b * -q == -(b * q);
      -((-a) % b)
  }

  /** `s.padStart(2, '0')`: `s` preceded by as many '0' as it takes to reach two characters. */
  function PadStart2(s: string): (r: string)
    ensures |r| == if |s| < 2 then 2 else |s|
    ensures r[|r| - |s|..] == s
    ensures forall k :: 0 <= k < |r| - |s| ==> r[k] == '0'
  {
    if |s| == 0 then "00" else if |s| == 1 then "0" + s else s
  }

  /** The countdown text for `t` seconds left. `t / 60` with a positive divisor rounds down, as `Math.floor` does. */
  function FormatClock(t: int): (r: string)
    ensures |r| >= 4
    ensures r[0] == '-' <==> t < 0
  {
    IntToString(t / 60) + ":" + PadStart2(IntToString(JsRem(t, 60)))
  }

  /** Reads back a decimal digit string. */
  function ParseNat(s: string): (n: nat)
    requires AllDigits(s)
  {
    if s == [] then 0 else ParseNat(s[..|s| - 1]) * 10 + DigitValue(s[|s| - 1])
  }

  /** Reads back a countdown text `m:ss` into seconds; `None` for any other shape. */
  function ParseClock(s: string): Option<nat> {
    if |s| < 4 || s[|s| - 3] != ':' then None
    else
      var minutes, seconds := s[..|s| - 3], s[|s| - 2..];
      if !AllDigits(minutes) || !AllDigits(seconds) || ParseNat(seconds) >= 60 then None
      else Some(ParseNat(minutes) * 60 + ParseNat(seconds))
  }

  lemma {:induction false} ParseNatToString(n: nat)
    ensures ParseNat(NatToString(n)) == n
  {
    if n >= 10 {
      var s := NatToString(n);
      ParseNatToString(n / 10);
      assert s[..|s| - 1] == NatToString(n / 10);
    }
  }

  /** The seconds field of a non-negative countdown is exactly two digits and reads back as `t % 60`. */
  lemma SecondsField(r: nat)
    requires r < 60
    ensures |PadStart2(NatToString(r))| == 2
    ensures AllDigits(PadStart2(NatToString(r)))
    ensures ParseNat(PadStart2(NatToString(r))) == r
  {
    var p := PadStart2(NatToString(r));
    ParseNatToString(r);
    if r < 10 {
      assert p == ['0', DigitChar(r)];
      assert p[..1] == ['0'];
    }
  }

  /** For a non-negative number of seconds the countdown text is `t / 60`, a colon and `t % 60` padded. */
  lemma ClockText(t: nat)
    ensures FormatClock(t) == NatToString(t / 60) + ":" + PadStart2(NatToString(t % 60))
  {
    assert JsRem(t, 60) == t % 60;
  }

  /** Text of the shape `m:ss`, with `ss` below 60, reads back as m minutes and ss seconds. */
  lemma ParseClockShape(m: string, r: string)
    requires |m| >= 1 && AllDigits(m)
    requires |r| == 2 && AllDigits(r) && ParseNat(r) < 60
    ensures ParseClock(m + ":" + r) == Some(ParseNat(m) * 60 + ParseNat(r))
  {
    var s := m + ":" + r;
    assert s[..|s| - 3] == m;
    assert s[|s| - 2..] == r;
  }

  /**
   * For a non-negative number of seconds the countdown text has the shape `m:ss` and
   * reads back as the same number of seconds, so no two such values share a text.
   */
  lemma ClockRoundTrip(t: nat)
    ensures ParseClock(FormatClock(t)) == Some(t)
  {
    var q, rem := t / 60, t % 60;
    assert t == q * 60 + rem;
    var m, r := NatToString(q), PadStart2(NatToString(rem));
    ClockText(t);
    SecondsField(rem);
    ParseNatToString(q);
    ParseClockShape(m, r);
  }
}
