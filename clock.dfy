/**
 * The player's `formatTime`: a time in seconds shown as `minutes:seconds`,
 * following JavaScript's `Math.floor`, its truncating `%`, `Number.toString`
 * on integers and `padStart(2, '0')`.
 */
module Clock {

  /** A JavaScript number as the player sees it: NaN or a finite value. */
  datatype Num = NaN | Finite(value: real)

  /** `x || 0` on a number: NaN and zero give 0. */
  function OrZero(n: Num): (r: real)
    ensures n.NaN? ==> r == 0.0
    ensures n.Finite? ==> r == n.value
  {
    match n
    case NaN => 0.0
    case Finite(x) => x
  }

  function Digit(d: nat): (c: char)
    requires d < 10
    ensures '0' <= c <= '9' && (c as int) - ('0' as int) == d
  {
    (('0' as int) + d) as char
  }

  predicate IsDigit(c: char) { '0' <= c <= '9' }

  predicate IsDigits(s: string) { forall i :: 0 <= i < |s| ==> IsDigit(s[i]) }

  /** The value of a string of decimal digits, read most significant first. */
  function DigitsValue(s: string): nat
    requires IsDigits(s)
  {
    if s == [] then 0
    else DigitsValue(s[..|s| - 1]) * 10 + ((s[|s| - 1] as int) - ('0' as int))
  }

  /** Decimal digits of a natural number, without leading zeros. */
  function NatToString(n: nat): (r: string)
    decreases n
  {
    if n < 10 then [Digit(n)] else NatToString(n / 10) + [Digit(n % 10)]
  }

  /** `Number.prototype.toString` on an integer. */
  function IntToString(i: int): string
  {
    if i < 0 then "-" + NatToString(-i) else NatToString(i)
  }

  /** `String.prototype.padStart(width, fill)`. */
  function PadStart(s: string, width: nat, fill: char): (r: string)
    ensures |s| >= width ==> r == s
    ensures |s| < width ==> |r| == width && r[width - |s|..] == s
    ensures forall i :: 0 <= i < |r| - |s| ==> r[i] == fill
  {
    if |s| >= width then s else seq(width - |s|, _ => fill) + s
  }

  /** `Math.trunc`, which JavaScript's `%` uses: rounds toward zero. */
  function Trunc(x: real): (r: int)
    ensures x >= 0.0 ==> 0 <= r && (r as real) <= x < (r as real) + 1.0
    ensures x < 0.0 ==> r <= 0 && (r as real) - 1.0 < x <= (r as real)
  {
    if x >= 0.0 then x.Floor else -((-x).Floor)
  }

  /** JavaScript's `x % m`: the remainder takes the sign of `x`. */
  function JsRem(x: real, m: real): real
    requires m != 0.0
  {
    x - m * (Trunc(x / m) as real)
  }

  /** The template literal `${minutes}:${seconds.toString().padStart(2, '0')}`. */
  function Show(minutes: int, seconds: int): string
  {
    IntToString(minutes) + ":" + PadStart(IntToString(seconds), 2, '0')
  }

  function FormatTime(t: Num): (r: string)
    ensures t.NaN? ==> r == "0:00"
  {
    match t
    case NaN => "0:00"
    case Finite(x) => Show(Minutes(x), Seconds(x))
  }

  /** `Math.floor(time / 60)`. */
  function Minutes(x: real): int { (x / 60.0).Floor }

  /** `Math.floor(time % 60)`. */
  function Seconds(x: real): int { JsRem(x, 60.0).Floor }

  /** Reading the digits back gives the number: `NatToString` and `DigitsValue` are inverse. */
  lemma {:induction false} NatToStringRoundTrip(n: nat)
    ensures IsDigits(NatToString(n)) && |NatToString(n)| >= 1
    ensures DigitsValue(NatToString(n)) == n
    ensures n < 10 <==> |NatToString(n)| == 1
    decreases n
  {
    var s := NatToString(n);
    if n >= 10 {
      NatToStringRoundTrip(n / 10);
      var p := NatToString(n / 10);
      assert s[..|s| - 1] == p;
    }
  }

  /** For a non-negative time, the seconds field splits the floor of the input into minutes and seconds. */
  lemma SplitMinutes(x: real) returns (m: nat, s: nat)
    requires x >= 0.0
    ensures m == Minutes(x) && s == Seconds(x)
    ensures s < 60 && m * 60 + s == x.Floor
  {
    m := (x / 60.0).Floor;
    assert Trunc(x / 60.0) == m;
    var rem := JsRem(x, 60.0);
    assert rem == x - 60.0 * (m as real);
    assert (m as real) <= x / 60.0 < (m as real) + 1.0;
    assert 0.0 <= rem < 60.0;
    s := rem.Floor;
    assert (s as real) <= rem < (s as real) + 1.0;
    assert ((m * 60 + s) as real) <= x < ((m * 60 + s) as real) + 1.0;
  }

  /** A seconds value below 60, padded, is two digits that read back as the value. */
  lemma TwoDigits(n: nat)
    requires n < 60
    ensures var p := PadStart(NatToString(n), 2, '0');
      |p| == 2 && IsDigits(p) && DigitsValue(p) == n
  {
    NatToStringRoundTrip(n);
    var p := PadStart(NatToString(n), 2, '0');
    if n < 10 {
      assert p == ['0', Digit(n)];
      assert p[..1] == ['0'];
    } else {
      NatToStringRoundTrip(n / 10);
    }
  }

  /** The text of natural minutes and seconds below 60 splits back into both numbers. */
  lemma ShowFields(m: nat, s: nat)
    requires s < 60
    ensures var r := Show(m, s);
      && |r| >= 4 && r[|r| - 3] == ':'
      && IsDigits(r[..|r| - 3]) && IsDigits(r[|r| - 2..])
      && DigitsValue(r[..|r| - 3]) == m && DigitsValue(r[|r| - 2..]) == s
  {
    NatToStringRoundTrip(m);
    TwoDigits(s);
    var ms := NatToString(m);
    var ss := PadStart(NatToString(s), 2, '0');
    var r := Show(m, s);
    assert r == ms + ":" + ss;
    assert r[..|r| - 3] == ms;
    assert r[|r| - 2..] == ss;
  }

  /**
   * `formatTime` of a non-negative time reads `M:SS`: a digit string of minutes,
   * a colon and exactly two digits of seconds below 60, and together they give
   * back the whole seconds of the input.
   */
  lemma FormatTimeFields(x: real)
    requires x >= 0.0
    ensures var r := FormatTime(Finite(x));
      && |r| >= 4 && r[|r| - 3] == ':'
      && IsDigits(r[..|r| - 3]) && IsDigits(r[|r| - 2..])
      && DigitsValue(r[|r| - 2..]) < 60
      && DigitsValue(r[..|r| - 3]) * 60 + DigitsValue(r[|r| - 2..]) == x.Floor
  {
    var m, s := SplitMinutes(x);
    assert FormatTime(Finite(x)) == Show(m, s);
    ShowFields(m, s);
  }

  /**
   * Below zero the two fields disagree in rounding: minutes round down while
   * JavaScript's `%` keeps the sign of the input, so -30 s reads "-1:-30".
   */
  lemma FormatTimeNegative()
    ensures FormatTime(Finite(-30.0)) == "-1:-30"
  {
    assert (-30.0 / 60.0).Floor == -1;
    assert Trunc(-30.0 / 60.0) == 0;
    assert JsRem(-30.0, 60.0).Floor == -30;
    assert NatToString(1) == "1";
    assert NatToString(30) == "3" + "0";
    assert Show(-1, -30) == "-1" + ":" + "-30";
  }
}
