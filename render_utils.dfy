/** Numeric and colour helpers of src/render_utils.py.

    That file has no `from __future__ import division`, so `/` between two
    Python ints floors there, while `/` with a float operand divides exactly
    (floating-point error is not modelled: floats are exact reals). */
module RenderUtils {
  import opened Wrappers

  /** A Python 2 number: an `int` or a `float`. */
  datatype Number = Int(i: int) | Float(f: real) {
    function Val(): real {
      match this
      case Int(i) => i as real
      case Float(f) => f
    }
  }

  /** `abs(n)`, which keeps an int an int and a float a float. */
  function Abs(n: Number): (r: Number)
    ensures r.Val() == if n.Val() < 0.0 then -n.Val() else n.Val()
    ensures r.Int? == n.Int?
  {
    match n
    case Int(i) => Int(if i < 0 then -i else i)
    case Float(f) => Float(if f < 0.0 then -f else f)
  }

  // ---------------------------------------------------------------------
  // Integer rounding primitives of Python 2
  // ---------------------------------------------------------------------

  /** Python 2 `round(x)`: to the nearest integer, halves away from zero. */
  function PyRound(x: real): (r: int)
    ensures x - 0.5 <= r as real <= x + 0.5
    ensures r as real == x + 0.5 ==> x > 0.0
    ensures r as real == x - 0.5 ==> x < 0.0
  {
    if x >= 0.0 then (x + 0.5).Floor else -((0.5 - x).Floor)
  }

  /** Rounding is symmetric about zero. */
  lemma PyRoundOdd(x: real)
    ensures PyRound(-x) == -PyRound(x)
  {
    if x == 0.0 {
    } else if x > 0.0 {
      assert -x < 0.0;
      assert 0.5 - (-x) == x + 0.5;
    } else {
      assert -x > 0.0;
      assert -x + 0.5 == 0.5 - x;
    }
  }

  /** `math.ceil(x)` as an integer. */
  function Ceil(x: real): (r: int)
    ensures (r as real) - 1.0 < x <= r as real
  {
    -((-x).Floor)
  }

  /** Python 2 `a / b` on two ints: floor division. */
  function FloorDiv(a: int, b: int): (q: int)
    requires b != 0
    ensures b > 0 ==> q * b <= a < q * b + b
    ensures b < 0 ==> q * b + b < a <= q * b
  {
    if b > 0 then a / b else (-a) / (-b)
  }

  // ---------------------------------------------------------------------
  // hexToRGB (src/render_utils.py:3-8)
  // ---------------------------------------------------------------------

  function HexDigit(c: char): (d: Option<nat>)
    ensures d.Some? ==> d.value < 16
  {
    if '0' <= c <= '9' then Some(c as int - '0' as int)
    else if 'a' <= c <= 'f' then Some(c as int - 'a' as int + 10)
    else if 'A' <= c <= 'F' then Some(c as int - 'A' as int + 10)
    else None
  }

  predicate IsHexDigits(s: string) {
    forall i :: 0 <= i < |s| ==> HexDigit(s[i]).Some?
  }

  /** The value of a string of hex digits, most significant first. */
  function HexValue(s: string): (v: nat)
    requires IsHexDigits(s)
    ensures v < Pow16(|s|)
  {
    if s == [] then 0
    else
      var d := HexDigit(s[|s| - 1]).value;
      HexValue(s[..|s| - 1]) * 16 + d
  }

  function Pow16(n: nat): (p: nat)
    ensures p >= 1
  {
    if n == 0 then 1 else 16 * Pow16(n - 1)
  }

  /** `int(s, 16)` for an optionally signed string of hex digits; anything
      else (in particular the empty string) raises `ValueError`. */
  function ParseHex(s: string): (r: Option<int>)
    ensures IsHexDigits(s) && s != [] ==> r == Some(HexValue(s))
    ensures s == [] ==> r == None
  {
    if s != [] && (s[0] == '-' || s[0] == '+') then
      var t := s[1..];
      if t != [] && IsHexDigits(t) then Some(if s[0] == '-' then -(HexValue(t) as int) else HexValue(t))
      else None
    else if s != [] && IsHexDigits(s) then Some(HexValue(s))
    else None
  }

  /** `s[i:j]` for non-negative bounds, which Python clamps to the length. */
  function Slice(s: string, i: nat, j: nat): (r: string)
    ensures j <= |s| && i <= j ==> r == s[i..j]
    ensures |r| <= |s|
  {
    var lo := if i <= |s| then i else |s|;
    var hi := if j <= |s| then j else |s|;
    if lo <= hi then s[lo..hi] else []
  }

  /** `digits * 'f'`. */
  function AllF(n: nat): (s: string)
    ensures |s| == n && IsHexDigits(s)
    ensures forall i :: 0 <= i < n ==> s[i] == 'f'
  {
    if n == 0 then [] else AllF(n - 1) + ['f']
  }

  lemma {:induction false} AllFValue(n: nat)
    ensures HexValue(AllF(n)) == Pow16(n) - 1
  {
    if n > 0 {
      assert AllF(n)[..n - 1] == AllF(n - 1);
      AllFValue(n - 1);
    }
  }

  /** `int(s[lo:lo+digits], 16)`, `None` where it raises. */
  function Field(s: string, lo: nat, digits: nat): Option<int> {
    ParseHex(Slice(s, lo, lo + digits))
  }

  /** One colour channel: the hex number in `s[lo:lo+digits]` over `upper`. */
  function Channel(s: string, lo: nat, digits: nat, upper: int): (r: Option<real>)
    requires upper > 0
  {
    match Field(s, lo, digits)
    case None => None
    case Some(v) => Some(v as real / upper as real)
  }

  /** `hexToRGB(hexstring, digits)`: the `digits`-wide hex fields after the
      first character, each divided by the largest `digits`-wide hex number.
      Any malformed field (or `digits == 0`) raises `ValueError`. */
  function HexToRGB(s: string, digits: nat): (r: Result<(real, real, real)>)
    ensures r.Err? ==> r.error == ValueError
    ensures digits == 0 ==> r.Err?
    ensures r.Ok? <==>
      digits > 0 && Field(s, 1, digits).Some? && Field(s, digits + 1, digits).Some? && Field(s, 2 * digits + 1, digits).Some?
    ensures r.Ok? ==>
      && r.value.0 == Field(s, 1, digits).value as real / (Pow16(digits) - 1) as real
      && r.value.1 == Field(s, digits + 1, digits).value as real / (Pow16(digits) - 1) as real
      && r.value.2 == Field(s, 2 * digits + 1, digits).value as real / (Pow16(digits) - 1) as real
  {
    match HexMax(digits)
    case None => Err(ValueError)
    case Some(upper) =>
      var r := Channel(s, 1, digits, upper);
      var g := Channel(s, digits + 1, digits, upper);
      var b := Channel(s, 2 * digits + 1, digits, upper);
      if r.None? || g.None? || b.None? then Err(ValueError)
      else Ok((r.value, g.value, b.value))
  }

  /** `int(digits * 'f', 16)`: the largest `digits`-wide hex number; for
      `digits == 0` the empty string raises `ValueError`. */
  function HexMax(digits: nat): (r: Option<int>)
    ensures digits == 0 <==> r.None?
    ensures r.Some? ==> r.value == Pow16(digits) - 1 && r.value >= 15
  {
    if digits == 0 then
      assert ParseHex(AllF(0)) == None;
      None
    else
      AllFValue(digits);
      assert Pow16(digits) == 16 * Pow16(digits - 1);
      ParseHex(AllF(digits))
  }

  /** For `'#'` (or any first character) followed by six hex digits, the
      default two-digit form yields the three channels over 255, each in [0, 1]. */
  lemma HexToRGBSixDigits(c: char, h: string)
    requires |h| == 6 && IsHexDigits(h)
    ensures var r := HexToRGB([c] + h, 2);
      && r.Ok?
      && r.value.0 == HexValue(h[0..2]) as real / 255.0
      && r.value.1 == HexValue(h[2..4]) as real / 255.0
      && r.value.2 == HexValue(h[4..6]) as real / 255.0
      && 0.0 <= r.value.0 <= 1.0 && 0.0 <= r.value.1 <= 1.0 && 0.0 <= r.value.2 <= 1.0
  {
    var s := [c] + h;
    assert s[1..3] == h[0..2];
    assert s[3..5] == h[2..4];
    assert s[5..7] == h[4..6];
    TwoDigitChannel(s, 1);
    TwoDigitChannel(s, 3);
    TwoDigitChannel(s, 5);
    AllFValue(2);
    assert Pow16(2) - 1 == 255;
  }

  /** A two-digit field is its value over 255, which lies in [0, 1]. */
  lemma TwoDigitChannel(s: string, lo: nat)
    requires lo + 2 <= |s| && IsHexDigits(s[lo..lo + 2])
    ensures Channel(s, lo, 2, 255) == Some(HexValue(s[lo..lo + 2]) as real / 255.0)
    ensures 0.0 <= HexValue(s[lo..lo + 2]) as real / 255.0 <= 1.0
  {
    assert Slice(s, lo, lo + 2) == s[lo..lo + 2];
    assert Pow16(2) == 256;
  }

  /** The first character is never read. */
  lemma HexToRGBSkipsFirst(c: char, d: char, t: string, digits: nat)
    ensures HexToRGB([c] + t, digits) == HexToRGB([d] + t, digits)
  {
    if digits > 0 {
      var s1, s2 := [c] + t, [d] + t;
      var upper := HexMax(digits).value;
      ChannelSkipsFirst(c, d, t, 1, digits, upper);
      ChannelSkipsFirst(c, d, t, digits + 1, digits, upper);
      ChannelSkipsFirst(c, d, t, 2 * digits + 1, digits, upper);
    }
  }

  lemma ChannelSkipsFirst(c: char, d: char, t: string, lo: nat, digits: nat, upper: int)
    requires lo >= 1 && upper > 0
    ensures Channel([c] + t, lo, digits, upper) == Channel([d] + t, lo, digits, upper)
  {
    SliceSkipsFirst(c, d, t, lo, lo + digits);
  }

  lemma SliceSkipsFirst(c: char, d: char, t: string, lo: nat, hi: nat)
    requires lo >= 1
    ensures Slice([c] + t, lo, hi) == Slice([d] + t, lo, hi)
  {
    var s1, s2 := [c] + t, [d] + t;
    assert forall k :: 1 <= k < |s1| ==> s1[k] == s2[k];
  }

  /** White, `"#ffffff"` (any first character, six `f` digits), is `(1, 1, 1)`. */
  lemma HexToRGBWhite(c: char)
    ensures HexToRGB([c] + AllF(6), 2) == Ok((1.0, 1.0, 1.0))
  {
    var h := AllF(6);
    WhiteFields(h);
    HexToRGBSixDigits(c, h);
  }

  lemma WhiteFields(h: string)
    requires h == AllF(6)
    ensures HexValue(h[0..2]) == 255 && HexValue(h[2..4]) == 255 && HexValue(h[4..6]) == 255
  {
    var ff := AllF(2);
    assert h[0..2] == ff && h[2..4] == ff && h[4..6] == ff;
    AllFValue(2);
    assert Pow16(2) == 256;
  }

  // ---------------------------------------------------------------------
  // dehumanizeRotation (src/render_utils.py:23-32)
  // ---------------------------------------------------------------------

  /** A rotation as a caller gives it: a number of degrees or a name. */
  datatype Rotation = Angle(degrees: Number) | Named(name: string)

  /** Numbers are passed through; the four known names map to degrees and any
      other name raises `KeyError`. */
  function DehumanizeRotation(rot: Rotation): (r: Result<Number>)
    ensures rot.Angle? ==> r == Ok(rot.degrees)
    ensures rot == Named("horizontal") ==> r == Ok(Int(0))
    ensures rot == Named("vertical") ==> r == Ok(Int(-90))
    ensures rot == Named("diagonal") ==> r == Ok(Int(-45))
    ensures rot == Named("ooh-ahh just a little bit") ==> r == Ok(Int(15))
    ensures rot.Named? && rot.name !in KnownRotations ==> r == Err(KeyError)
  {
    match rot
    case Angle(n) => Ok(n)
    case Named(name) =>
      if name == "horizontal" then Ok(Int(0))
      else if name == "vertical" then Ok(Int(-90))
      else if name == "diagonal" then Ok(Int(-45))
      else if name == "ooh-ahh just a little bit" then Ok(Int(15))
      else Err(KeyError)
  }

  const KnownRotations: set<string> :=
    {"horizontal", "vertical", "diagonal", "ooh-ahh just a little bit"}

  // ---------------------------------------------------------------------
  // frange (src/render_utils.py:34-37)
  // ---------------------------------------------------------------------

  /** `list(frange(lower, upper, inc))`: `ceil((upper - lower) / inc)` values
      (none if that is not positive) stepping from `lower` by `inc`;
      a zero increment raises `ZeroDivisionError`. */
  function Frange(lower: real, upper: real, inc: real): (r: Result<seq<real>>)
    ensures r.Err? <==> inc == 0.0
    ensures r.Err? ==> r.error == ZeroDivisionError
    ensures r.Ok? ==> |r.value| == (var c := Ceil((upper - lower) / inc); if c < 0 then 0 else c)
    ensures r.Ok? ==> forall n :: 0 <= n < |r.value| ==> r.value[n] == lower + (n as real) * inc
  {
    if inc == 0.0 then Err(ZeroDivisionError)
    else
      var c := Ceil((upper - lower) / inc);
      Ok(seq(if c < 0 then 0 else c, n => lower + (n as real) * inc))
  }

  /** With a positive increment every value lies in `[lower, upper)`. */
  lemma FrangeBounds(lower: real, upper: real, inc: real)
    requires inc > 0.0
    ensures forall v :: v in Frange(lower, upper, inc).value ==> lower <= v < upper
  {
    var vs := Frange(lower, upper, inc).value;
    var q := (upper - lower) / inc;
    assert q * inc == upper - lower;
    forall n | 0 <= n < |vs|
      ensures lower <= vs[n] < upper
    {
      var x := n as real;
      assert n < Ceil(q);
      assert x < q;
      NonNegProduct(x, inc);
      StrictMul(x, q, inc);
    }
  }

  lemma NonNegProduct(x: real, y: real)
    requires x >= 0.0 && y >= 0.0
    ensures x * y >= 0.0
  {
  }

  lemma StrictMul(x: real, q: real, c: real)
    requires x < q && c > 0.0
    ensures x * c < q * c
  {
  }

  // ---------------------------------------------------------------------
  // safe_min / safe_max (src/render_utils.py:39-49)
  // ---------------------------------------------------------------------

  /** `min(s)` (the first least element), or 0 when `min` raises on an empty list. */
  function SafeMin(s: seq<Number>): (r: Number)
    ensures s == [] ==> r == Int(0)
    ensures s != [] ==> r in s && forall i :: 0 <= i < |s| ==> r.Val() <= s[i].Val()
    ensures s != [] ==> exists k :: 0 <= k < |s| && s[k] == r && forall j :: 0 <= j < k ==> s[j].Val() > r.Val()
  {
    if s == [] then Int(0)
    else if |s| == 1 then s[0]
    else
      var m := SafeMin(s[..|s| - 1]);
      assert forall i :: 0 <= i < |s| - 1 ==> s[..|s| - 1][i] == s[i];
      if s[|s| - 1].Val() < m.Val() then s[|s| - 1] else m
  }

  /** `max(s)` (the first greatest element), or 0 when `max` raises on an empty list. */
  function SafeMax(s: seq<Number>): (r: Number)
    ensures s == [] ==> r == Int(0)
    ensures s != [] ==> r in s && forall i :: 0 <= i < |s| ==> s[i].Val() <= r.Val()
    ensures s != [] ==> exists k :: 0 <= k < |s| && s[k] == r && forall j :: 0 <= j < k ==> s[j].Val() < r.Val()
  {
    if s == [] then Int(0)
    else if |s| == 1 then s[0]
    else
      var m := SafeMax(s[..|s| - 1]);
      assert forall i :: 0 <= i < |s| - 1 ==> s[..|s| - 1][i] == s[i];
      if s[|s| - 1].Val() > m.Val() then s[|s| - 1] else m
  }

  // ---------------------------------------------------------------------
  // roundUpToNearest (src/render_utils.py:51-52)
  // ---------------------------------------------------------------------

  /** `int(round(((value + (nearest - 1)) / nearest) * nearest))`. For an int
      the division floors; for a float it is exact (see
      `RoundUpToNearestFloat`). */
  function RoundUpToNearest(value: Number, nearest: int): (r: int)
    requires nearest != 0
  {
    match value
    case Int(v) => FloorDiv(v + (nearest - 1), nearest) * nearest
    case Float(v) => PyRound((v + (nearest - 1) as real) / nearest as real * nearest as real)
  }

  /** On ints with a positive `nearest`, the result is the least multiple of
      `nearest` that is at least `value`. */
  lemma RoundUpToNearestIsLeastMultiple(v: int, n: int)
    requires n > 0
    ensures var r := RoundUpToNearest(Int(v), n);
      r % n == 0 && v <= r && r - n < v
  {
    var q := FloorDiv(v + (n - 1), n);
    assert q * n <= v + n - 1 < q * n + n;
    assert (q * n) % n == 0 by { MultipleMod(q, n); }
  }

  lemma MultipleMod(q: int, n: int)
    requires n > 0
    ensures (q * n) % n == 0
  {
    var a := q * n;
    var k := a / n - q;
    assert k * n == -(a % n) by {
      assert a == (a / n) * n + a % n;
      assert (a / n) * n - q * n == (a / n - q) * n;
    }
    if k >= 1 {
      MulAtLeast(k, n);
    } else if k <= -1 {
      MulAtLeast(-k, n);
    }
  }

  lemma MulAtLeast(k: int, n: int)
    requires k >= 1 && n > 0
    ensures k * n >= n
  {
    assert k * n == (k - 1) * n + n;
    assert (k - 1) * n >= 0;
  }

  /** Rounding a multiple of `nearest` returns it unchanged, so the operation
      is idempotent on ints. */
  lemma RoundUpToNearestIdempotent(v: int, n: int)
    requires n > 0
    ensures RoundUpToNearest(Int(RoundUpToNearest(Int(v), n)), n) == RoundUpToNearest(Int(v), n)
    ensures RoundUpToNearest(Int(0), n) == 0
  {
    var r := RoundUpToNearest(Int(v), n);
    RoundUpToNearestIsLeastMultiple(v, n);
    RoundUpToNearestIsLeastMultiple(r, n);
    var r2 := RoundUpToNearest(Int(r), n);
    MultipleBetween(r, r2, n);
    RoundUpToNearestIsLeastMultiple(0, n);
    MultipleBetween(0, RoundUpToNearest(Int(0), n), n);
  }

  /** Two multiples of `n` less than `n` apart are equal. */
  lemma MultipleBetween(a: int, b: int, n: int)
    requires n > 0 && a % n == 0 && b % n == 0 && a <= b < a + n
    ensures a == b
  {
    var qa, qb := a / n, b / n;
    assert a == qa * n by { assert a == (a / n) * n + a % n; }
    assert b == qb * n by { assert b == (b / n) * n + b % n; }
    var k := qb - qa;
    assert b - a == k * n by { assert qb * n - qa * n == (qb - qa) * n; }
    if k >= 1 {
      MulAtLeast(k, n);
    } else if k <= -1 {
      MulAtLeast(-k, n);
    }
  }

  /** On a float the result is `round(value + nearest - 1)`, which need not be
      a multiple of `nearest`: 8.6 becomes 13. */
  lemma RoundUpToNearestFloat(v: real, n: int)
    requires n != 0
    ensures RoundUpToNearest(Float(v), n) == PyRound(v + (n - 1) as real)
    ensures RoundUpToNearest(Float(8.6), 5) == 13
    ensures RoundUpToNearest(Float(10.5), 5) == 15
  {
    var x := v + (n - 1) as real;
    assert x / n as real * n as real == x;
    var y := 8.6 + 4.0;
    assert y / 5.0 * 5.0 == y;
    var z := 10.5 + 4.0;
    assert z / 5.0 * 5.0 == z;
  }

  /** A non-negative value never rounds below zero (as `getWindow` needs). */
  lemma RoundUpToNearestNonNeg(value: Number, n: int)
    requires n > 0 && value.Val() >= 0.0
    ensures RoundUpToNearest(value, n) >= 0
    ensures value.Val() > 0.0 && n > 1 ==> RoundUpToNearest(value, n) > 0
    ensures value.Val() == 0.0 && value.Int? ==> RoundUpToNearest(value, n) == 0
  {
    match value
    case Int(v) =>
      RoundUpToNearestIsLeastMultiple(v, n);
      if v == 0 {
        MultipleBetween(0, RoundUpToNearest(value, n), n);
      }
    case Float(v) =>
      RoundUpToNearestFloat(v, n);
  }
}
