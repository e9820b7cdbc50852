/** The axis model of src/axis.py: how an axis splits its data by sign,
    chooses its value window, places its zero line and maps values to canvas
    points, and which tick values it decorates.

    Measurements that come from font metrics (`dimensions`), the canvas
    geometry and the scheme's padding and step count are plain inputs. */
module Axis {
  import opened Wrappers
  import opened RenderUtils
  import opened Graph
  import PyLists

  datatype Orientation = Horizontal | Vertical
  datatype AxisType = Independent | Dependent
  /** Where a decoration is drawn: on a value (`'whole'`) or between two (`'half'`). */
  datatype Tick = Whole | Half
  /** A tick, label or gridline object attached with `importDecoration`. */
  datatype Decoration = Decoration(tick: Tick)
  /** The `(min, max)` value window. */
  datatype Window = Window(min: real, max: real)
  datatype Point = Point(x: real, y: real)
  /** One decorated position: the value rendered and the point it is drawn at. */
  datatype TickMark = TickMark(value: Title, point: Point)

  /** A window around zero, as `getWindow` always produces. */
  type AxisWindow = w: Window | w.min <= 0.0 <= w.max witness Window(0.0, 0.0)

  /** The scheme's `format.steps`: the number of grid steps (4 by default). */
  type Steps = n: int | 0 < n witness 4

  function AbsR(x: real): (r: real)
    ensures r >= 0.0 && (r == x || r == -x)
  {
    if x < 0.0 then -x else x
  }

  // ---------------------------------------------------------------------
  // __sortData and isAxisNumeric (src/axis.py:42-52, 85-93)
  // ---------------------------------------------------------------------

  /** `v > 0` in Python 2, where every string compares greater than a number. */
  predicate IsPositive(t: Title) {
    t.Str? || t.n.Val() > 0.0
  }

  /** `v < 0` in Python 2: never true of a string. */
  predicate IsNegative(t: Title) {
    t.Num? && t.n.Val() < 0.0
  }

  /** All data values of the categories, category after category. */
  function DataValues(cats: seq<Category>): seq<Number> {
    if cats == [] then [] else DataValues(cats[..|cats| - 1]) + cats[|cats| - 1].values
  }

  function AsTitles(vs: seq<Number>): (ts: seq<Title>)
    ensures |ts| == |vs|
    ensures forall i :: 0 <= i < |vs| ==> ts[i] == Num(vs[i])
  {
    seq(|vs|, i requires 0 <= i < |vs| => Num(vs[i]))
  }

  /** The values that are sorted by sign: a dependent axis sorts every data
      value, an independent axis sorts its category titles. */
  function SortSet(kind: AxisType, cats: seq<Category>): seq<Title> {
    if kind == Dependent then AsTitles(DataValues(cats)) else TitlesOf(cats)
  }

  /** The numbers among `ts`, in order. */
  function Numbers(ts: seq<Title>): (ns: seq<Number>)
    ensures |ns| <= |ts|
    ensures forall j :: 0 <= j < |ns| ==> Num(ns[j]) in ts
    ensures ts == [] ==> ns == []
  {
    if ts == [] then []
    else (if ts[0].Num? then [ts[0].n] else []) + Numbers(ts[1..])
  }

  /** `isAxisNumeric`: no string among the positive or negative data. */
  predicate IsAxisNumeric(pos: seq<Title>, neg: seq<Title>) {
    (forall i :: 0 <= i < |pos| ==> pos[i].Num?) && (forall i :: 0 <= i < |neg| ==> neg[i].Num?)
  }

  /** The positive data are exactly the values above zero (and all strings),
      the negative data exactly the numbers below zero; a zero is in neither. */
  lemma SortDataSplit(kind: AxisType, cats: seq<Category>, t: Title)
    requires t in SortSet(kind, cats)
    ensures t in PyLists.Filter(SortSet(kind, cats), IsPositive) <==> IsPositive(t)
    ensures t in PyLists.Filter(SortSet(kind, cats), IsNegative) <==> IsNegative(t)
    ensures t.Num? && t.n.Val() == 0.0 ==>
      t !in PyLists.Filter(SortSet(kind, cats), IsPositive) && t !in PyLists.Filter(SortSet(kind, cats), IsNegative)
  {
  }

  /** A dependent axis sorts only numbers, so it is always numeric; an
      independent axis with a string title is not. */
  lemma NumericAxes(cats: seq<Category>)
    ensures var s := SortSet(Dependent, cats);
      IsAxisNumeric(PyLists.Filter(s, IsPositive), PyLists.Filter(s, IsNegative))
    ensures var s := SortSet(Independent, cats);
      (exists i :: 0 <= i < |cats| && cats[i].title.Str?) ==>
        !IsAxisNumeric(PyLists.Filter(s, IsPositive), PyLists.Filter(s, IsNegative))
  {
    var s := SortSet(Dependent, cats);
    var p := PyLists.Filter(s, IsPositive);
    var n := PyLists.Filter(s, IsNegative);
    forall i | 0 <= i < |p|
      ensures p[i].Num?
    {
      assert p[i] in s;
    }
    forall i | 0 <= i < |n|
      ensures n[i].Num?
    {
      assert n[i] in s;
    }
    var t := SortSet(Independent, cats);
    if i :| 0 <= i < |cats| && cats[i].title.Str? {
      assert IsPositive(t[i]);
      assert t[i] in PyLists.Filter(t, IsPositive);
    }
  }

  // ---------------------------------------------------------------------
  // getWindow (src/axis.py:95-123)
  // ---------------------------------------------------------------------

  /** The positive bound: rounded up to a multiple of 5 below 100. */
  function RoundedMax(pos: seq<Number>): real {
    var pmax := SafeMax(pos);
    if pmax.Val() < 100.0 then RoundUpToNearest(pmax, 5) as real else pmax.Val()
  }

  /** The negative bound: its magnitude rounded up to a multiple of 5. */
  function RoundedMin(neg: seq<Number>): real {
    var pmin := SafeMin(neg);
    if pmin.Val() < 100.0 then -(RoundUpToNearest(Abs(pmin), 5) as real) else pmin.Val()
  }

  /** With both bounds nonzero, the smaller side is snapped to the step grid
      of the larger side (`larger / steps`). */
  function Rescale(pmin: real, pmax: real, steps: Steps): Window {
    if pmin != 0.0 && pmax != 0.0 then
      if AbsR(pmin) < pmax then
        var step := pmax / steps as real;
        Window(step * PyRound(pmin / step) as real, pmax)
      else
        var step := pmin / steps as real;
        Window(pmin, step * PyRound(pmax / step) as real)
    else Window(pmin, pmax)
  }

  /** `getWindow()`: the categorical window counts titles by sign, the value
      window rounds and rescales the extreme data values. */
  function GetWindow(kind: AxisType, pos: seq<Title>, neg: seq<Title>, steps: Steps): Window {
    if kind == Independent then Window(-(|neg| as real), |pos| as real)
    else Rescale(RoundedMin(Numbers(neg)), RoundedMax(Numbers(pos)), steps)
  }

  /** `x` is a whole number of `step`s. */
  predicate OnGrid(x: real, step: real) {
    step != 0.0 && (x / step).Floor as real == x / step
  }

  /** Rounding an integer gives it back. */
  lemma PyRoundInt(n: int)
    ensures PyRound(n as real) == n
  {
  }

  /** Rounding a value that is at most zero gives at most zero. */
  lemma PyRoundNonPos(x: real)
    requires x <= 0.0
    ensures PyRound(x) <= 0
  {
  }

  lemma OnGridMultiple(step: real, k: int)
    requires step != 0.0
    ensures OnGrid(step * k as real, step)
  {
    assert (step * k as real) / step == k as real;
  }

  /** When `|min| < max`, `min` is snapped to the grid of `max / steps`,
      stays at most zero, and `max` is kept. */
  lemma RescaleMinSide(pmin: real, pmax: real, steps: Steps)
    requires pmin < 0.0 < pmax && -pmin < pmax
    ensures var w := Rescale(pmin, pmax, steps);
      w.max == pmax && w.min <= 0.0 && OnGrid(w.min, pmax / steps as real)
  {
    var step := pmax / steps as real;
    var k := PyRound(pmin / step);
    assert Rescale(pmin, pmax, steps).min == step * k as real;
    PyRoundNonPos(pmin / step);
    assert step * k as real <= 0.0 by {
      assert -(step * k as real) == step * (-k) as real;
      NonNegProduct(step, (-k) as real);
    }
    OnGridMultiple(step, k);
  }

  /** Otherwise `max` is snapped to the grid of `min / steps` (a negative
      step), stays at least zero, and `min` is kept. */
  lemma RescaleMaxSide(pmin: real, pmax: real, steps: Steps)
    requires pmin < 0.0 < pmax && -pmin >= pmax
    ensures var w := Rescale(pmin, pmax, steps);
      w.min == pmin && w.max >= 0.0 && OnGrid(w.max, pmin / steps as real)
  {
    var step := pmin / steps as real;
    var k := PyRound(pmax / step);
    assert Rescale(pmin, pmax, steps) == Window(pmin, step * k as real);
    assert step < 0.0;
    QuotientByNegative(pmax, step);
    PyRoundNonPos(pmax / step);
    assert step * k as real >= 0.0 by {
      assert step * k as real == (-step) * (-k) as real;
      NonNegProduct(-step, (-k) as real);
    }
    OnGridMultiple(step, k);
  }

  lemma QuotientByNegative(a: real, b: real)
    requires a >= 0.0 && b < 0.0
    ensures a / b <= 0.0
  {
    var c := -b;
    assert a / b == -(a / c);
  }

  lemma NextMultiple(u: real, i: int)
    ensures u * (i + 1) as real - u * i as real == u
  {
  }

  /** When every title is a string, every title is positive data, none is
      negative, the axis is not numeric, and the window is `(0, #titles)`. */
  lemma StringTitlesWindow(cats: seq<Category>, steps: Steps)
    requires forall j :: 0 <= j < |cats| ==> cats[j].title.Str?
    ensures var s := SortSet(Independent, cats);
      var pos := PyLists.Filter(s, IsPositive);
      var neg := PyLists.Filter(s, IsNegative);
      && pos == s && neg == []
      && (|cats| > 0 ==> !IsAxisNumeric(pos, neg))
      && GetWindow(Independent, pos, neg, steps) == Window(0.0, |cats| as real)
  {
    var s := SortSet(Independent, cats);
    assert forall j :: 0 <= j < |s| ==> s[j] == cats[j].title;
    PyLists.FilterAllOrNone(s, IsPositive);
    PyLists.FilterAllOrNone(s, IsNegative);
    if |cats| > 0 {
      assert !s[0].Num?;
    }
  }

  /** On a tie `|min| == max`, `max` is recomputed to its own value. */
  lemma RescaleTie(pmin: real, steps: Steps)
    requires pmin < 0.0
    ensures Rescale(pmin, -pmin, steps) == Window(pmin, -pmin)
  {
    var s := steps as real;
    var step := pmin / s;
    assert -pmin / step == -s by {
      DivByQuotient(-pmin, pmin, s);
      assert -pmin * s / pmin == -s;
    }
    PyRoundInt(-(steps as int));
    assert step * (-(steps as int)) as real == -pmin;
  }

  /** `Rescale` keeps the window around zero, leaves a window with a zero
      bound alone, and snaps exactly one side to the other's grid. */
  lemma RescaleEffect(pmin: real, pmax: real, steps: Steps)
    requires pmin <= 0.0 <= pmax
    ensures var w := Rescale(pmin, pmax, steps);
      && w.min <= 0.0 <= w.max
      && (pmin == 0.0 || pmax == 0.0 ==> w == Window(pmin, pmax))
  {
    if pmin != 0.0 && pmax != 0.0 {
      if -pmin < pmax {
        RescaleMinSide(pmin, pmax, steps);
      } else {
        RescaleMaxSide(pmin, pmax, steps);
      }
    }
  }

  /** Every positive datum is above zero, every negative datum below. */
  predicate SignedData(pos: seq<Title>, neg: seq<Title>) {
    (forall i :: 0 <= i < |pos| ==> IsPositive(pos[i])) && (forall i :: 0 <= i < |neg| ==> IsNegative(neg[i]))
  }

  lemma NumbersSigned(pos: seq<Title>, neg: seq<Title>)
    requires SignedData(pos, neg)
    ensures forall j :: 0 <= j < |Numbers(pos)| ==> Numbers(pos)[j].Val() > 0.0
    ensures forall j :: 0 <= j < |Numbers(neg)| ==> Numbers(neg)[j].Val() < 0.0
  {
    forall j | 0 <= j < |Numbers(pos)|
      ensures Numbers(pos)[j].Val() > 0.0
    {
      assert Num(Numbers(pos)[j]) in pos;
    }
    forall j | 0 <= j < |Numbers(neg)|
      ensures Numbers(neg)[j].Val() < 0.0
    {
      assert Num(Numbers(neg)[j]) in neg;
    }
  }

  /** The rounded bounds keep their signs; the guard `p_min < 100` always holds;
      no data on a side gives a zero bound. */
  lemma RoundedBounds(pos: seq<Number>, neg: seq<Number>)
    requires forall j :: 0 <= j < |pos| ==> pos[j].Val() > 0.0
    requires forall j :: 0 <= j < |neg| ==> neg[j].Val() < 0.0
    ensures RoundedMax(pos) >= 0.0 && RoundedMin(neg) <= 0.0
    ensures SafeMin(neg).Val() < 100.0
    ensures RoundedMin(neg) == -(RoundUpToNearest(Abs(SafeMin(neg)), 5) as real)
    ensures pos == [] ==> RoundedMax(pos) == 0.0
    ensures neg == [] ==> RoundedMin(neg) == 0.0
    ensures SafeMax(pos).Val() >= 100.0 ==> RoundedMax(pos) == SafeMax(pos).Val()
  {
    var pmax := SafeMax(pos);
    assert pmax.Val() >= 0.0;
    if pmax.Val() < 100.0 {
      RoundUpToNearestNonNeg(pmax, 5);
    }
    var pmin := SafeMin(neg);
    assert pmin.Val() <= 0.0;
    RoundUpToNearestNonNeg(Abs(pmin), 5);
  }

  /** The window of sorted data: `min <= 0 <= max`; no negative data gives
      `min == 0`, no positive data `max == 0`; an independent window counts
      the titles on each side. */
  lemma WindowSigns(kind: AxisType, pos: seq<Title>, neg: seq<Title>, steps: Steps)
    requires SignedData(pos, neg)
    ensures var w := GetWindow(kind, pos, neg, steps);
      && w.min <= 0.0 <= w.max
      && (neg == [] ==> w.min == 0.0)
      && (pos == [] ==> w.max == 0.0)
      && (kind == Independent ==> w.min == -(|neg| as real) && w.max == |pos| as real)
  {
    if kind == Dependent {
      NumbersSigned(pos, neg);
      RoundedBounds(Numbers(pos), Numbers(neg));
      RescaleEffect(RoundedMin(Numbers(neg)), RoundedMax(Numbers(pos)), steps);
    }
  }

  /** The sign split satisfies `SignedData`. */
  lemma SortedDataSigned(kind: AxisType, cats: seq<Category>)
    ensures var s := SortSet(kind, cats);
      SignedData(PyLists.Filter(s, IsPositive), PyLists.Filter(s, IsNegative))
  {
  }

  /** With only positive integer data below 100, the window is `(0, m)` where
      `m` is the least multiple of 5 at or above the largest datum; from 100
      on the largest datum is kept as it is. */
  lemma WindowOfPositiveData(pos: seq<Title>, steps: Steps)
    requires SignedData(pos, [])
    ensures var w := GetWindow(Dependent, pos, [], steps);
      var top := SafeMax(Numbers(pos));
      && w.min == 0.0
      && (top.Int? && top.Val() < 100.0 ==>
            var m := w.max.Floor;
            m as real == w.max && m % 5 == 0 && top.i <= m && m - 5 < top.i)
      && (top.Val() >= 100.0 ==> w.max == top.Val())
  {
    NumbersSigned(pos, []);
    RoundedBounds(Numbers(pos), []);
    RescaleEffect(RoundedMin([]), RoundedMax(Numbers(pos)), steps);
    var top := SafeMax(Numbers(pos));
    if top.Int? && top.Val() < 100.0 {
      RoundUpToNearestIsLeastMultiple(top.i, 5);
    }
  }

  /** Positive data can vanish from the window: with integer data 1 and -1000
      the positive bound 5 snaps to the grid step -250 and becomes 0. */
  lemma WindowDropsSmallPositiveSide()
    ensures GetWindow(Dependent, [Num(Int(1))], [Num(Int(-1000))], 4) == Window(-1000.0, 0.0)
  {
    assert Numbers([Num(Int(1))]) == [Int(1)];
    assert Numbers([Num(Int(-1000))]) == [Int(-1000)];
    assert RoundUpToNearest(Int(1), 5) == 5 by {
      assert FloorDiv(5, 5) == 1;
    }
    assert RoundUpToNearest(Int(1000), 5) == 1000 by {
      assert FloorDiv(1004, 5) == 200;
    }
    assert PyRound(5.0 / -250.0) == 0;
  }

  // ---------------------------------------------------------------------
  // __getPositioningRatio and relZero (src/axis.py:125-138, 163-178)
  // ---------------------------------------------------------------------

  /** `__getPositioningRatio()`. */
  function PositioningRatio(w: Window): real {
    if w.min == 0.0 then w.max
    else if w.max == 0.0 then AbsR(w.min)
    else if w.max >= w.min then w.max / AbsR(w.min)
    else AbsR(w.min) / w.max
  }

  /** For a window around zero the ratio is never negative and is
      `max / |min|` when both bounds are nonzero (the last branch of the
      source is unreachable). */
  lemma PositioningRatioOfWindow(w: Window)
    requires w.min <= 0.0 <= w.max
    ensures PositioningRatio(w) >= 0.0
    ensures w.min == 0.0 ==> PositioningRatio(w) == w.max
    ensures w.min < 0.0 && w.max == 0.0 ==> PositioningRatio(w) == -w.min
    ensures w.min < 0.0 && w.max > 0.0 ==> PositioningRatio(w) == w.max / -w.min
  {
    if w.min < 0.0 && w.max > 0.0 {
      assert w.max / -w.min > 0.0;
    }
  }

  /** `length / d` lies in `[0, length]` when `d >= 1`. */
  lemma ShareOfLength(len: real, d: real)
    requires len >= 0.0 && d >= 1.0
    ensures 0.0 <= len / d <= len
  {
    var q := len / d;
    assert q * d == len;
  }

  /** `relZero` from the axis's numeric flag, window and length. */
  function RelZeroOf(numeric: bool, w: Window, length: Result<real>): (r: Result<real>)
    ensures w.min <= 0.0 <= w.max ==>
      (r.Err? <==> numeric && PositioningRatio(w) != w.max && PositioningRatio(w) != AbsR(w.min) && length.Err?)
    ensures w.min <= 0.0 <= w.max && r.Err? ==> r == Err(length.error)
    ensures !numeric || w.min == 0.0 || w.max == 0.0 ==> r == Ok(0.0)
    ensures w.min <= 0.0 <= w.max && r.Ok? && length.Ok? && length.value >= 0.0 ==>
      0.0 <= r.value <= length.value
  {
    var ratio := PositioningRatio(w);
    if !numeric then Ok(0.0)
    else if ratio == w.max || ratio == AbsR(w.min) then Ok(0.0)
    else
      var len :- length;
      if ratio + 1.0 == 0.0 then Err(ZeroDivisionError)
      else if w.max < w.min then Ok(len / (ratio + 1.0) * ratio)
      else
        assert w.min <= 0.0 <= w.max && len >= 0.0 ==> 0.0 <= len / (ratio + 1.0) <= len by {
          if w.min <= 0.0 <= w.max && len >= 0.0 {
            PositioningRatioOfWindow(w);
            ShareOfLength(len, ratio + 1.0);
          }
        }
        Ok(len / (ratio + 1.0))
  }

  /** Away from the special cases the zero line divides the length in the
      proportion of the two bounds: `relZero = length * |min| / (|min| + max)`. */
  lemma RelZeroProportion(w: Window, len: real)
    requires w.min < 0.0 < w.max
    requires PositioningRatio(w) != w.max && PositioningRatio(w) != -w.min
    ensures RelZeroOf(true, w, Ok(len)) == Ok(len * -w.min / (-w.min + w.max))
  {
    var m := -w.min;
    RelZeroInterior(w, len);
    ShareOfBounds(len, w.max, m);
    assert len / (w.max / m + 1.0) == len * m / (m + w.max);
    assert len * m / (m + w.max) == len * -w.min / (-w.min + w.max);
  }

  /** The interior case of `relZero`: `length / (max / |min| + 1)`. */
  lemma RelZeroInterior(w: Window, len: real)
    requires w.min < 0.0 < w.max
    requires PositioningRatio(w) != w.max && PositioningRatio(w) != -w.min
    ensures RelZeroOf(true, w, Ok(len)) == Ok(len / (w.max / -w.min + 1.0))
  {
    PositioningRatioOfWindow(w);
    assert w.max / -w.min > 0.0;
    assert AbsR(w.min) == -w.min;
  }

  lemma ShareOfBounds(len: real, a: real, m: real)
    requires a > 0.0 && m > 0.0
    ensures len / (a / m + 1.0) == len * m / (m + a)
  {
    assert a / m + 1.0 == (a + m) / m by {
      assert m / m == 1.0;
      assert (a + m) / m == a / m + m / m;
    }
    DivByQuotient(len, a + m, m);
  }

  lemma DivByQuotient(a: real, b: real, c: real)
    requires b != 0.0 && c != 0.0
    ensures a / (b / c) == a * c / b
  {
    var q := b / c;
    assert q * c == b;
    assert (a * c / b) * q == a by {
      assert (a * c / b) * b == a * c;
      assert (a * c / b) * q * c == a * c;
    }
  }

  /** The zero line falls on the border whenever the ratio happens to equal a
      bound: the data 12.0 and -0.5 give the window `(-4, 16)`, ratio 4, and
      `relZero` 0 although the window has a negative part. */
  lemma RelZeroWhenRatioEqualsBound(len: real)
    ensures GetWindow(Dependent, [Num(Float(12.0))], [Num(Float(-0.5))], 4) == Window(-4.0, 16.0)
    ensures RelZeroOf(true, Window(-4.0, 16.0), Ok(len)) == Ok(0.0)
  {
    assert Numbers([Num(Float(12.0))]) == [Float(12.0)];
    assert Numbers([Num(Float(-0.5))]) == [Float(-0.5)];
    assert PyRound(16.0) == 16;
    assert PyRound(4.5) == 5;
    assert PyRound(-5.0 / 4.0) == -1;
    assert PositioningRatio(Window(-4.0, 16.0)) == 4.0;
  }

  // ---------------------------------------------------------------------
  // The Axis object (src/axis.py:26-40, 140-323, 389-390)
  // ---------------------------------------------------------------------

  class Axis {
    const kind: AxisType
    const orientation: Orientation
    const categories: seq<Category>
    /** `canvas_dimensions` and `canvas_position` of the axes' layer. */
    const canvasDimensions: (real, real)
    const canvasPosition: (real, real)
    /** The measured label extent (`getDimensions()`), taken as an input. */
    const dimensions: real
    /** The axes scheme's `padding`. */
    const padding: real
    const steps: Steps
    const fixPosition: bool
    const bucketMode: bool

    /** `titles`, which the source sets for an independent axis only. */
    const titles: seq<Title>
    const positiveData: seq<Title>
    const negativeData: seq<Title>
    const axisNumeric: bool
    const window: AxisWindow

    /** The axis this one intersects; `null` until `interceptAxis`. */
    var intercept: Axis?
    var decorations: seq<Decoration>

    constructor (kind: AxisType, orientation: Orientation, categories: seq<Category>,
                 canvasDimensions: (real, real), canvasPosition: (real, real),
                 dimensions: real, padding: real, steps: Steps, fixPosition: bool, bucketMode: bool)
      ensures this.kind == kind && this.orientation == orientation && this.categories == categories
      ensures this.canvasDimensions == canvasDimensions && this.canvasPosition == canvasPosition
      ensures this.dimensions == dimensions && this.padding == padding && this.steps == steps
      ensures this.fixPosition == fixPosition && this.bucketMode == bucketMode
      ensures intercept == null && decorations == []
      ensures Derived()
    {
      this.kind := kind;
      this.orientation := orientation;
      this.categories := categories;
      this.canvasDimensions := canvasDimensions;
      this.canvasPosition := canvasPosition;
      this.dimensions := dimensions;
      this.padding := padding;
      this.steps := steps;
      this.fixPosition := fixPosition;
      this.bucketMode := bucketMode;
      var s := SortSet(kind, categories);
      var pos := PyLists.Filter(s, IsPositive);
      var neg := PyLists.Filter(s, IsNegative);
      var w := GetWindow(kind, pos, neg, steps);
      assert w.min <= 0.0 <= w.max by {
        SortedDataSigned(kind, categories);
        WindowSigns(kind, pos, neg, steps);
      }
      titles := TitlesOf(categories);
      positiveData := pos;
      negativeData := neg;
      axisNumeric := IsAxisNumeric(pos, neg);
      window := w;
      intercept := null;
      decorations := [];
    }

    /** The fields `__init__` derives from the categories: the titles, the
        sign split of the data, the numeric flag and the window. */
    predicate Derived() {
      && titles == TitlesOf(categories)
      && positiveData == PyLists.Filter(SortSet(kind, categories), IsPositive)
      && negativeData == PyLists.Filter(SortSet(kind, categories), IsNegative)
      && axisNumeric == IsAxisNumeric(positiveData, negativeData)
      && window == GetWindow(kind, positiveData, negativeData, steps)
    }

    /** No negative data gives `min == 0`, no positive data `max == 0`. */
    lemma WindowFacts()
      requires Derived()
      ensures negativeData == [] ==> window.min == 0.0
      ensures positiveData == [] ==> window.max == 0.0
    {
      SortedDataSigned(kind, categories);
      WindowSigns(kind, positiveData, negativeData, steps);
    }

    /** `interceptAxis(axis)`. */
    method InterceptAxis(axis: Axis)
      modifies this
      ensures intercept == axis && decorations == old(decorations)
    {
      intercept := axis;
    }

    /** `importDecoration(decoration)`. */
    method ImportDecoration(d: Decoration)
      modifies this
      ensures decorations == old(decorations) + [d] && intercept == old(intercept)
    {
      decorations := decorations + [d];
    }

    /** The canvas extent along the axis. */
    function Extent(): real {
      if orientation == Horizontal then canvasDimensions.0 else canvasDimensions.1
    }

    /** `length`: the canvas extent, less the intercepting axis's labels when
        that axis is fixed, and less the padding on a vertical axis. */
    function Length(): (r: Result<real>)
      reads this
      ensures r.Err? <==> intercept == null
      ensures r.Err? ==> r.error == AttributeError
      ensures r.Ok? && intercept.dimensions >= 0.0 && padding >= 0.0 ==> r.value <= Extent()
      ensures r.Ok? && !intercept.fixPosition && orientation == Horizontal ==> r.value == Extent()
    {
      if intercept == null then Err(AttributeError)
      else if intercept.fixPosition then
        if orientation == Horizontal then Ok(canvasDimensions.0 - intercept.dimensions)
        else Ok(canvasDimensions.1 - intercept.dimensions - padding)
      else
        if orientation == Horizontal then Ok(canvasDimensions.0)
        else Ok(canvasDimensions.1 - padding * 2.0)
    }

    /** `categoryWidth`: the length shared equally among the titles. */
    function CategoryWidth(): (r: Result<real>)
      reads this
      ensures r.Ok? <==> intercept != null && kind == Independent && |titles| > 0
      ensures r.Err? ==> r.error == if intercept == null || kind == Dependent then AttributeError else ZeroDivisionError
      ensures r.Ok? ==> r.value * |titles| as real == Length().value
    {
      var len :- Length();
      if kind == Dependent then Err(AttributeError)
      else if |titles| == 0 then Err(ZeroDivisionError)
      else
        assert kind == Independent;
        Ok(len / |titles| as real)
    }

    /** `relZero`: the offset of the zero line from the border. */
    function RelZero(): (r: Result<real>)
      reads this
      ensures r.Err? ==> intercept == null && r.error == AttributeError
      ensures intercept != null ==> r.Ok?
    {
      RelZeroOf(axisNumeric, window, Length())
    }

    /** `absBottom`: the lower left corner of the axes' area. */
    function AbsBottom(): Point {
      Point(canvasPosition.0, canvasPosition.1 + canvasDimensions.1)
    }

    /** `relLockedOrigin`: the origin if both axes sat at the border. */
    function RelLockedOrigin(): (r: Result<(real, real)>)
      reads this
      ensures r.Err? <==> intercept == null
      ensures r.Err? ==> r.error == AttributeError
      ensures r.Ok? && orientation == Horizontal ==> r.value == (dimensions, intercept.dimensions)
      ensures r.Ok? && orientation == Vertical ==> r.value == (intercept.dimensions, dimensions)
    {
      if intercept == null then Err(AttributeError)
      else if orientation == Horizontal then Ok((dimensions, intercept.dimensions))
      else Ok((intercept.dimensions, dimensions))
    }

    /** `absLockedOrigin`: `relLockedOrigin` on the canvas, that is the
        lower left corner moved right by the vertical axis's width and up by
        the horizontal axis's height. */
    function AbsLockedOrigin(): (r: Result<Point>)
      reads this
      ensures r.Err? <==> intercept == null
      ensures r.Err? ==> r.error == AttributeError
      ensures r.Ok? && orientation == Horizontal ==>
        r.value == Point(AbsBottom().x + intercept.dimensions, AbsBottom().y - dimensions)
      ensures r.Ok? && orientation == Vertical ==>
        r.value == Point(AbsBottom().x + dimensions, AbsBottom().y - intercept.dimensions)
    {
      var rel :- RelLockedOrigin();
      Ok(Point(canvasPosition.0 + rel.1, canvasPosition.1 + canvasDimensions.1 - rel.0))
    }

    /** `relOrigin`: the zero offsets of the two axes, as `(vertical, horizontal)`. */
    function RelOrigin(): (r: Result<(real, real)>)
      reads this, intercept
      ensures r.Err? ==> r.error == AttributeError
      ensures intercept == null ==> r.Err?
      ensures intercept != null && intercept.intercept != null ==> r.Ok?
      ensures r.Ok? && orientation == Horizontal ==> Ok(r.value.1) == RelZero() && Ok(r.value.0) == intercept.RelZero()
      ensures r.Ok? && orientation == Vertical ==> Ok(r.value.0) == RelZero() && Ok(r.value.1) == intercept.RelZero()
    {
      if intercept == null then Err(AttributeError)
      else
        match intercept.RelZero()
        case Err(e) => Err(e)
        case Ok(other) =>
          var own := RelZero().value;
          if orientation == Horizontal then Ok((other, own)) else Ok((own, other))
    }

    /** `absOrigin`: `relOrigin` on the canvas: the lower left corner moved
        right by the horizontal axis's zero offset and up by the vertical
        axis's. */
    function AbsOrigin(): (r: Result<Point>)
      reads this, intercept
      ensures r.Err? <==> RelOrigin().Err?
      ensures r.Err? ==> r.error == AttributeError
      ensures r.Ok? && orientation == Horizontal ==>
        r.value == Point(AbsBottom().x + RelZero().value, AbsBottom().y - intercept.RelZero().value)
      ensures r.Ok? && orientation == Vertical ==>
        r.value == Point(AbsBottom().x + intercept.RelZero().value, AbsBottom().y - RelZero().value)
      ensures r.Ok? && RelZero() == Ok(0.0) && intercept.RelZero() == Ok(0.0) ==> r.value == AbsBottom()
    {
      var rel :- RelOrigin();
      Ok(Point(AbsBottom().x + rel.1, AbsBottom().y - rel.0))
    }

    /** `borderOrigin`: where the axis line starts. */
    function BorderOrigin(): (r: Result<Point>)
      reads this, intercept
      ensures intercept == null ==> r == Err(AttributeError)
      ensures intercept != null && (fixPosition || intercept.intercept != null) ==> r.Ok?
      ensures r.Ok? && orientation == Horizontal ==>
        && r.value.x == (if intercept.fixPosition then AbsLockedOrigin().value.x else AbsBottom().x)
        && (fixPosition ==> r.value.y == AbsLockedOrigin().value.y)
        && (!fixPosition ==> AbsOrigin().Ok? && r.value.y == AbsOrigin().value.y)
      ensures r.Ok? && orientation == Vertical ==>
        && (fixPosition ==> r.value.x == AbsLockedOrigin().value.x)
        && (!fixPosition ==> AbsOrigin().Ok? && r.value.x == AbsOrigin().value.x)
        && r.value.y == (if intercept.fixPosition then AbsLockedOrigin().value.y else AbsBottom().y)
    {
      if intercept == null then Err(AttributeError)
      else
        var locked := AbsLockedOrigin().value;
        if fixPosition then
          if intercept.fixPosition then Ok(locked)
          else if orientation == Horizontal then Ok(Point(AbsBottom().x, locked.y))
          else Ok(Point(locked.x, AbsBottom().y))
        else
          match AbsOrigin()
          case Err(e) => Err(e)
          case Ok(origin) =>
            if intercept.fixPosition then
              if orientation == Horizontal then Ok(Point(locked.x, origin.y))
              else Ok(Point(origin.x, locked.y))
            else
              if orientation == Horizontal then Ok(Point(AbsBottom().x, origin.y))
              else Ok(Point(origin.x, AbsBottom().y))
    }

    /** The window extent the length is spread over: the dominant bound, less
        one unless the axis is in bucket mode. */
    function Span(): real {
      var offset := if bucketMode then 0.0 else -1.0;
      if window.max > window.min then window.max + offset else window.min + offset
    }

    /** The numeric position of a value: a string is looked up among the titles. */
    function Coordinate(v: Title): (r: Result<real>)
      ensures v.Num? ==> r == Ok(v.n.Val())
      ensures v.Str? && kind == Dependent ==> r == Err(AttributeError)
      ensures v.Str? && kind == Independent ==>
        (r.Err? <==> !HasTitle(categories, v)) && (r.Err? ==> r.error == ValueError)
      ensures v.Str? && r.Ok? ==> var i := r.value.Floor;
        && r.value == i as real && 0 <= i < |categories| && categories[i].title == v
        && forall j :: 0 <= j < i ==> categories[j].title != v
    {
      match v
      case Num(n) => Ok(n.Val())
      case Str(_) =>
        if kind == Dependent then Err(AttributeError)
        else
          match FindTitle(categories, v)
          case None => Err(ValueError)
          case Some(i) => Ok(i as real)
    }

    /** The scale factor of `positionOfValue`. */
    function Unit(): real
      reads this
      requires intercept != null && Span() != 0.0
    {
      (Length().value - RelZero().value) / Span()
    }

    /** Where the coordinate `x` is drawn: scaled by `unit` from the border
        origin, rightwards on a horizontal axis, upwards from the zero line
        on a vertical one. */
    function PositionAt(x: real): (r: Result<Point>)
      reads this, intercept
      requires intercept != null && Span() != 0.0
      ensures intercept.intercept != null ==> r.Ok?
    {
      var unit := Unit();
      match BorderOrigin()
      case Err(e) => Err(e)
      case Ok(border) =>
        if orientation == Horizontal then Ok(Point(border.x + unit * x, border.y))
        else
          match RelOrigin()
          case Err(e) => Err(e)
          case Ok(rel) => Ok(Point(border.x, border.y - rel.0 - unit * x))
    }

    /** On a horizontal axis `x` is drawn `unit * x` right of the border
        origin, at the origin's height. */
    lemma PositionAtHorizontal(x: real)
      requires intercept != null && Span() != 0.0 && orientation == Horizontal
      requires PositionAt(x).Ok?
      ensures BorderOrigin().Ok?
      ensures PositionAt(x).value == Point(BorderOrigin().value.x + Unit() * x, BorderOrigin().value.y)
    {
    }

    /** On a vertical axis `x` is drawn `unit * x` above the zero line, which
        lies `relZero` above the border origin. */
    lemma PositionAtVertical(x: real)
      requires intercept != null && Span() != 0.0 && orientation == Vertical
      requires PositionAt(x).Ok?
      ensures BorderOrigin().Ok?
      ensures PositionAt(x).value == Point(BorderOrigin().value.x, BorderOrigin().value.y - RelZero().value - Unit() * x)
    {
      var rel := RelOrigin();
      assert rel.Ok? && rel.value.0 == RelZero().value;
    }

    /** `positionOfValue(value)`: the scale factor is computed first (so a
        missing intercept or a zero span raise before the value is looked
        up), then the value is placed by `PositionAt`. */
    function PositionOfValue(v: Title): (r: Result<Point>)
      reads this, intercept
      ensures intercept == null ==> r == Err(AttributeError)
      ensures intercept != null && Span() == 0.0 ==> r == Err(ZeroDivisionError)
      ensures intercept != null && intercept.intercept != null && Span() != 0.0 ==>
        (r.Ok? <==> Coordinate(v).Ok?) && (r.Err? ==> r.error == Coordinate(v).error)
      ensures intercept != null && Span() != 0.0 && Coordinate(v).Ok? ==> r == PositionAt(Coordinate(v).value)
    {
      if intercept == null then Err(AttributeError)
      else if Span() == 0.0 then Err(ZeroDivisionError)
      else
        match Coordinate(v)
        case Err(e) => Err(e)
        case Ok(x) => PositionAt(x)
    }

    /** A title is drawn where its index is. */
    lemma PositionOfTitle(t: string)
      requires kind == Independent
      requires FindTitle(categories, Str(t)).Some?
      ensures PositionOfValue(Str(t)) == PositionOfValue(Num(Int(FindTitle(categories, Str(t)).value)))
    {
      var i := FindTitle(categories, Str(t)).value;
      assert Coordinate(Str(t)) == Ok(i as real);
      assert Coordinate(Num(Int(i))) == Ok(i as real);
    }

    /** On a categorical axis in bucket mode whose titles are all strings,
        consecutive categories are one `categoryWidth` apart. */
    lemma CategoriesAreEvenlySpaced(i: int)
      requires Derived()
      requires kind == Independent && orientation == Horizontal && bucketMode
      requires intercept != null && intercept.intercept != null
      requires |titles| > 0 && forall j :: 0 <= j < |titles| ==> titles[j].Str?
      ensures var p := PositionOfValue(Num(Int(i)));
        var q := PositionOfValue(Num(Int(i + 1)));
        p.Ok? && q.Ok? && q.value.x - p.value.x == CategoryWidth().value && q.value.y == p.value.y
    {
      StringAxisGeometry();
      ConsecutivePositions(i);
    }

    /** An all-string categorical axis in bucket mode spans one unit per
        title, has its zero line on the border, and each category is
        `length / span` wide. */
    lemma StringAxisGeometry()
      requires Derived()
      requires kind == Independent && bucketMode && intercept != null
      requires |titles| > 0 && forall j :: 0 <= j < |titles| ==> titles[j].Str?
      ensures Span() == |titles| as real && RelZero() == Ok(0.0)
      ensures CategoryWidth() == Ok(Length().value / Span())
    {
      StringTitlesWindow(categories, steps);
      assert window == Window(0.0, |titles| as real);
    }

    /** On a horizontal axis whose zero line is on the border, consecutive
        whole values are `length / span` apart. */
    lemma ConsecutivePositions(i: int)
      requires orientation == Horizontal && intercept != null && intercept.intercept != null
      requires Span() != 0.0 && RelZero() == Ok(0.0)
      ensures var p := PositionOfValue(Num(Int(i)));
        var q := PositionOfValue(Num(Int(i + 1)));
        p.Ok? && q.Ok? && q.value.x - p.value.x == Length().value / Span() && q.value.y == p.value.y
    {
      var u := Unit();
      assert u == Length().value / Span();
      var x, y := Int(i).Val(), Int(i + 1).Val();
      assert Coordinate(Num(Int(i))) == Ok(x) && Coordinate(Num(Int(i + 1))) == Ok(y);
      PositionAtHorizontal(x);
      PositionAtHorizontal(y);
      NextMultiple(u, i);
    }

    // -------------------------------------------------------------------
    // The tick positions of __decorateAtTicks (src/axis.py:340-364)
    // -------------------------------------------------------------------

    /** The tick increment of a dependent axis: the dominant bound over `steps`. */
    function Increment(): real {
      var focal := if window.max >= AbsR(window.min) then window.max else window.min;
      AbsR(focal) / steps as real
    }

    /** The value window ticks run over: to one increment past `|max|` for
        whole ticks, to `|max|` for half ticks. */
    function TickValues(tick: Tick): Result<seq<real>> {
      var upper := if tick == Whole then AbsR(window.max) + Increment() else AbsR(window.max);
      Frange(window.min, upper, Increment())
    }

    /** The mark for one value of a dependent axis: half ticks sit half an
        increment above the value. */
    function ValueTick(tick: Tick, pos: real): Result<TickMark>
      reads this, intercept
    {
      var at := if tick == Whole then pos else pos + Increment() / 2.0;
      match PositionOfValue(Num(Float(at)))
      case Err(e) => Err(e)
      case Ok(p) => Ok(TickMark(Num(Float(pos)), p))
    }

    /** The mark for the `i`-th category: half ticks sit half a category
        further along. */
    function CategoryTick(tick: Tick, width: real, i: nat): Result<TickMark>
      reads this, intercept
      requires i < |titles|
    {
      match PositionOfValue(Num(Int(i)))
      case Err(e) => Err(e)
      case Ok(p) => Ok(TickMark(titles[i], if tick == Whole then p else Point(p.x + width / 2.0, p.y)))
    }

    /** The marks for the first `n` tick values, or the first error. */
    function ValueTicks(tick: Tick, values: seq<real>, n: nat): (r: Result<seq<TickMark>>)
      reads this, intercept
      requires n <= |values|
      ensures r.Ok? ==> (|r.value| == n
        && forall k :: 0 <= k < n ==> ValueTick(tick, values[k]) == Ok(r.value[k]))
    {
      if n == 0 then Ok([])
      else
        match ValueTicks(tick, values, n - 1)
        case Err(e) => Err(e)
        case Ok(front) =>
          match ValueTick(tick, values[n - 1])
          case Err(e) => Err(e)
          case Ok(last) => Ok(front + [last])
    }

    /** The marks for the first `n` categories, or the first error. */
    function CategoryTicks(tick: Tick, width: real, n: nat): (r: Result<seq<TickMark>>)
      reads this, intercept
      requires n <= |titles|
      ensures r.Ok? ==> (|r.value| == n
        && forall k :: 0 <= k < n ==> CategoryTick(tick, width, k) == Ok(r.value[k]))
    {
      if n == 0 then Ok([])
      else
        match CategoryTicks(tick, width, n - 1)
        case Err(e) => Err(e)
        case Ok(front) =>
          match CategoryTick(tick, width, n - 1)
          case Err(e) => Err(e)
          case Ok(last) => Ok(front + [last])
    }

    /** One more value: its mark is added, or its error is the result. */
    lemma ValueTicksStep(tick: Tick, values: seq<real>, k: nat, acc: seq<TickMark>, t: Result<TickMark>)
      requires k < |values| && ValueTicks(tick, values, k) == Ok(acc)
      requires t == ValueTick(tick, values[k])
      ensures t.Err? ==> ValueTicks(tick, values, k + 1) == Err(t.error)
      ensures t.Ok? ==> ValueTicks(tick, values, k + 1) == Ok(acc + [t.value])
    {
    }

    /** One more category: its mark is added, or its error is the result. */
    lemma CategoryTicksStep(tick: Tick, width: real, k: nat, acc: seq<TickMark>, t: Result<TickMark>)
      requires k < |titles| && CategoryTicks(tick, width, k) == Ok(acc)
      requires t == CategoryTick(tick, width, k)
      ensures t.Err? ==> CategoryTicks(tick, width, k + 1) == Err(t.error)
      ensures t.Ok? ==> CategoryTicks(tick, width, k + 1) == Ok(acc + [t.value])
    {
    }

    /** The first error stops the loop: later values do not change it. */
    lemma {:induction false} ValueTicksStopAtError(tick: Tick, values: seq<real>, k: nat, n: nat)
      requires k <= n <= |values| && ValueTicks(tick, values, k).Err?
      ensures ValueTicks(tick, values, n) == ValueTicks(tick, values, k)
      decreases n
    {
      if n > k {
        ValueTicksStopAtError(tick, values, k, n - 1);
      }
    }

    lemma {:induction false} CategoryTicksStopAtError(tick: Tick, width: real, k: nat, n: nat)
      requires k <= n <= |titles| && CategoryTicks(tick, width, k).Err?
      ensures CategoryTicks(tick, width, n) == CategoryTicks(tick, width, k)
      decreases n
    {
      if n > k {
        CategoryTicksStopAtError(tick, width, k, n - 1);
      }
    }

    /** The marks one decoration is rendered at. */
    function TickMarksOf(tick: Tick): Result<seq<TickMark>>
      reads this, intercept
    {
      if kind == Dependent then
        match TickValues(tick)
        case Err(e) => Err(e)
        case Ok(values) => ValueTicks(tick, values, |values|)
      else
        match CategoryWidth()
        case Err(e) => Err(e)
        case Ok(width) => CategoryTicks(tick, width, |titles|)
    }

    /** The loop of `__decorateAtTicks` for one decoration. */
    method TickMarks(tick: Tick) returns (r: Result<seq<TickMark>>)
      ensures r == TickMarksOf(tick)
    {
      if kind == Dependent {
        r := ValueTickMarks(tick);
      } else {
        r := CategoryTickMarks(tick);
      }
    }

    /** The loop over the tick values of a dependent axis. */
    method ValueTickMarks(tick: Tick) returns (r: Result<seq<TickMark>>)
      requires kind == Dependent
      ensures r == TickMarksOf(tick)
    {
      var vr := TickValues(tick);
      if vr.Err? {
        return Err(vr.error);
      }
      var values := vr.value;
      var acc: seq<TickMark> := [];
      var k := 0;
      while k < |values|
        invariant 0 <= k <= |values|
        invariant ValueTicks(tick, values, k) == Ok(acc)
      {
        var t := ValueTick(tick, values[k]);
        ValueTicksStep(tick, values, k, acc, t);
        if t.Err? {
          ValueTicksStopAtError(tick, values, k + 1, |values|);
          return Err(t.error);
        }
        acc := acc + [t.value];
        k := k + 1;
      }
      return Ok(acc);
    }

    /** The loop over the categories of an independent axis. */
    method CategoryTickMarks(tick: Tick) returns (r: Result<seq<TickMark>>)
      requires kind == Independent
      ensures r == TickMarksOf(tick)
    {
      var wr := CategoryWidth();
      if wr.Err? {
        return Err(wr.error);
      }
      var acc: seq<TickMark> := [];
      var k := 0;
      while k < |titles|
        invariant 0 <= k <= |titles|
        invariant CategoryTicks(tick, wr.value, k) == Ok(acc)
      {
        var t := CategoryTick(tick, wr.value, k);
        CategoryTicksStep(tick, wr.value, k, acc, t);
        if t.Err? {
          CategoryTicksStopAtError(tick, wr.value, k + 1, |titles|);
          return Err(t.error);
        }
        acc := acc + [t.value];
        k := k + 1;
      }
      return Ok(acc);
    }

    /** The marks of the first `n` decorations, one list per decoration. */
    function DecorationTicks(n: nat): (r: Result<seq<seq<TickMark>>>)
      reads this, intercept
      requires n <= |decorations|
      ensures r.Ok? ==> (|r.value| == n
        && forall k :: 0 <= k < n ==> TickMarksOf(decorations[k].tick) == Ok(r.value[k]))
    {
      if n == 0 then Ok([])
      else
        match DecorationTicks(n - 1)
        case Err(e) => Err(e)
        case Ok(front) =>
          match TickMarksOf(decorations[n - 1].tick)
          case Err(e) => Err(e)
          case Ok(last) => Ok(front + [last])
    }

    lemma {:induction false} DecorationTicksStopAtError(k: nat, n: nat)
      requires k <= n <= |decorations| && DecorationTicks(k).Err?
      ensures DecorationTicks(n) == DecorationTicks(k)
      decreases n
    {
      if n > k {
        DecorationTicksStopAtError(k, n - 1);
      }
    }

    /** One more decoration: its marks are added, or its error is the result. */
    lemma DecorationTicksStep(k: nat, acc: seq<seq<TickMark>>, t: Result<seq<TickMark>>)
      requires k < |decorations| && DecorationTicks(k) == Ok(acc)
      requires t == TickMarksOf(decorations[k].tick)
      ensures t.Err? ==> DecorationTicks(k + 1) == Err(t.error)
      ensures t.Ok? ==> DecorationTicks(k + 1) == Ok(acc + [t.value])
    {
    }

    /** `__decorateAtTicks(*self.decorations)`: every decoration in turn. */
    method DecorateAtTicks() returns (r: Result<seq<seq<TickMark>>>)
      ensures r == DecorationTicks(|decorations|)
    {
      var acc: seq<seq<TickMark>> := [];
      var k := 0;
      while k < |decorations|
        invariant 0 <= k <= |decorations|
        invariant DecorationTicks(k) == Ok(acc)
      {
        var t := TickMarks(decorations[k].tick);
        DecorationTicksStep(k, acc, t);
        if t.Err? {
          DecorationTicksStopAtError(k + 1, |decorations|);
          return Err(t.error);
        }
        acc := acc + [t.value];
        k := k + 1;
      }
      return Ok(acc);
    }

    /** Whole ticks of a dependent axis sit at `min + k * increment`, from
        `min` up to less than one increment past `|max|`. */
    lemma WholeTickValues()
      requires kind == Dependent && Increment() > 0.0
      ensures var vs := TickValues(Whole);
        && vs.Ok?
        && (forall k :: 0 <= k < |vs.value| ==> vs.value[k] == window.min + k as real * Increment())
        && (forall v :: v in vs.value ==> window.min <= v < AbsR(window.max) + Increment())
    {
      FrangeBounds(window.min, AbsR(window.max) + Increment(), Increment());
    }

    /** A window of `(0, 0)` on a dependent axis has a zero increment, so
        decorating it raises `ZeroDivisionError`. */
    lemma EmptyWindowTicksFail(tick: Tick)
      requires kind == Dependent && window == Window(0.0, 0.0)
      ensures TickMarksOf(tick) == Err(ZeroDivisionError)
    {
    }
  }

  /** Two axes that intercept each other and lie across each other agree on
      the origin. */
  lemma MutualInterceptAgrees(a: Axis, b: Axis)
    requires a.intercept == b && b.intercept == a && a.orientation != b.orientation
    requires a.canvasPosition == b.canvasPosition && a.canvasDimensions == b.canvasDimensions
    ensures a.RelOrigin().Ok? && a.RelOrigin() == b.RelOrigin()
    ensures a.AbsOrigin() == b.AbsOrigin()
  {
  }

  /** Two axes that intercept each other and lie across each other agree on
      the locked origin, and on one canvas on where it lies. */
  lemma MutualLockedOriginsAgree(a: Axis, b: Axis)
    requires a.intercept == b && b.intercept == a && a.orientation != b.orientation
    ensures a.RelLockedOrigin().Ok? && a.RelLockedOrigin() == b.RelLockedOrigin()
    ensures a.canvasPosition == b.canvasPosition && a.canvasDimensions == b.canvasDimensions ==>
      a.AbsLockedOrigin() == b.AbsLockedOrigin()
  {
  }
}
