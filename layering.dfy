/** The layer stack of a graph: a `LayerManager` is a list of layers, index 0
    drawn last (on top); layers are found by name, moved within the stack
    and rendered bottom first. A `Layer` has a position and dimensions,
    point containment, and component-wise dimension arithmetic. */
module Layering {
  import opened Wrappers
  import PyLists
  import Scheme

  // ---------------------------------------------------------------------
  // Ranges (src/layering.py:154-177, 63-68)
  // ---------------------------------------------------------------------

  /** `range(lo, hi)`. */
  function RangeList(lo: int, hi: int): (r: seq<int>)
    ensures |r| == if lo < hi then hi - lo else 0
    ensures forall i :: 0 <= i < |r| ==> r[i] == lo + i
    decreases hi - lo
  {
    if lo >= hi then [] else [lo] + RangeList(lo + 1, hi)
  }

  /** `x in range(lo, hi)` is `lo <= x < hi`. */
  lemma InRangeList(lo: int, hi: int, x: int)
    ensures x in RangeList(lo, hi) <==> lo <= x < hi
  {
    var r := RangeList(lo, hi);
    if lo <= x < hi {
      assert r[x - lo] == x;
    }
  }

  /** `any([x in ys for x in xs])`. */
  predicate AnyIn(xs: seq<int>, ys: seq<int>) {
    exists i :: 0 <= i < |xs| && xs[i] in ys
  }

  function Max(a: int, b: int): int {
    if a >= b then a else b
  }

  function Min(a: int, b: int): int {
    if a <= b then a else b
  }

  /** Two ranges share an integer exactly when the larger start lies below
      the smaller end. */
  lemma RangesShare(lo1: int, hi1: int, lo2: int, hi2: int)
    ensures AnyIn(RangeList(lo2, hi2), RangeList(lo1, hi1)) <==> Max(lo1, lo2) < Min(hi1, hi2)
  {
    var xs := RangeList(lo2, hi2);
    var ys := RangeList(lo1, hi1);
    if Max(lo1, lo2) < Min(hi1, hi2) {
      var x := Max(lo1, lo2);
      InRangeList(lo1, hi1, x);
      assert xs[x - lo2] == x;
    }
    if AnyIn(xs, ys) {
      var i :| 0 <= i < |xs| && xs[i] in ys;
      InRangeList(lo1, hi1, xs[i]);
    }
  }

  // ---------------------------------------------------------------------
  // Rendering opacity (src/layering.py:80-88)
  // ---------------------------------------------------------------------

  /** Python truthiness of a schema value. */
  predicate Truthy(v: Scheme.Value) {
    match v
    case Leaf(a) =>
      (match a
       case NoneAtom => false
       case Bool(b) => b
       case Int(i) => i != 0
       case Real(x) => x != 0.0
       case Str(s) => s != ""
       case _ => true)
    case List(items) => items != []
    case Dict(m) => m != map[]
  }

  /** A numeric schema value (`int`, `float` or `bool`), as a real. */
  function NumericValue(v: Scheme.Value): Option<real> {
    match v
    case Leaf(Int(i)) => Some(i as real)
    case Leaf(Real(x)) => Some(x)
    case Leaf(Bool(b)) => Some(if b then 1.0 else 0.0)
    case _ => None
  }

  /** The scheme switches the layer off: a dictionary whose `enabled` is false. */
  predicate Disabled(scheme: Option<Scheme.Value>) {
    scheme.Some? && scheme.value.Dict? && "enabled" in scheme.value.entries
    && !Truthy(scheme.value.entries["enabled"])
  }

  /** The scheme enables the layer and gives it a numeric `transparency`. */
  predicate TransparencyGiven(scheme: Option<Scheme.Value>) {
    && scheme.Some? && scheme.value.Dict? && "enabled" in scheme.value.entries
    && Truthy(scheme.value.entries["enabled"])
    && "transparency" in scheme.value.entries
    && NumericValue(scheme.value.entries["transparency"]).Some?
  }

  /** The opacity a layer is rendered with in `renderAll`, or `None` when it
      is not rendered. Any exception from the lookups (no scheme, no
      `enabled` or `transparency` key, a transparency that is not a number)
      falls to the handler, which renders at opacity 1. */
  function RenderOpacity(scheme: Option<Scheme.Value>): (r: Option<real>)
    ensures r.None? <==> Disabled(scheme)
    ensures r.Some? && r.value != 1.0 ==>
      && scheme.Some? && scheme.value.Dict? && "transparency" in scheme.value.entries
      && NumericValue(scheme.value.entries["transparency"]).Some?
      && r.value == NumericValue(scheme.value.entries["transparency"]).value * 0.01
    ensures TransparencyGiven(scheme) ==>
      r == Some(NumericValue(scheme.value.entries["transparency"]).value * 0.01)
    ensures !Disabled(scheme) && !TransparencyGiven(scheme) ==> r == Some(1.0)
  {
    match scheme
    case None => Some(1.0)
    case Some(v) =>
      match v
      case Dict(m) =>
        if "enabled" !in m then Some(1.0)
        else if !Truthy(m["enabled"]) then None
        else if "transparency" !in m then Some(1.0)
        else
          (match NumericValue(m["transparency"])
           case None => Some(1.0)
           case Some(t) => Some(t * 0.01))
      case _ => Some(1.0)
  }

  // ---------------------------------------------------------------------
  // Stack moves (src/layering.py:90-113)
  // ---------------------------------------------------------------------

  /** `moveToTop` on the list `s` for a layer `x` at `zIndex` `pos`: the new
      list and the outcome (`del` can raise after the insert took place). */
  function MovedToTop<T>(s: seq<T>, x: T, pos: nat): (seq<T>, Outcome) {
    if pos == 0 then (s, Pass)
    else
      var inserted := PyLists.Insert(s, 0, x);
      match PyLists.Delete(inserted, pos + 1)
      case Ok(t) => (t, Pass)
      case Err(e) => (inserted, Fail(e))
  }

  /** For a layer that is at `pos`, `moveToTop` puts it first and keeps the
      others in order; it is a permutation. */
  lemma MoveToTopPermutes<T>(s: seq<T>, x: T, pos: nat)
    requires pos < |s| && s[pos] == x
    ensures MovedToTop(s, x, pos) == ([x] + s[..pos] + s[pos + 1..], Pass)
    ensures multiset(MovedToTop(s, x, pos).0) == multiset(s)
  {
    if pos == 0 {
      assert [x] + s[..0] + s[1..] == s;
    } else {
      MovedToTopFront(s, x, pos);
      FrontKeepsMultiset(s, pos);
    }
  }

  lemma MovedToTopFront<T>(s: seq<T>, x: T, pos: nat)
    requires 0 < pos < |s|
    ensures MovedToTop(s, x, pos) == ([x] + s[..pos] + s[pos + 1..], Pass)
  {
    var inserted := [x] + s;
    assert PyLists.Insert(s, 0, x) == inserted;
    assert inserted[..pos + 1] == [x] + s[..pos];
    assert inserted[pos + 2..] == s[pos + 1..];
  }

  /** Bringing the element at `pos` to the front keeps the multiset. */
  lemma FrontKeepsMultiset<T>(s: seq<T>, pos: nat)
    requires pos < |s|
    ensures multiset([s[pos]] + s[..pos] + s[pos + 1..]) == multiset(s)
  {
    assert s == s[..pos] + [s[pos]] + s[pos + 1..];
  }

  /** `moveUp` for a layer at `pos`: inserted two places up, then the old
      copy (shifted to `pos + 1`) deleted. */
  function MovedUp<T>(s: seq<T>, x: T, pos: nat): (seq<T>, Outcome) {
    if pos - 2 >= 0 then
      var inserted := PyLists.Insert(s, pos - 2, x);
      match PyLists.Delete(inserted, pos + 1)
      case Ok(t) => (t, Pass)
      case Err(e) => (inserted, Fail(e))
    else (s, Pass)
  }

  /** A layer at `pos >= 2` ends at `pos - 2`, the two layers it passes move
      down one place, and the stack is a permutation of the old one; a layer
      at 0 or 1 is not moved. */
  lemma MoveUpPermutes<T>(s: seq<T>, x: T, pos: nat)
    requires pos < |s| && s[pos] == x
    ensures pos >= 2 ==> MovedUp(s, x, pos) == (s[..pos - 2] + [x] + s[pos - 2..pos] + s[pos + 1..], Pass)
    ensures pos < 2 ==> MovedUp(s, x, pos) == (s, Pass)
    ensures multiset(MovedUp(s, x, pos).0) == multiset(s)
  {
    if pos >= 2 {
      var k := pos - 2;
      var inserted := s[..k] + [x] + s[k..];
      assert PyLists.Insert(s, k, x) == inserted;
      assert inserted[..pos + 1] == s[..k] + [x] + s[k..pos];
      assert inserted[pos + 2..] == s[pos + 1..];
      assert s == s[..k] + s[k..pos] + [x] + s[pos + 1..];
    }
  }

  /** `moveToBottom` as written: append, then `del self[currentPos - 1]`,
      which removes the layer above the moved one (or, at 0, the copy just
      appended). */
  function MovedToBottomAsWritten<T>(s: seq<T>, x: T, pos: nat): (seq<T>, Outcome) {
    if pos != |s| then
      var appended := s + [x];
      match PyLists.Delete(appended, pos as int - 1)
      case Ok(t) => (t, Pass)
      case Err(e) => (appended, Fail(e))
    else (s, Pass)
  }

  /** The literal `moveToBottom` drops the layer above the moved one and
      leaves the moved one in place as well as at the bottom. */
  lemma MoveToBottomAsWrittenDropsAbove<T>(s: seq<T>, x: T, pos: nat)
    requires 1 <= pos < |s|
    ensures MovedToBottomAsWritten(s, x, pos) == (s[..pos - 1] + s[pos..] + [x], Pass)
  {
    var appended := s + [x];
    assert appended[..pos - 1] == s[..pos - 1];
    assert appended[pos..] == s[pos..] + [x];
    assert PyLists.Delete(appended, pos - 1) == Ok(appended[..pos - 1] + appended[pos..]);
    assert appended[..pos - 1] + appended[pos..] == s[..pos - 1] + s[pos..] + [x];
  }

  /** So `[A, B, C]` with `B` becomes `[B, C, B]`. */
  lemma MoveToBottomAsWrittenLosesLayer()
    ensures MovedToBottomAsWritten([0, 1, 2], 1, 1) == ([1, 2, 1], Pass)
    ensures multiset(MovedToBottomAsWritten([0, 1, 2], 1, 1).0) != multiset([0, 1, 2])
  {
    var s := [0, 1, 2];
    MoveToBottomAsWrittenDropsAbove(s, 1, 1);
    assert s[..0] + s[1..] + [1] == [1, 2, 1];
    assert 0 in multiset(s) && 0 !in multiset([1, 2, 1]);
  }

  /** `moveToBottom` as intended: append, then delete the layer at its old
      place. */
  function MovedToBottom<T>(s: seq<T>, x: T, pos: nat): (seq<T>, Outcome) {
    if pos != |s| then
      var appended := s + [x];
      match PyLists.Delete(appended, pos)
      case Ok(t) => (t, Pass)
      case Err(e) => (appended, Fail(e))
    else (s, Pass)
  }

  /** The intended `moveToBottom` puts the layer last, keeps the others in
      order, and is a permutation. */
  lemma MoveToBottomPermutes<T>(s: seq<T>, x: T, pos: nat)
    requires pos < |s| && s[pos] == x
    ensures MovedToBottom(s, x, pos) == (s[..pos] + s[pos + 1..] + [x], Pass)
    ensures multiset(MovedToBottom(s, x, pos).0) == multiset(s)
  {
    var appended := s + [x];
    assert PyLists.Delete(appended, pos) == Ok(appended[..pos] + appended[pos + 1..]);
    assert appended[..pos] == s[..pos];
    assert appended[pos + 1..] == s[pos + 1..] + [x];
    assert s[..pos] + (s[pos + 1..] + [x]) == s[..pos] + s[pos + 1..] + [x];
    assert s == s[..pos] + [x] + s[pos + 1..];
  }

  /** `moveDown` as written: insert two places down, then
      `del self[currentPos + 1]`, which removes the layer below the moved
      one instead of its old copy. */
  function MovedDownAsWritten<T>(s: seq<T>, x: T, pos: nat): (seq<T>, Outcome) {
    if pos + 2 >= 0 then
      var inserted := PyLists.Insert(s, pos + 2, x);
      match PyLists.Delete(inserted, pos + 1)
      case Ok(t) => (t, Pass)
      case Err(e) => (inserted, Fail(e))
    else (s, Pass)
  }

  /** The literal `moveDown` overwrites the layer below with a second copy
      of the moved one. */
  lemma MoveDownAsWrittenOverwrites<T>(s: seq<T>, x: T, pos: nat)
    requires pos + 1 < |s|
    ensures MovedDownAsWritten(s, x, pos) == (s[..pos + 1] + [x] + s[pos + 2..], Pass)
  {
    var inserted := s[..pos + 2] + [x] + s[pos + 2..];
    assert PyLists.Insert(s, pos + 2, x) == inserted;
    assert inserted[..pos + 1] == s[..pos + 1];
    assert inserted[pos + 2..] == [x] + s[pos + 2..];
    assert PyLists.Delete(inserted, pos + 1) == Ok(inserted[..pos + 1] + inserted[pos + 2..]);
    assert inserted[..pos + 1] + inserted[pos + 2..] == s[..pos + 1] + [x] + s[pos + 2..];
  }

  /** So `[A, B, C]` with `A` becomes `[A, A, C]`. */
  lemma MoveDownAsWrittenLosesLayer()
    ensures MovedDownAsWritten([0, 1, 2], 0, 0) == ([0, 0, 2], Pass)
    ensures multiset(MovedDownAsWritten([0, 1, 2], 0, 0).0) != multiset([0, 1, 2])
  {
    var s := [0, 1, 2];
    MoveDownAsWrittenOverwrites(s, 0, 0);
    assert s[..1] + [0] + s[2..] == [0, 0, 2];
    assert 1 in multiset(s) && 1 !in multiset([0, 0, 2]);
  }

  /** `moveDown` as intended: insert two places down, then delete the layer
      at its old place. */
  function MovedDown<T>(s: seq<T>, x: T, pos: nat): (seq<T>, Outcome) {
    var inserted := PyLists.Insert(s, pos + 2, x);
    match PyLists.Delete(inserted, pos)
    case Ok(t) => (t, Pass)
    case Err(e) => (inserted, Fail(e))
  }

  /** The intended `moveDown` swaps the layer with the one below it (the
      last layer stays), and is a permutation. */
  lemma MoveDownPermutes<T>(s: seq<T>, x: T, pos: nat)
    requires pos < |s| && s[pos] == x
    ensures pos + 1 < |s| ==> MovedDown(s, x, pos) == (s[..pos] + [s[pos + 1], x] + s[pos + 2..], Pass)
    ensures pos + 1 == |s| ==> MovedDown(s, x, pos) == (s, Pass)
    ensures multiset(MovedDown(s, x, pos).0) == multiset(s)
  {
    if pos + 1 < |s| {
      MovedDownSwaps(s, x, pos);
      SwapKeepsMultiset(s, pos);
    } else {
      var inserted := s + [x];
      assert PyLists.Insert(s, pos + 2, x) == inserted;
      assert inserted[..pos] + inserted[pos + 1..] == s[..pos] + [x];
      assert s == s[..pos] + [x];
    }
  }

  lemma MovedDownSwaps<T>(s: seq<T>, x: T, pos: nat)
    requires pos + 1 < |s|
    ensures MovedDown(s, x, pos) == (s[..pos] + [s[pos + 1], x] + s[pos + 2..], Pass)
  {
    var inserted := s[..pos + 2] + [x] + s[pos + 2..];
    assert PyLists.Insert(s, pos + 2, x) == inserted;
    assert inserted[..pos] == s[..pos];
    assert inserted[pos + 1..] == [s[pos + 1], x] + s[pos + 2..];
    assert PyLists.Delete(inserted, pos) == Ok(inserted[..pos] + inserted[pos + 1..]);
    assert inserted[..pos] + inserted[pos + 1..] == s[..pos] + [s[pos + 1], x] + s[pos + 2..];
  }

  /** Swapping the elements at `pos` and `pos + 1` keeps the multiset. */
  lemma SwapKeepsMultiset<T>(s: seq<T>, pos: nat)
    requires pos + 1 < |s|
    ensures multiset(s[..pos] + [s[pos + 1], s[pos]] + s[pos + 2..]) == multiset(s)
  {
    assert s == s[..pos] + [s[pos]] + [s[pos + 1]] + s[pos + 2..];
    assert [s[pos + 1], s[pos]] == [s[pos + 1]] + [s[pos]];
  }

  /** Each move of a layer that is in the stack succeeds and keeps the
      number of layers (the literal `moveToBottom` and `moveDown` included:
      they lose a layer but duplicate another). */
  lemma MovesKeepDepth<T>(s: seq<T>, x: T, pos: nat)
    requires pos < |s|
    ensures MovedToTop(s, x, pos).1 == Pass && |MovedToTop(s, x, pos).0| == |s|
    ensures MovedUp(s, x, pos).1 == Pass && |MovedUp(s, x, pos).0| == |s|
    ensures MovedToBottomAsWritten(s, x, pos).1 == Pass && |MovedToBottomAsWritten(s, x, pos).0| == |s|
    ensures MovedDownAsWritten(s, x, pos).1 == Pass && |MovedDownAsWritten(s, x, pos).0| == |s|
  {
  }

  // ---------------------------------------------------------------------
  // Layer (src/layering.py:122-208)
  // ---------------------------------------------------------------------

  /** The other operand of a dimension operator: a layer (its dimensions),
      a number `n` (read as `(n, n)`), or a pair. */
  datatype Operand = OfLayer(layer: Layer) | Scalar(n: int) | Pair(w: int, h: int)

  class Layer {
    /** `obj.__class__.__name__.lower()`, which selects the layer's scheme. */
    const kind: string
    /** `dimensions()` (`(0, 0)` for a plain layer, measured by subclasses). */
    const dims: (int, int)
    var name: string
    var position: (int, int)
    var manager: LayerManager?
    var scheme: Option<Scheme.Value>

    constructor (kind: string, dims: (int, int))
      ensures this.kind == kind && this.dims == dims
      ensures name == "Unnamed Layer" && position == (0, 0) && manager == null && scheme == None
    {
      this.kind := kind;
      this.dims := dims;
      name := "Unnamed Layer";
      position := (0, 0);
      manager := null;
      scheme := None;
    }

    /** `reposition(p)`. */
    method Reposition(p: (int, int))
      modifies this
      ensures position == p && name == old(name) && manager == old(manager) && scheme == old(scheme)
    {
      position := p;
    }

    /** `positionalBounds()`: from the position up to (not including) the
        dimensions, on each axis. */
    function PositionalBounds(): (seq<int>, seq<int>)
      reads this
    {
      (RangeList(position.0, dims.0), RangeList(position.1, dims.1))
    }

    /** `point in layer`. */
    function Contains(p: (int, int)): (r: bool)
      reads this
      ensures r <==> position.0 <= p.0 < dims.0 && position.1 <= p.1 < dims.1
    {
      var bounds := PositionalBounds();
      InRangeList(position.0, dims.0, p.0);
      InRangeList(position.1, dims.1, p.1);
      p.0 in bounds.0 && p.1 in bounds.1
    }

    /** `zIndex()`: the layer's place in its manager's stack. */
    function ZIndex(): (r: Result<nat>)
      reads this, manager
      ensures manager == null ==> r == Err(AttributeError)
      ensures manager != null ==> (r.Err? <==> this !in manager.layers)
      ensures manager != null && r.Err? ==> r.error == ValueError
      ensures r.Ok? ==> manager != null && r.value < |manager.layers| && manager.layers[r.value] == this
      ensures r.Ok? ==> forall j :: 0 <= j < r.value ==> manager.layers[j] != this
    {
      if manager == null then Err(AttributeError) else manager.GetStackPosition(this)
    }

    /** `__selfAndTargetDimensions(other)`: the other operand as a pair. */
    function Target(other: Operand): (int, int) {
      match other
      case OfLayer(l) => l.dims
      case Scalar(n) => (n, n)
      case Pair(w, h) => (w, h)
    }

    /** `layer + other` (also `other + layer`). */
    function Add(other: Operand): (int, int) {
      (dims.0 + Target(other).0, dims.1 + Target(other).1)
    }

    /** `layer - other`. */
    function Sub(other: Operand): (int, int) {
      (dims.0 - Target(other).0, dims.1 - Target(other).1)
    }

    /** `layer * other` (also `other * layer`). */
    function Mul(other: Operand): (int, int) {
      (dims.0 * Target(other).0, dims.1 * Target(other).1)
    }

    /** Adding and then subtracting the same operand, component by
        component, gives the dimensions back; a number acts as the pair
        `(n, n)`; 0 and 1 are the identities of `+` and `*`. */
    lemma DimensionArithmetic(other: Operand, n: int)
      ensures var s := Add(other);
        (s.0 - Target(other).0, s.1 - Target(other).1) == dims
      ensures Add(Scalar(n)) == Add(Pair(n, n)) && Sub(Scalar(n)) == Sub(Pair(n, n)) && Mul(Scalar(n)) == Mul(Pair(n, n))
      ensures Add(Scalar(0)) == dims && Mul(Scalar(1)) == dims
      ensures Sub(OfLayer(this)) == (0, 0)
    {
    }
  }

  /** `n + layer`, `(w, h) + layer`, `n * layer` and `(w, h) * layer` go to
      `__radd__ = __add__` and `__rmul__ = __mul__`, which give what the
      operator written that way round means: the number or pair combined
      with the dimensions component by component. (`n - layer` has no
      reflected method and is not modelled.) */
  lemma ReflectedOperators(l: Layer, n: int, w: int, h: int)
    ensures l.Add(Scalar(n)) == (n + l.dims.0, n + l.dims.1)
    ensures l.Add(Pair(w, h)) == (w + l.dims.0, h + l.dims.1)
    ensures l.Mul(Scalar(n)) == (n * l.dims.0, n * l.dims.1)
    ensures l.Mul(Pair(w, h)) == (w * l.dims.0, h * l.dims.1)
  {
  }

  // ---------------------------------------------------------------------
  // LayerManager (src/layering.py:21-113)
  // ---------------------------------------------------------------------

  /** The first layer of `ls` named `name`. */
  function FirstNamed(ls: seq<Layer>, name: string): (r: Option<nat>)
    reads ls
    ensures r.Some? ==>
      (r.value < |ls| && ls[r.value].name == name && forall j :: 0 <= j < r.value ==> ls[j].name != name)
    ensures r.None? <==> forall j :: 0 <= j < |ls| ==> ls[j].name != name
  {
    if ls == [] then None
    else if ls[0].name == name then Some(0)
    else
      match FirstNamed(ls[1..], name)
      case None => None
      case Some(i) => Some(i + 1)
  }

  class LayerManager {
    const canvasDimensions: (int, int)
    /** The stack, index 0 on top. */
    var layers: seq<Layer>
    /** The base scheme, absent until `importBaseScheme`. */
    var schema: Scheme.PresentationSchema?

    constructor (canvasDimensions: (int, int))
      ensures this.canvasDimensions == canvasDimensions && layers == [] && schema == null
    {
      this.canvasDimensions := canvasDimensions;
      layers := [];
      schema := null;
    }

    /** `importBaseScheme(scheme)`. */
    method ImportBaseScheme(s: Scheme.PresentationSchema)
      modifies this
      ensures schema == s && layers == old(layers)
    {
      schema := s;
    }

    /** `new(name, obj, position)`: names and places the layer, gives it the
        base scheme's entry for its kind, and puts it on top of the stack.
        Without a base scheme the lookup raises `AttributeError` after the
        layer's own fields are set. */
    method New(name: string, obj: Layer, position: (int, int)) returns (r: Outcome)
      modifies this, obj
      ensures obj.name == name && obj.position == position && obj.manager == this
      ensures schema == old(schema)
      ensures old(schema) == null ==> r == Fail(AttributeError) && layers == old(layers) && obj.scheme == old(obj.scheme)
      ensures old(schema) != null ==> r == Pass && layers == [obj] + old(layers)
      ensures old(schema) != null ==> GetCurrentDepth() == old(GetCurrentDepth()) + 1
      ensures old(schema) != null && obj.kind in old(schema.entries) ==> obj.scheme == Some(old(schema.entries)[obj.kind])
      ensures old(schema) != null && obj.kind !in old(schema.entries) ==> obj.scheme == old(obj.scheme)
    {
      obj.name := name;
      obj.position := position;
      obj.manager := this;
      if schema == null {
        return Fail(AttributeError);
      }
      if obj.kind in schema.entries {
        obj.scheme := Some(schema.entries[obj.kind]);
      }
      layers := PyLists.Insert(layers, 0, obj);
      return Pass;
    }

    /** `getLayerByName(name)`: the first layer so named, or `None` for the
        source's `False`. */
    function GetLayerByName(name: string): (r: Option<Layer>)
      reads this, layers
      ensures r.Some? <==> FirstNamed(layers, name).Some?
      ensures r.Some? ==> r.value == layers[FirstNamed(layers, name).value] && r.value.name == name
    {
      match FirstNamed(layers, name)
      case None => None
      case Some(i) => Some(layers[i])
    }

    /** `hasLayer(name)`. */
    function HasLayer(name: string): (r: bool)
      reads this, layers
      ensures r <==> exists j :: 0 <= j < |layers| && layers[j].name == name
    {
      GetLayerByName(name).Some?
    }

    /** `getStackPosition(layer)`: `list.index`, by identity. */
    function GetStackPosition(layer: Layer): (r: Result<nat>)
      reads this
      ensures r.Err? <==> layer !in layers
      ensures r.Err? ==> r.error == ValueError
      ensures r.Ok? ==>
        (r.value < |layers| && layers[r.value] == layer && forall j :: 0 <= j < r.value ==> layers[j] != layer)
    {
      PyLists.Index(layers, layer)
    }

    /** `getCurrentDepth()`. */
    function GetCurrentDepth(): (r: nat)
      reads this
      ensures r == |layers|
    {
      |layers|
    }

    /** `isCollision(name1, name2)`: an unknown name reaches `False`, whose
        missing `positionalBounds` raises `AttributeError`; otherwise the
        two layers collide when both their x and their y ranges overlap (the
        source returns `None`, which is false, when they do not). */
    function IsCollision(name1: string, name2: string): (r: Result<bool>)
      reads this, layers
      ensures r.Err? <==> !HasLayer(name1) || !HasLayer(name2)
      ensures r.Err? ==> r.error == AttributeError
      ensures r.Ok? ==> var a := GetLayerByName(name1).value; var b := GetLayerByName(name2).value;
        (r.value <==>
          && Max(a.position.0, b.position.0) < Min(a.dims.0, b.dims.0)
          && Max(a.position.1, b.position.1) < Min(a.dims.1, b.dims.1))
    {
      match GetLayerByName(name1)
      case None => Err(AttributeError)
      case Some(a) =>
        match GetLayerByName(name2)
        case None => Err(AttributeError)
        case Some(b) =>
          var l1 := a.PositionalBounds();
          var l2 := b.PositionalBounds();
          RangesShare(a.position.0, a.dims.0, b.position.0, b.dims.0);
          RangesShare(a.position.1, a.dims.1, b.position.1, b.dims.1);
          Ok(AnyIn(l2.0, l1.0) && AnyIn(l2.1, l1.1))
    }

    /** The first layer with a name is the first occurrence of that object. */
    lemma FirstNamedIsIndexed(name: string)
      requires FirstNamed(layers, name).Some?
      ensures GetStackPosition(layers[FirstNamed(layers, name).value]) == Ok(FirstNamed(layers, name).value)
    {
      var i := FirstNamed(layers, name).value;
      var p := GetStackPosition(layers[i]);
      assert p.Ok? && layers[p.value] == layers[i];
    }

    /** `destroy(name)`: removes the first layer so named and keeps the rest
        in order; an unknown name reaches `list.index(False)`, which raises
        `ValueError`. */
    method Destroy(name: string) returns (r: Outcome)
      modifies this
      ensures FirstNamed(old(layers), name).None? ==> r == Fail(ValueError) && layers == old(layers)
      ensures FirstNamed(old(layers), name).Some? ==>
        var i := FirstNamed(old(layers), name).value;
        r == Pass && layers == old(layers)[..i] + old(layers)[i + 1..]
      ensures FirstNamed(old(layers), name).Some? ==> GetCurrentDepth() == old(GetCurrentDepth()) - 1
    {
      var found := GetLayerByName(name);
      if found.None? {
        return Fail(ValueError);
      }
      FirstNamedIsIndexed(name);
      var pos := GetStackPosition(found.value).value;
      layers := PyLists.Delete(layers, pos).value;
      return Pass;
    }

    /** `moveToTop(layer)`. */
    method MoveToTop(layer: Layer) returns (r: Outcome)
      modifies this
      ensures old(layer.ZIndex()).Err? ==> r == Fail(old(layer.ZIndex()).error) && layers == old(layers)
      ensures old(layer.ZIndex()).Ok? ==> (layers, r) == MovedToTop(old(layers), layer, old(layer.ZIndex()).value)
      ensures old(layer.manager) == this && old(layer.ZIndex()).Ok? ==> r == Pass && GetCurrentDepth() == old(GetCurrentDepth())
    {
      var z := layer.ZIndex();
      if z.Err? {
        return Fail(z.error);
      }
      if layer.manager == this {
        MovesKeepDepth(layers, layer, z.value);
      }
      var moved := MovedToTop(layers, layer, z.value);
      layers, r := moved.0, moved.1;
    }

    /** `moveUp(layer)`. */
    method MoveUp(layer: Layer) returns (r: Outcome)
      modifies this
      ensures old(layer.ZIndex()).Err? ==> r == Fail(old(layer.ZIndex()).error) && layers == old(layers)
      ensures old(layer.ZIndex()).Ok? ==> (layers, r) == MovedUp(old(layers), layer, old(layer.ZIndex()).value)
      ensures old(layer.manager) == this && old(layer.ZIndex()).Ok? ==> r == Pass && GetCurrentDepth() == old(GetCurrentDepth())
    {
      var z := layer.ZIndex();
      if z.Err? {
        return Fail(z.error);
      }
      if layer.manager == this {
        MovesKeepDepth(layers, layer, z.value);
      }
      var moved := MovedUp(layers, layer, z.value);
      layers, r := moved.0, moved.1;
    }

    /** `moveToBottom(layer)`, as written. */
    method MoveToBottom(layer: Layer) returns (r: Outcome)
      modifies this
      ensures old(layer.ZIndex()).Err? ==> r == Fail(old(layer.ZIndex()).error) && layers == old(layers)
      ensures old(layer.ZIndex()).Ok? ==> (layers, r) == MovedToBottomAsWritten(old(layers), layer, old(layer.ZIndex()).value)
      ensures old(layer.manager) == this && old(layer.ZIndex()).Ok? ==> r == Pass && GetCurrentDepth() == old(GetCurrentDepth())
    {
      var z := layer.ZIndex();
      if z.Err? {
        return Fail(z.error);
      }
      if layer.manager == this {
        MovesKeepDepth(layers, layer, z.value);
      }
      var moved := MovedToBottomAsWritten(layers, layer, z.value);
      layers, r := moved.0, moved.1;
    }

    /** `moveDown(layer)`, as written. */
    method MoveDown(layer: Layer) returns (r: Outcome)
      modifies this
      ensures old(layer.ZIndex()).Err? ==> r == Fail(old(layer.ZIndex()).error) && layers == old(layers)
      ensures old(layer.ZIndex()).Ok? ==> (layers, r) == MovedDownAsWritten(old(layers), layer, old(layer.ZIndex()).value)
      ensures old(layer.manager) == this && old(layer.ZIndex()).Ok? ==> r == Pass && GetCurrentDepth() == old(GetCurrentDepth())
    {
      var z := layer.ZIndex();
      if z.Err? {
        return Fail(z.error);
      }
      if layer.manager == this {
        MovesKeepDepth(layers, layer, z.value);
      }
      var moved := MovedDownAsWritten(layers, layer, z.value);
      layers, r := moved.0, moved.1;
    }

    /** A layer managed here is found at its own place, so the moves above
        are permutations of the stack. */
    lemma OwnZIndex(layer: Layer)
      requires layer.manager == this && layer in layers
      ensures layer.ZIndex().Ok? && layers[layer.ZIndex().value] == layer
    {
    }

    /** `renderAll()`: the stack is reversed, each layer visited (bottom
        first) with the opacity its scheme gives, and reversed back. */
    method RenderAll() returns (order: seq<Layer>, opacities: seq<Option<real>>)
      modifies this
      ensures layers == old(layers)
      ensures order == PyLists.Reverse(old(layers))
      ensures |opacities| == |order|
      ensures forall i :: 0 <= i < |order| ==> opacities[i] == RenderOpacity(order[i].scheme)
    {
      layers := PyLists.Reverse(layers);
      order := layers;
      opacities := [];
      var i := 0;
      while i < |layers|
        invariant 0 <= i <= |layers| && layers == order
        invariant |opacities| == i
        invariant forall j :: 0 <= j < i ==> opacities[j] == RenderOpacity(order[j].scheme)
      {
        opacities := opacities + [RenderOpacity(layers[i].scheme)];
        i := i + 1;
      }
      PyLists.ReverseReverse(old(layers));
      layers := PyLists.Reverse(layers);
    }
  }
}
