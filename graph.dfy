/** The series/category data model of src/graph.py.

    A `Series` is a list of `Category` values, each a titled list of data
    points; a `Graph` collects series by title and merges their categories.
    Categories are values here: the source shares `Category` objects between
    a series and the graph, which this model does not capture. */
module Graph {
  import opened Wrappers
  import opened RenderUtils
  import PyLists

  /** A category (or equation input) title: a string or a number. */
  datatype Title = Str(s: string) | Num(n: Number)

  /** Python `==` on titles: numbers compare by value (`1 == 1.0`), a string
      never equals a number. */
  predicate SameTitle(a: Title, b: Title) {
    match a
    case Str(x) => b.Str? && b.s == x
    case Num(x) => b.Num? && b.n.Val() == x.Val()
  }

  lemma SameTitleIsEquivalence(a: Title, b: Title, c: Title)
    ensures SameTitle(a, a)
    ensures SameTitle(a, b) ==> SameTitle(b, a)
    ensures SameTitle(a, b) && SameTitle(b, c) ==> SameTitle(a, c)
  {
  }

  /** `Category(title, series_title)` with the data points it holds. */
  datatype Category = Category(title: Title, seriesTitle: string, values: seq<Number>)

  /** `[cat.title for cat in cats]`. */
  function TitlesOf(cats: seq<Category>): (ts: seq<Title>)
    ensures |ts| == |cats|
    ensures forall i :: 0 <= i < |cats| ==> ts[i] == cats[i].title
  {
    if cats == [] then [] else [cats[0].title] + TitlesOf(cats[1..])
  }

  /** `t in [cat.title for cat in cats]`. */
  predicate HasTitle(cats: seq<Category>, t: Title) {
    exists i :: 0 <= i < |cats| && SameTitle(cats[i].title, t)
  }

  /** No two categories have equal titles. */
  predicate UniqueTitles(cats: seq<Category>) {
    forall i, j :: 0 <= i < j < |cats| ==> !SameTitle(cats[i].title, cats[j].title)
  }

  /** The least index of a category titled `t`, if there is one. */
  function FindTitle(cats: seq<Category>, t: Title): (r: Option<nat>)
    ensures r.Some? ==> r.value < |cats| && SameTitle(cats[r.value].title, t)
    ensures r.Some? ==> forall j :: 0 <= j < r.value ==> !SameTitle(cats[j].title, t)
    ensures r.None? <==> !HasTitle(cats, t)
  {
    if cats == [] then None
    else if SameTitle(cats[0].title, t) then Some(0)
    else
      var r := FindTitle(cats[1..], t);
      assert forall j :: 1 <= j < |cats| ==> cats[1..][j - 1] == cats[j];
      if r.None? then None else Some(r.value + 1)
  }

  // ---------------------------------------------------------------------
  // Series.append / extend (src/graph.py:95-103) as functions of the list
  // ---------------------------------------------------------------------

  /** The categories after `series.append(t, v)`: a new empty category titled
      `t` is added at the end when none exists, then `v` is appended to the
      first category titled `t`. */
  function Appended(cats: seq<Category>, seriesTitle: string, t: Title, v: Number): (r: seq<Category>)
    ensures |r| == if HasTitle(cats, t) then |cats| else |cats| + 1
  {
    var c := if HasTitle(cats, t) then cats else cats + [Category(t, seriesTitle, [])];
    assert SameTitle(c[|c| - 1].title, t) || HasTitle(cats, t);
    assert HasTitle(c, t);
    var i := FindTitle(c, t).value;
    c[i := c[i].(values := c[i].values + [v])]
  }

  /** What `append` does when a category titled `t` exists: the first such
      category gains `v` at the end of its values and every other category
      is unchanged. */
  lemma AppendedToExisting(cats: seq<Category>, st: string, t: Title, v: Number)
    requires HasTitle(cats, t)
    ensures var r := Appended(cats, st, t, v);
      var i := FindTitle(cats, t).value;
      && r[i] == cats[i].(values := cats[i].values + [v])
      && (forall j :: 0 <= j < |cats| && j != i ==> r[j] == cats[j])
  {
  }

  /** What `append` does when no category is titled `t`: the existing
      categories are unchanged and a new category `(t, [v])` ends the list. */
  lemma AppendedToNew(cats: seq<Category>, st: string, t: Title, v: Number)
    requires !HasTitle(cats, t)
    ensures var r := Appended(cats, st, t, v);
      r == cats + [Category(t, st, [v])]
  {
    var c := cats + [Category(t, st, [])];
    assert forall j :: 0 <= j < |cats| ==> c[j] == cats[j];
    SameTitleIsEquivalence(t, t, t);
    FindTitleIsLeast(c, t, |cats|);
    assert c[|cats|].values + [v] == [v];
    assert c[|cats| := c[|cats|].(values := c[|cats|].values + [v])] == cats + [Category(t, st, [v])];
    assert Appended(cats, st, t, v) == c[|cats| := c[|cats|].(values := c[|cats|].values + [v])];
  }

  /** Appending never changes the titles already present. */
  lemma AppendedKeepsTitles(cats: seq<Category>, st: string, t: Title, v: Number)
    ensures var r := Appended(cats, st, t, v);
      forall j :: 0 <= j < |cats| ==> r[j].title == cats[j].title
  {
    if !HasTitle(cats, t) {
      AppendedToNew(cats, st, t, v);
    }
  }

  /** Appending keeps titles unique. */
  lemma AppendedKeepsUnique(cats: seq<Category>, st: string, t: Title, v: Number)
    requires UniqueTitles(cats)
    ensures UniqueTitles(Appended(cats, st, t, v))
  {
    var r := Appended(cats, st, t, v);
    AppendedKeepsTitles(cats, st, t, v);
    forall i, j | 0 <= i < j < |r|
      ensures !SameTitle(r[i].title, r[j].title)
    {
      if j == |cats| {
        AppendedToNew(cats, st, t, v);
        assert !SameTitle(cats[i].title, t);
      }
    }
  }

  /** `for title, value in pairs: series.append(title, value)`. */
  function ExtendedBy(cats: seq<Category>, st: string, pairs: seq<(Title, Number)>): (r: seq<Category>)
    ensures |cats| <= |r| <= |cats| + |pairs|
  {
    if pairs == [] then cats
    else
      var last := pairs[|pairs| - 1];
      Appended(ExtendedBy(cats, st, pairs[..|pairs| - 1]), st, last.0, last.1)
  }

  /** Extending keeps titles unique, never drops or reorders existing titles,
      and adds at most one category per pair. */
  lemma {:induction false} ExtendedKeepsUnique(cats: seq<Category>, st: string, pairs: seq<(Title, Number)>)
    requires UniqueTitles(cats)
    ensures UniqueTitles(ExtendedBy(cats, st, pairs))
    ensures forall j :: 0 <= j < |cats| ==> ExtendedBy(cats, st, pairs)[j].title == cats[j].title
  {
    if pairs != [] {
      var front := pairs[..|pairs| - 1];
      var last := pairs[|pairs| - 1];
      var mid := ExtendedBy(cats, st, front);
      ExtendedKeepsUnique(cats, st, front);
      AppendedKeepsUnique(mid, st, last.0, last.1);
      AppendedKeepsTitles(mid, st, last.0, last.1);
    }
  }

  /** Splitting the pairs splits the extension. */
  lemma {:induction false} ExtendedByConcat(cats: seq<Category>, st: string, a: seq<(Title, Number)>, b: seq<(Title, Number)>)
    ensures ExtendedBy(cats, st, a + b) == ExtendedBy(ExtendedBy(cats, st, a), st, b)
  {
    if b == [] {
      assert a + b == a;
    } else {
      assert (a + b)[..|a + b| - 1] == a + b[..|b| - 1];
      ExtendedByConcat(cats, st, a, b[..|b| - 1]);
    }
  }

  /** The pairs `(x, f(x))` for `x` in `rng`, in order. */
  function EquationPairs(rng: seq<Title>, f: Title -> Number): (ps: seq<(Title, Number)>)
    ensures |ps| == |rng|
    ensures forall i :: 0 <= i < |rng| ==> ps[i] == (rng[i], f(rng[i]))
  {
    seq(|rng|, i requires 0 <= i < |rng| => (rng[i], f(rng[i])))
  }

  /** Evaluating over a joined range joins the evaluations, so each point is
      computed from its own `x` alone and the order of `rng` is kept. */
  lemma EquationPairsConcat(a: seq<Title>, b: seq<Title>, f: Title -> Number)
    ensures EquationPairs(a + b, f) == EquationPairs(a, f) + EquationPairs(b, f)
  {
    var l, r := EquationPairs(a + b, f), EquationPairs(a, f) + EquationPairs(b, f);
    assert |l| == |r|;
    forall i | 0 <= i < |l|
      ensures l[i] == r[i]
    {
      if i < |a| {
        assert (a + b)[i] == a[i];
      } else {
        assert (a + b)[i] == b[i - |a|];
      }
    }
  }

  class Series {
    const title: string
    /** The list of categories that `Series` (a `list` subclass) holds. */
    var categories: seq<Category>

    /** `Series(title, dataset)`: every `(key, value)` of the dict, in its
        iteration order, is appended; no dict means no categories. */
    constructor (title: string, dataset: seq<(Title, Number)>)
      ensures this.title == title
      ensures categories == ExtendedBy([], title, dataset)
    {
      this.title := title;
      categories := [];
      new;
      Extend(dataset);
    }

    /** The `titles` property. */
    function Titles(): seq<Title>
      reads this
    {
      TitlesOf(categories)
    }

    /** `index(title)`: the least position of a category titled `t`, or `KeyError`. */
    method Index(t: Title) returns (r: Result<nat>)
      ensures r.Ok? ==> r.value < |categories| && SameTitle(categories[r.value].title, t)
      ensures r.Ok? ==> forall j :: 0 <= j < r.value ==> !SameTitle(categories[j].title, t)
      ensures r.Err? <==> !HasTitle(categories, t)
      ensures r.Err? ==> r.error == KeyError
    {
      var i := 0;
      while i < |categories|
        invariant 0 <= i <= |categories|
        invariant forall j :: 0 <= j < i ==> !SameTitle(categories[j].title, t)
      {
        if SameTitle(categories[i].title, t) {
          return Ok(i);
        }
        i := i + 1;
      }
      return Err(KeyError);
    }

    /** `append(title, value)`. */
    method Append(t: Title, v: Number)
      modifies this
      ensures categories == Appended(old(categories), title, t, v)
    {
      ghost var before := categories;
      if !HasTitle(categories, t) {
        categories := categories + [Category(t, title, [])];
      }
      assert HasTitle(categories, t) by {
        if !HasTitle(before, t) {
          assert SameTitle(categories[|categories| - 1].title, t);
        }
      }
      var r := Index(t);
      match r
      case Ok(i) =>
        FindTitleIsLeast(categories, t, i);
        categories := categories[i := categories[i].(values := categories[i].values + [v])];
      case Err(_) =>
        assert false;
    }

    /** `extend(pairs)`. */
    method Extend(pairs: seq<(Title, Number)>)
      modifies this
      ensures categories == ExtendedBy(old(categories), title, pairs)
    {
      var k := 0;
      while k < |pairs|
        invariant 0 <= k <= |pairs|
        invariant categories == ExtendedBy(old(categories), title, pairs[..k])
      {
        assert pairs[..k + 1][..k] == pairs[..k];
        Append(pairs[k].0, pairs[k].1);
        k := k + 1;
      }
      assert pairs[..k] == pairs;
    }

    /** `insert(position, (title, value))`: a one-value category is placed
        where `list.insert` puts it, without any check for a duplicate title. */
    method Insert(position: int, t: Title, v: Number)
      modifies this
      ensures categories == PyLists.Insert(old(categories), position, Category(t, title, [v]))
    {
      var c := Category(t, title, [v]);
      categories := PyLists.Insert(categories, position, c);
    }

    /** `remove(title)`: deletes the first category titled `t`; `KeyError`
        (and no change) when there is none. */
    method Remove(t: Title) returns (r: Outcome)
      modifies this
      ensures r.Fail? <==> !HasTitle(old(categories), t)
      ensures r.Fail? ==> r.error == KeyError && categories == old(categories)
      ensures r.Pass? ==> var i := FindTitle(old(categories), t).value;
        categories == old(categories)[..i] + old(categories)[i + 1..]
    {
      var idx := Index(t);
      match idx
      case Err(e) =>
        return Fail(e);
      case Ok(i) =>
        FindTitleIsLeast(categories, t, i);
        categories := categories[..i] + categories[i + 1..];
        return Pass;
    }

    /** `fromEquation(rng, func)`: appends `(x, func(x))` for each `x` and
        returns the series itself. */
    method FromEquation(rng: seq<Title>, f: Title -> Number) returns (s: Series)
      modifies this
      ensures s == this
      ensures categories == ExtendedBy(old(categories), title, EquationPairs(rng, f))
    {
      var k := 0;
      while k < |rng|
        invariant 0 <= k <= |rng|
        invariant categories == ExtendedBy(old(categories), title, EquationPairs(rng[..k], f))
      {
        assert EquationPairs(rng[..k + 1], f)[..k] == EquationPairs(rng[..k], f);
        Append(rng[k], f(rng[k]));
        k := k + 1;
      }
      assert rng[..k] == rng;
      return this;
    }
  }

  /** The index a search returns is the one `FindTitle` specifies. */
  lemma FindTitleIsLeast(cats: seq<Category>, t: Title, i: nat)
    requires i < |cats| && SameTitle(cats[i].title, t)
    requires forall j :: 0 <= j < i ==> !SameTitle(cats[j].title, t)
    ensures FindTitle(cats, t) == Some(i)
  {
    var r := FindTitle(cats, t);
    if r.value < i {
    } else if r.value > i {
    }
  }

  // ---------------------------------------------------------------------
  // Graph.__importCategory / importSeries (src/graph.py:47-65)
  // ---------------------------------------------------------------------

  /** The graph's categories after `__importCategory(c)`: a new title is added
      at the end; otherwise every category with that title gets `c`'s values
      appended. */
  function ImportCategory(cats: seq<Category>, c: Category): (r: seq<Category>)
  {
    if !HasTitle(cats, c.title) then cats + [c]
    else seq(|cats|, i requires 0 <= i < |cats| => MergedInto(cats[i], c))
  }

  /** A graph category after `c` was imported: extended when the titles match. */
  function MergedInto(g: Category, c: Category): (r: Category)
    ensures r.title == g.title
  {
    if SameTitle(g.title, c.title) then g.(values := g.values + c.values) else g
  }

  /** Importing a category keeps the graph's titles unique and in first-seen
      order, and merges the values of a known title into the existing category. */
  lemma ImportCategoryEffect(cats: seq<Category>, c: Category)
    requires UniqueTitles(cats)
    ensures var r := ImportCategory(cats, c);
      && UniqueTitles(r)
      && TitlesOf(r) == TitlesOf(cats) + (if HasTitle(cats, c.title) then [] else [c.title])
      && (HasTitle(cats, c.title) ==>
            var i := FindTitle(cats, c.title).value;
            && r[i].values == cats[i].values + c.values
            && forall j :: 0 <= j < |cats| && j != i ==> r[j] == cats[j])
  {
    if HasTitle(cats, c.title) {
      ImportKnownCategory(cats, c);
    } else {
      ImportNewCategory(cats, c);
    }
  }

  lemma ImportKnownCategory(cats: seq<Category>, c: Category)
    requires UniqueTitles(cats) && HasTitle(cats, c.title)
    ensures var r := ImportCategory(cats, c);
      var i := FindTitle(cats, c.title).value;
      && UniqueTitles(r)
      && TitlesOf(r) == TitlesOf(cats)
      && r[i].values == cats[i].values + c.values
      && forall j :: 0 <= j < |cats| && j != i ==> r[j] == cats[j]
  {
    var r := ImportCategory(cats, c);
    var i := FindTitle(cats, c.title).value;
    forall j | 0 <= j < |cats| && j != i
      ensures r[j] == cats[j]
    {
      if SameTitle(cats[j].title, c.title) {
        SameTitleIsEquivalence(cats[j].title, c.title, cats[i].title);
        SameTitleIsEquivalence(cats[i].title, c.title, cats[j].title);
        assert false;
      }
    }
    MergeKeepsTitles(cats, c);
  }

  /** Merging changes no title. */
  lemma MergeKeepsTitles(cats: seq<Category>, c: Category)
    requires UniqueTitles(cats) && HasTitle(cats, c.title)
    ensures var r := ImportCategory(cats, c);
      UniqueTitles(r) && TitlesOf(r) == TitlesOf(cats)
  {
    var r := ImportCategory(cats, c);
    assert forall j :: 0 <= j < |r| ==> r[j].title == cats[j].title;
  }

  lemma ImportNewCategory(cats: seq<Category>, c: Category)
    requires UniqueTitles(cats) && !HasTitle(cats, c.title)
    ensures var r := ImportCategory(cats, c);
      && r == cats + [c]
      && UniqueTitles(r)
      && TitlesOf(r) == TitlesOf(cats) + [c.title]
  {
    var r := cats + [c];
    forall i, j | 0 <= i < j < |r|
      ensures !SameTitle(r[i].title, r[j].title)
    {
      if j == |cats| {
        assert !SameTitle(cats[i].title, c.title);
      }
    }
  }

  /** Importing a sequence of categories one after another. */
  function ImportCategories(cats: seq<Category>, incoming: seq<Category>): (r: seq<Category>)
  {
    if incoming == [] then cats
    else ImportCategory(ImportCategories(cats, incoming[..|incoming| - 1]), incoming[|incoming| - 1])
  }

  lemma {:induction false} ImportCategoriesConcat(cats: seq<Category>, a: seq<Category>, b: seq<Category>)
    ensures ImportCategories(cats, a + b) == ImportCategories(ImportCategories(cats, a), b)
  {
    if b == [] {
      assert a + b == a;
    } else {
      assert (a + b)[..|a + b| - 1] == a + b[..|b| - 1];
      ImportCategoriesConcat(cats, a, b[..|b| - 1]);
    }
  }

  /** Any number of imports keeps the graph's titles unique. */
  lemma {:induction false} ImportCategoriesKeepsUnique(cats: seq<Category>, incoming: seq<Category>)
    requires UniqueTitles(cats)
    ensures UniqueTitles(ImportCategories(cats, incoming))
  {
    if incoming != [] {
      ImportCategoriesKeepsUnique(cats, incoming[..|incoming| - 1]);
      ImportCategoryEffect(ImportCategories(cats, incoming[..|incoming| - 1]), incoming[|incoming| - 1]);
    }
  }

  /** An argument of `importSeries`: a `Series`, or anything else. */
  datatype Importable = SeriesArg(series: Series) | NotSeries

  /** The series among `args` before the first argument that is not one. */
  function SeriesPrefix(args: seq<Importable>): (ss: seq<Series>)
    ensures |ss| <= |args|
    ensures forall i :: 0 <= i < |ss| ==> args[i] == SeriesArg(ss[i])
    ensures |ss| < |args| ==> args[|ss|].NotSeries?
  {
    if args == [] || args[0].NotSeries? then []
    else [args[0].series] + SeriesPrefix(args[1..])
  }

  /** All categories of the given series, series after series. */
  function CategoriesOf(ss: seq<Series>): seq<Category>
    reads ss
  {
    if ss == [] then [] else CategoriesOf(ss[..|ss| - 1]) + ss[|ss| - 1].categories
  }

  /** The graph's series map after storing each series under its title:
      with two equal titles the later series wins. */
  function StoreSeries(m: map<string, Series>, ss: seq<Series>): (r: map<string, Series>)
    ensures r.Keys == m.Keys + set s | s in ss :: s.title
  {
    if ss == [] then m else StoreSeries(m, ss[..|ss| - 1])[ss[|ss| - 1].title := ss[|ss| - 1]]
  }

  /** One more series: its categories come last. */
  lemma PrefixSteps(ss: seq<Series>)
    ensures forall k :: 0 <= k < |ss| ==> CategoriesOf(ss[..k + 1]) == CategoriesOf(ss[..k]) + ss[k].categories
  {
    forall k | 0 <= k < |ss|
      ensures CategoriesOf(ss[..k + 1]) == CategoriesOf(ss[..k]) + ss[k].categories
    {
      assert ss[..k + 1][..k] == ss[..k];
    }
  }

  /** One more series: stored under its title. */
  lemma StoreSeriesStep(m: map<string, Series>, ss: seq<Series>, k: nat)
    requires k < |ss|
    ensures StoreSeries(m, ss[..k + 1]) == StoreSeries(m, ss[..k])[ss[k].title := ss[k]]
  {
    assert ss[..k + 1][..k] == ss[..k];
  }

  /** A title's entry is the last series in the list with that title. */
  lemma {:induction false} StoreSeriesLastWins(m: map<string, Series>, ss: seq<Series>, i: nat)
    requires i < |ss|
    requires forall j :: i < j < |ss| ==> ss[j].title != ss[i].title
    ensures StoreSeries(m, ss)[ss[i].title] == ss[i]
  {
    if i < |ss| - 1 {
      StoreSeriesLastWins(m, ss[..|ss| - 1], i);
    }
  }

  class Graph {
    var series: map<string, Series>
    var categories: seq<Category>

    /** The data part of `Graph()`: no series and no categories. */
    constructor ()
      ensures series == map[] && categories == []
    {
      series := map[];
      categories := [];
    }

    /** `__importCategory(category)`. */
    method ImportOneCategory(c: Category)
      modifies this
      ensures series == old(series)
      ensures categories == ImportCategory(old(categories), c)
    {
      var known := false;
      var k := 0;
      while k < |categories|
        invariant 0 <= k <= |categories|
        invariant known <==> exists j :: 0 <= j < k && SameTitle(categories[j].title, c.title)
      {
        if SameTitle(categories[k].title, c.title) {
          known := true;
        }
        k := k + 1;
      }
      if !known {
        categories := categories + [c];
      } else {
        var cats := categories;
        var i := 0;
        while i < |cats|
          invariant 0 <= i <= |cats| && |categories| == |cats|
          invariant series == old(series)
          invariant forall j :: 0 <= j < i ==> categories[j] == MergedInto(cats[j], c)
          invariant forall j :: i <= j < |cats| ==> categories[j] == cats[j]
        {
          if SameTitle(cats[i].title, c.title) {
            categories := categories[i := MergedInto(cats[i], c)];
          }
          i := i + 1;
        }
      }
    }

    /** `map(self.__importCategory, series)`. */
    method ImportAllCategories(incoming: seq<Category>)
      modifies this
      ensures series == old(series)
      ensures categories == ImportCategories(old(categories), incoming)
    {
      var i := 0;
      while i < |incoming|
        invariant 0 <= i <= |incoming|
        invariant series == old(series)
        invariant categories == ImportCategories(old(categories), incoming[..i])
      {
        assert incoming[..i + 1][..i] == incoming[..i];
        ImportOneCategory(incoming[i]);
        i := i + 1;
      }
      assert incoming[..i] == incoming;
    }

    /** One iteration of `importSeries`: the series is stored under its
        title, then its categories are imported. */
    method Store(s: Series)
      modifies this
      ensures series == old(series)[s.title := s]
      ensures categories == ImportCategories(old(categories), s.categories)
    {
      series := series[s.title := s];
      ImportAllCategories(s.categories);
    }

    /** `importSeries(*args)`: each series is stored under its title and its
        categories are imported in order; the first argument that is not a
        series raises `TypeError`, after the series before it were imported. */
    method ImportSeries(args: seq<Importable>) returns (r: Outcome)
      modifies this
      ensures var ss := SeriesPrefix(args);
        && series == StoreSeries(old(series), ss)
        && categories == ImportCategories(old(categories), old(CategoriesOf(ss)))
      ensures r.Pass? <==> forall i :: 0 <= i < |args| ==> args[i].SeriesArg?
      ensures r.Fail? ==> r.error == TypeError
    {
      ghost var ss := SeriesPrefix(args);
      ghost var cats0 := categories;
      PrefixSteps(ss);
      var k := 0;
      while k < |args|
        invariant 0 <= k <= |ss|
        invariant series == StoreSeries(old(series), ss[..k])
        invariant categories == ImportCategories(cats0, old(CategoriesOf(ss[..k])))
      {
        if args[k].NotSeries? {
          assert !args[k].SeriesArg?;
          assert |ss| == k;
          assert ss[..k] == ss;
          return Fail(TypeError);
        }
        var s := args[k].series;
        assert k < |ss| && ss[k] == s;
        assert s.categories == old(s.categories);
        StoreSeriesStep(old(series), ss, k);
        ImportCategoriesConcat(cats0, old(CategoriesOf(ss[..k])), s.categories);
        Store(s);
        k := k + 1;
      }
      assert ss[..k] == ss;
      assert |ss| == |args|;
      return Pass;
    }
  }
}
