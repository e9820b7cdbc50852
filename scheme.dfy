/** The presentation schema: a tree of nested dictionaries of style
    settings, built with `addRule`, edited with `pathUpdate` at a dotted
    selector, and searched for the font styles it holds. */
module Scheme {
  import opened Wrappers
  import PyLists

  /** A `FontStyle` object, known only by its identity. */
  datatype FontStyle = FontStyle(id: nat)

  /** The scalar values a schema holds. `Object` stands for any other object
      (a gradient, an image). */
  datatype Atom =
    | NoneAtom
    | Bool(b: bool)
    | Int(i: int)
    | Real(r: real)
    | Str(s: string)
    | Font(style: FontStyle)
    | Object

  /** A schema value: a scalar, a list (or tuple), or a dictionary. */
  datatype Value =
    | Leaf(atom: Atom)
    | List(items: seq<Value>)
    | Dict(entries: map<string, Value>)

  type Entries = map<string, Value>

  /** `d.update(decls)`: the declarations win, every other key is kept. */
  function Update(d: Entries, decls: Entries): (r: Entries)
    ensures r.Keys == d.Keys + decls.Keys
    ensures forall k :: k in decls ==> r[k] == decls[k]
    ensures forall k :: k in d && k !in decls ==> r[k] == d[k]
  {
    d + decls
  }

  // ---------------------------------------------------------------------
  // addRule (src/scheme.py:26-39)
  // ---------------------------------------------------------------------

  /** `addRule` raises when the dictionary it would update is not one: the
      layer itself without a selector, `layer[selector]` with one. */
  predicate RuleRaises(entries: Entries, layer: string, selector: Option<string>) {
    && layer in entries
    && match selector
       case None => !entries[layer].Dict?
       case Some(sel) =>
         entries[layer].Dict? && sel in entries[layer].entries && !entries[layer].entries[sel].Dict?
  }

  /** The schema after `addRule(layer, decls, selector)`, or the exception
      it raises: `update` on a value that is not a dictionary raises
      `AttributeError`; a selector under a layer that is not a dictionary
      is silently ignored. */
  function AddedRule(entries: Entries, layer: string, decls: Entries, selector: Option<string>): (r: Result<Entries>)
    ensures r.Err? ==> r.error == AttributeError
    ensures r.Err? <==> RuleRaises(entries, layer, selector)
    ensures r.Ok? ==> r.value.Keys == entries.Keys + {layer}
    ensures r.Ok? ==> forall k :: k in entries && k != layer ==> r.value[k] == entries[k]
  {
    if layer in entries then
      match selector
      case None =>
        (match entries[layer]
         case Dict(d) => Ok(entries[layer := Dict(Update(d, decls))])
         case _ => Err(AttributeError))
      case Some(sel) =>
        (match entries[layer]
         case Dict(d) =>
           var inner := if sel in d then d[sel] else Dict(map[]);
           (match inner
            case Dict(e) => Ok(entries[layer := Dict(d[sel := Dict(Update(e, decls))])])
            case _ => Err(AttributeError))
         case _ => Ok(entries))
    else
      match selector
      case None => Ok(entries[layer := Dict(decls)])
      case Some(sel) => Ok(entries[layer := Dict(map[sel := Dict(decls)])])
  }

  /** Without a selector, an existing dictionary layer takes the declarations
      over its own keys and keeps the rest. */
  lemma AddRuleMergesLayer(entries: Entries, layer: string, decls: Entries)
    requires layer in entries && entries[layer].Dict?
    ensures var r := AddedRule(entries, layer, decls, None);
      && r.Ok? && r.value[layer].Dict?
      && r.value[layer].entries.Keys == entries[layer].entries.Keys + decls.Keys
      && (forall k :: k in decls ==> r.value[layer].entries[k] == decls[k])
      && (forall k :: k in entries[layer].entries && k !in decls ==>
            r.value[layer].entries[k] == entries[layer].entries[k])
  {
    var d := entries[layer].entries;
    assert AddedRule(entries, layer, decls, None) == Ok(entries[layer := Dict(Update(d, decls))]);
  }

  /** With a selector, an existing dictionary layer gets the declarations
      merged into `layer[selector]` (created empty when missing); its other
      keys are untouched. */
  lemma AddRuleMergesSelector(entries: Entries, layer: string, decls: Entries, sel: string)
    requires layer in entries && entries[layer].Dict?
    requires sel !in entries[layer].entries || entries[layer].entries[sel].Dict?
    ensures var r := AddedRule(entries, layer, decls, Some(sel));
      var d := entries[layer].entries;
      && r.Ok? && r.value[layer].Dict?
      && r.value[layer].entries.Keys == d.Keys + {sel}
      && (forall k :: k in d && k != sel ==> r.value[layer].entries[k] == d[k])
      && r.value[layer].entries[sel].Dict?
      && (sel !in d ==> r.value[layer].entries[sel] == Dict(decls))
      && (sel in d ==> r.value[layer].entries[sel] == Dict(Update(d[sel].entries, decls)))
  {
    var d := entries[layer].entries;
    var e := if sel in d then d[sel].entries else map[];
    assert AddedRule(entries, layer, decls, Some(sel)) == Ok(entries[layer := Dict(d[sel := Dict(Update(e, decls))])]);
    if sel !in d {
      assert Update(e, decls) == decls;
    }
  }

  /** A new layer is the declarations themselves, or `{selector: decls}`. */
  lemma AddRuleNewLayer(entries: Entries, layer: string, decls: Entries, selector: Option<string>)
    requires layer !in entries
    ensures var r := AddedRule(entries, layer, decls, selector);
      && r.Ok?
      && (selector.None? ==> r.value[layer] == Dict(decls))
      && (selector.Some? ==> r.value[layer] == Dict(map[selector.value := Dict(decls)]))
  {
  }

  // ---------------------------------------------------------------------
  // pathUpdate (src/scheme.py:41-48)
  // ---------------------------------------------------------------------

  /** The characters `pathUpdate` strips from a selector. */
  const Unsafe: string := "()[]{}\\'\""

  predicate IsSafe(c: char) {
    c !in Unsafe
  }

  /** The selector without any character of `Unsafe`, others kept in order. */
  function Sanitize(s: string): (r: string)
    ensures forall i :: 0 <= i < |r| ==> r[i] !in Unsafe && r[i] in s
    ensures forall i :: 0 <= i < |s| && s[i] !in Unsafe ==> s[i] in r
  {
    PyLists.Filter(s, IsSafe)
  }

  /** Sanitizing is idempotent. */
  lemma SanitizeIdempotent(s: string)
    ensures Sanitize(Sanitize(s)) == Sanitize(s)
  {
    PyLists.FilterAllOrNone(Sanitize(s), IsSafe);
  }

  /** `s.split(sep)`: the pieces between separators, at least one. */
  function Split(s: string, sep: char): (r: seq<string>)
    ensures |r| >= 1
    ensures forall i :: 0 <= i < |r| ==> sep !in r[i]
  {
    if s == [] then [""]
    else
      var rest := Split(s[1..], sep);
      if s[0] == sep then [""] + rest else [[s[0]] + rest[0]] + rest[1..]
  }

  /** `sep.join(parts)`. */
  function Join(parts: seq<string>, sep: char): string
    requires |parts| >= 1
  {
    if |parts| == 1 then parts[0] else parts[0] + [sep] + Join(parts[1..], sep)
  }

  /** Joining the pieces of a split gives the string back. */
  lemma {:induction false} JoinSplit(s: string, sep: char)
    ensures Join(Split(s, sep), sep) == s
  {
    if s != [] {
      var rest := Split(s[1..], sep);
      JoinSplit(s[1..], sep);
      if s[0] == sep {
        assert ([""] + rest)[1..] == rest;
      } else {
        var parts := [[s[0]] + rest[0]] + rest[1..];
        if |rest| == 1 {
          assert Join(parts, sep) == [s[0]] + rest[0];
        } else {
          assert parts[1..] == rest[1..];
          assert Join(rest, sep) == rest[0] + [sep] + Join(rest[1..], sep);
        }
      }
    }
  }

  /** Splitting a join of separator-free pieces gives the pieces back. */
  lemma {:induction false} SplitJoin(parts: seq<string>, sep: char)
    requires |parts| >= 1
    requires forall i :: 0 <= i < |parts| ==> sep !in parts[i]
    ensures Split(Join(parts, sep), sep) == parts
  {
    if |parts| == 1 {
      SplitPiece(parts[0], [], sep);
      assert parts[0] + [] == parts[0];
    } else {
      var tail := [sep] + Join(parts[1..], sep);
      SplitJoin(parts[1..], sep);
      SplitPiece(parts[0], tail, sep);
      assert Join(parts, sep) == parts[0] + tail;
      assert tail[1..] == Join(parts[1..], sep);
      assert parts == [parts[0]] + parts[1..];
    }
  }

  /** A separator-free prefix joins the first piece of what follows. */
  lemma {:induction false} SplitPiece(piece: string, tail: string, sep: char)
    requires sep !in piece
    ensures tail == [] ==> Split(piece + tail, sep) == [piece]
    ensures tail != [] && tail[0] == sep ==> Split(piece + tail, sep) == [piece] + Split(tail[1..], sep)
  {
    if piece == [] {
      assert piece + tail == tail;
      if tail != [] && tail[0] == sep {
        assert Split(tail, sep) == [""] + Split(tail[1..], sep);
      }
    } else {
      SplitPiece(piece[1..], tail, sep);
      assert (piece + tail)[1..] == piece[1..] + tail;
      assert [piece[0]] + piece[1..] == piece;
    }
  }

  /** The key path `pathUpdate` assigns at. */
  function PathOf(selector: string): (p: seq<string>)
    ensures |p| >= 1 && Join(p, '.') == Sanitize(selector)
  {
    JoinSplit(Sanitize(selector), '.');
    Split(Sanitize(selector), '.')
  }

  /** The generated statement `self['k1']['k2']... = value` compiles: no key
      holds a line break (which ends the string literal) or a NUL byte. */
  predicate Compiles(path: seq<string>) {
    forall i :: 0 <= i < |path| ==> '\n' !in path[i] && '\0' !in path[i]
  }

  /** The value at a key path, if every step is a dictionary holding the key. */
  function Lookup(v: Value, path: seq<string>): Option<Value> {
    if path == [] then Some(v)
    else
      match v
      case Dict(m) => if path[0] in m then Lookup(m[path[0]], path[1..]) else None
      case _ => None
  }

  /** The value at `p` is a dictionary. */
  predicate IsDictAt(d: Entries, p: seq<string>) {
    Lookup(Dict(d), p).Some? && Lookup(Dict(d), p).value.Dict?
  }

  /** Every proper prefix of the path leads to a dictionary. */
  predicate PathOpen(d: Entries, path: seq<string>) {
    forall n :: 1 <= n < |path| ==> IsDictAt(d, path[..n])
  }

  /** The assignment at `path`, or `None` when a subscript raises. */
  function SetPath(d: Entries, path: seq<string>, v: Value): Option<Entries>
    requires |path| >= 1
    decreases |path|
  {
    if |path| == 1 then Some(d[path[0] := v])
    else if path[0] in d && d[path[0]].Dict? then
      match SetPath(d[path[0]].entries, path[1..], v)
      case None => None
      case Some(inner) => Some(d[path[0] := Dict(inner)])
    else None
  }

  /** A lookup below the first key is a lookup in that key's value. */
  lemma LookupStep(d: Entries, path: seq<string>, n: nat)
    requires 1 <= n <= |path| && path[0] in d && d[path[0]].Dict?
    ensures IsDictAt(d, path[..n]) == IsDictAt(d[path[0]].entries, path[1..][..n - 1])
  {
    assert path[..n][0] == path[0];
    assert path[..n][1..] == path[1..][..n - 1];
  }

  /** The assignment succeeds exactly when every intermediate key exists and
      holds a dictionary. */
  lemma {:induction false} SetPathSucceeds(d: Entries, path: seq<string>, v: Value)
    requires |path| >= 1
    ensures SetPath(d, path, v).Some? <==> PathOpen(d, path)
    decreases |path|
  {
    if |path| > 1 {
      var k := path[0];
      assert path[..1] == [k];
      if k in d && d[k].Dict? {
        var m := d[k].entries;
        SetPathSucceeds(m, path[1..], v);
        forall n | 1 <= n <= |path|
          ensures IsDictAt(d, path[..n]) == IsDictAt(m, path[1..][..n - 1])
        {
          LookupStep(d, path, n);
        }
        if PathOpen(m, path[1..]) {
          forall n | 1 <= n < |path|
            ensures IsDictAt(d, path[..n])
          {
            if n > 1 {
              assert IsDictAt(m, path[1..][..n - 1]);
            }
          }
        } else {
          var j :| 1 <= j < |path[1..]| && !IsDictAt(m, path[1..][..j]);
          assert !IsDictAt(d, path[..j + 1]);
        }
      } else {
        assert [k][1..] == [];
        assert Lookup(Dict(d), [k]) == if k in d then Some(d[k]) else None;
        assert !IsDictAt(d, path[..1]);
      }
    }
  }

  /** After a successful assignment the path holds the value. */
  lemma {:induction false} SetPathStores(d: Entries, path: seq<string>, v: Value)
    requires |path| >= 1 && SetPath(d, path, v).Some?
    ensures Lookup(Dict(SetPath(d, path, v).value), path) == Some(v)
    decreases |path|
  {
    if |path| > 1 {
      SetPathStores(d[path[0]].entries, path[1..], v);
    }
  }

  /** `q` leaves `p` at some key: neither is a prefix of the other. */
  predicate Diverges(p: seq<string>, q: seq<string>) {
    |p| > 0 && |q| > 0 && (p[0] != q[0] || Diverges(p[1..], q[1..]))
  }

  /** An assignment leaves every path that branches off it unchanged. */
  lemma {:induction false} SetPathFrame(d: Entries, path: seq<string>, v: Value, q: seq<string>)
    requires |path| >= 1 && SetPath(d, path, v).Some? && Diverges(path, q)
    ensures Lookup(Dict(SetPath(d, path, v).value), q) == Lookup(Dict(d), q)
    decreases |path|
  {
    if path[0] == q[0] {
      SetPathFrame(d[path[0]].entries, path[1..], v, q[1..]);
    }
  }

  // ---------------------------------------------------------------------
  // getFontStyles (src/scheme.py:50-66)
  // ---------------------------------------------------------------------

  /** `deepFind(v)`: the font styles found through nested dictionaries;
      lists and other objects are not searched. */
  function FontStylesIn(v: Value): (r: set<FontStyle>)
    ensures v.List? ==> r == {}
  {
    match v
    case Leaf(a) => if a.Font? then {a.style} else {}
    case List(_) => {}
    case Dict(m) => set k, f | k in m && f in FontStylesIn(m[k]) :: f
  }

  /** Every style found sits at the end of some key path. */
  lemma {:induction false} FontStyleHasPath(v: Value, f: FontStyle)
    requires f in FontStylesIn(v)
    ensures exists p :: Lookup(v, p) == Some(Leaf(Font(f)))
  {
    match v
    case Leaf(a) =>
      assert Lookup(v, []) == Some(Leaf(Font(f)));
    case Dict(m) =>
      var k :| k in m && f in FontStylesIn(m[k]);
      FontStyleHasPath(m[k], f);
      var p :| Lookup(m[k], p) == Some(Leaf(Font(f)));
      assert ([k] + p)[1..] == p;
      assert Lookup(v, [k] + p) == Some(Leaf(Font(f)));
  }

  /** Every style at the end of a key path is found. */
  lemma {:induction false} PathHasFontStyle(v: Value, p: seq<string>, f: FontStyle)
    requires Lookup(v, p) == Some(Leaf(Font(f)))
    ensures f in FontStylesIn(v)
    decreases |p|
  {
    if p != [] {
      var m := v.entries;
      PathHasFontStyle(m[p[0]], p[1..], f);
    }
  }

  /** The style `f` sits at the end of some key path of `v`. */
  ghost predicate StoredAt(v: Value, f: FontStyle) {
    exists p :: Lookup(v, p) == Some(Leaf(Font(f)))
  }

  /** `deepFind` finds exactly the styles at the ends of key paths. */
  lemma FontStylesReachable(v: Value)
    ensures forall f :: f in FontStylesIn(v) <==> StoredAt(v, f)
  {
    forall f
      ensures f in FontStylesIn(v) <==> StoredAt(v, f)
    {
      if f in FontStylesIn(v) {
        FontStyleHasPath(v, f);
      }
      if p :| Lookup(v, p) == Some(Leaf(Font(f))) {
        PathHasFontStyle(v, p, f);
      }
    }
  }

  /** The schema as a mutable dictionary of layers. */
  class PresentationSchema {
    var entries: Entries

    constructor ()
      ensures entries == map[]
    {
      entries := map[];
    }

    /** `addRule(layer, declarations, selector)`. */
    method AddRule(layer: string, decls: Entries, selector: Option<string>) returns (r: Outcome)
      modifies this
      ensures var spec := AddedRule(old(entries), layer, decls, selector);
        && (r.Pass? <==> spec.Ok?)
        && (spec.Ok? ==> entries == spec.value)
        && (spec.Err? ==> entries == old(entries) && r == Fail(spec.error))
    {
      var spec := AddedRule(entries, layer, decls, selector);
      if spec.Err? {
        return Fail(spec.error);
      }
      entries := spec.value;
      return Pass;
    }

    /** `pathUpdate(selector, value)`: `true` and the value stored at the
        sanitized dotted path, or `false` and nothing changed. */
    method PathUpdate(selector: string, v: Value) returns (r: bool)
      modifies this
      ensures var path := PathOf(selector);
        && (r <==> Compiles(path) && PathOpen(old(entries), path))
        && (r ==> SetPath(old(entries), path, v).Some? && entries == SetPath(old(entries), path, v).value)
        && (!r ==> entries == old(entries))
    {
      var path := PathOf(selector);
      SetPathSucceeds(entries, path, v);
      if !Compiles(path) {
        return false;
      }
      var updated := SetPath(entries, path, v);
      if updated.None? {
        return false;
      }
      entries := updated.value;
      return true;
    }

    /** `getFontStyles()`, as a set. */
    function FontStyles(): (r: set<FontStyle>)
      reads this
      ensures forall f :: f in r <==> StoredAt(Dict(entries), f)
    {
      FontStylesReachable(Dict(entries));
      FontStylesIn(Dict(entries))
    }

    /** `schema.name`: the layer of that name, or `None`. */
    function GetAttr(name: string): (r: Option<Value>)
      reads this
      ensures r.Some? <==> Lookup(Dict(entries), [name]).Some?
      ensures r.Some? ==> Lookup(Dict(entries), [name]) == r
    {
      if name in entries then Some(entries[name]) else None
    }
  }
}
