/** The Python list primitives that the modelled code relies on: `filter`,
    `list.reverse`, `list.insert` (which clamps its index), `list.index`
    and `del s[i]` (which accepts a negative index and raises `IndexError`
    out of range). */
module PyLists {
  import opened Wrappers

  /** `filter(keep, s)`: the elements of `s` that satisfy `keep`, in order. */
  function Filter<T>(s: seq<T>, keep: T -> bool): (r: seq<T>)
    ensures |r| <= |s|
    ensures forall i :: 0 <= i < |r| ==> r[i] in s && keep(r[i])
    ensures forall i :: 0 <= i < |s| && keep(s[i]) ==> s[i] in r
  {
    if s == [] then []
    else (if keep(s[0]) then [s[0]] else []) + Filter(s[1..], keep)
  }

  /** Filtering distributes over concatenation: together with the singleton
      case this says `Filter` keeps exactly the selected elements, in order. */
  lemma {:induction false} FilterConcat<T>(a: seq<T>, b: seq<T>, keep: T -> bool)
    ensures Filter(a + b, keep) == Filter(a, keep) + Filter(b, keep)
  {
    if a == [] {
      assert a + b == b;
    } else {
      assert (a + b)[1..] == a[1..] + b;
      FilterConcat(a[1..], b, keep);
    }
  }

  /** Every element survives when all satisfy the predicate, none when none do. */
  lemma {:induction false} FilterAllOrNone<T>(s: seq<T>, keep: T -> bool)
    ensures (forall i :: 0 <= i < |s| ==> keep(s[i])) ==> Filter(s, keep) == s
    ensures (forall i :: 0 <= i < |s| ==> !keep(s[i])) ==> Filter(s, keep) == []
  {
    if s != [] {
      FilterAllOrNone(s[1..], keep);
      assert forall i :: 0 <= i < |s[1..]| ==> s[1..][i] == s[i + 1];
    }
  }

  /** The list in reverse order, as left by `list.reverse()`. */
  function Reverse<T>(s: seq<T>): (r: seq<T>)
    ensures |r| == |s|
  {
    if s == [] then [] else Reverse(s[1..]) + [s[0]]
  }

  lemma {:induction false} ReverseAt<T>(s: seq<T>, k: nat)
    requires k < |s|
    ensures Reverse(s)[k] == s[|s| - 1 - k]
  {
    if k < |s| - 1 {
      ReverseAt(s[1..], k);
    }
  }

  /** Reversing twice restores the list. */
  lemma ReverseReverse<T>(s: seq<T>)
    ensures Reverse(Reverse(s)) == s
  {
    forall k | 0 <= k < |s|
      ensures Reverse(Reverse(s))[k] == s[k]
    {
      ReverseAt(Reverse(s), k);
      ReverseAt(s, |s| - 1 - k);
    }
  }

  /** The position at which `list.insert(i, x)` places `x` in a list of length `n`. */
  function InsertIndex(n: nat, i: int): (k: nat)
    ensures k <= n
    ensures 0 <= i <= n ==> k == i
    ensures i > n ==> k == n
    ensures i < 0 && 0 <= n + i ==> k == n + i
    ensures n + i < 0 ==> k == 0
  {
    if i < 0 then (if i + n < 0 then 0 else i + n)
    else if i > n then n
    else i
  }

  /** `s.insert(i, x)`. */
  function Insert<T>(s: seq<T>, i: int, x: T): (r: seq<T>)
    ensures |r| == |s| + 1
    ensures r[InsertIndex(|s|, i)] == x
    ensures r[..InsertIndex(|s|, i)] == s[..InsertIndex(|s|, i)]
    ensures r[InsertIndex(|s|, i) + 1..] == s[InsertIndex(|s|, i)..]
  {
    var k := InsertIndex(|s|, i);
    s[..k] + [x] + s[k..]
  }

  /** `s.index(x)`: the first position of `x`, or `ValueError`. */
  function Index<T(==)>(s: seq<T>, x: T): (r: Result<nat>)
    ensures r.Err? <==> x !in s
    ensures r.Err? ==> r.error == ValueError
    ensures r.Ok? ==> r.value < |s| && s[r.value] == x && forall j :: 0 <= j < r.value ==> s[j] != x
  {
    if s == [] then Err(ValueError)
    else if s[0] == x then Ok(0)
    else
      match Index(s[1..], x)
      case Err(e) => Err(e)
      case Ok(i) => Ok(i + 1)
  }

  /** `del s[i]`: a negative index counts from the end. */
  function Delete<T>(s: seq<T>, i: int): (r: Result<seq<T>>)
    ensures r.Err? <==> !(0 <= |s| + i && i < |s|)
    ensures r.Err? ==> r.error == IndexError
    ensures r.Ok? ==> |r.value| == |s| - 1
    ensures 0 <= i < |s| ==> r == Ok(s[..i] + s[i + 1..])
    ensures i < 0 && 0 <= |s| + i ==> r == Ok(s[..|s| + i] + s[|s| + i + 1..])
  {
    var j := if i < 0 then i + |s| else i;
    if 0 <= j < |s| then Ok(s[..j] + s[j + 1..]) else Err(IndexError)
  }
}
