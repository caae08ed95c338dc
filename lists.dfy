/**
 * The two array combinators the core relies on: `Array.prototype.filter`
 * and `Array.prototype.find`.
 */
module Lists {
  import opened Wrappers

  /** `xs.filter(keep)`: the elements satisfying `keep`, in their original order. */
  function Filter<T(!new)>(xs: seq<T>, keep: T -> bool): (r: seq<T>)
    ensures |r| <= |xs|
    ensures forall x :: x in r <==> x in xs && keep(x)
  {
    if xs == [] then []
    else (if keep(xs[0]) then [xs[0]] else []) + Filter(xs[1..], keep)
  }

  /** Filtering commutes with concatenation: relative order is preserved. */
  lemma {:induction false} FilterAppend<T(!new)>(xs: seq<T>, ys: seq<T>, keep: T -> bool)
    ensures Filter(xs + ys, keep) == Filter(xs, keep) + Filter(ys, keep)
  {
    if xs == [] {
      assert xs + ys == ys;
    } else {
      assert (xs + ys)[1..] == xs[1..] + ys;
      FilterAppend(xs[1..], ys, keep);
    }
  }

  /** A one-element sequence is kept or dropped whole. */
  lemma FilterSingleton<T(!new)>(x: T, keep: T -> bool)
    ensures Filter([x], keep) == if keep(x) then [x] else []
  {
    assert [x][1..] == [];
  }

  /** When every element passes, filtering keeps the whole sequence. */
  lemma {:induction false} FilterKeepsAll<T(!new)>(xs: seq<T>, keep: T -> bool)
    requires forall i :: 0 <= i < |xs| ==> keep(xs[i])
    ensures Filter(xs, keep) == xs
  {
    if xs != [] {
      FilterKeepsAll(xs[1..], keep);
    }
  }

  /** `xs.find(x => key(x) === id)`: the first element whose key is `id`. */
  function FindFirst<T>(xs: seq<T>, key: T -> string, id: string): (r: Option<T>)
    ensures r.None? <==> forall i :: 0 <= i < |xs| ==> key(xs[i]) != id
    ensures r.Some? ==> exists i :: 0 <= i < |xs| && xs[i] == r.value && key(xs[i]) == id &&
                                    forall j :: 0 <= j < i ==> key(xs[j]) != id
  {
    if xs == [] then None
    else if key(xs[0]) == id then Some(xs[0])
    else
      var r := FindFirst(xs[1..], key, id);
      assert r.Some? ==> exists i :: 0 <= i < |xs[1..]| && xs[1..][i] == r.value && key(xs[1..][i]) == id &&
                                     forall j :: 0 <= j < i ==> key(xs[1..][j]) != id;
      assert r.Some? ==> exists i :: 1 <= i < |xs| && xs[i] == r.value && key(xs[i]) == id &&
                                     forall j :: 0 <= j < i ==> key(xs[j]) != id;
      r
  }
}
