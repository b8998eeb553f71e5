/**
 * The two list idioms the console applies to its in-memory tables, keyed by
 * each record's `id`: `list.filter(x => x.id !== id)` and
 * `list.map(x => x.id === id ? f(x) : x)`.
 */
module Lists {

  /** `xs.filter(x => idOf(x) !== id)`. */
  function WithoutId<T>(xs: seq<T>, idOf: T -> string, id: string): (r: seq<T>)
    ensures |r| <= |xs|
    ensures forall x | x in r :: x in xs && idOf(x) != id
    ensures forall x | x in xs && idOf(x) != id :: multiset(r)[x] == multiset(xs)[x]
  {
    if xs == [] then
      []
    else
      var rest := WithoutId(xs[1..], idOf, id);
      assert xs == [xs[0]] + xs[1..];
      if idOf(xs[0]) == id then rest else [xs[0]] + rest
  }

  /** Filtering distributes over concatenation, so the kept entries stay in order. */
  lemma {:induction false} WithoutIdAppend<T>(a: seq<T>, b: seq<T>, idOf: T -> string, id: string)
    ensures WithoutId(a + b, idOf, id) == WithoutId(a, idOf, id) + WithoutId(b, idOf, id)
  {
    if a != [] {
      assert (a + b)[0] == a[0] && (a + b)[1..] == a[1..] + b;
      WithoutIdAppend(a[1..], b, idOf, id);
    } else {
      assert a + b == b;
    }
  }

  /** Removing an id nobody has changes nothing. */
  lemma {:induction false} WithoutAbsentId<T>(xs: seq<T>, idOf: T -> string, id: string)
    requires forall x | x in xs :: idOf(x) != id
    ensures WithoutId(xs, idOf, id) == xs
  {
    if xs != [] {
      WithoutAbsentId(xs[1..], idOf, id);
      assert [xs[0]] + xs[1..] == xs;
    }
  }

  /** `xs.map(x => idOf(x) === id ? f(x) : x)`. */
  function MapById<T>(xs: seq<T>, idOf: T -> string, id: string, f: T -> T): (r: seq<T>)
    ensures |r| == |xs|
    ensures forall k | 0 <= k < |xs| && idOf(xs[k]) == id :: r[k] == f(xs[k])
    ensures forall k | 0 <= k < |xs| && idOf(xs[k]) != id :: r[k] == xs[k]
  {
    if xs == [] then
      []
    else
      var rest := MapById(xs[1..], idOf, id, f);
      [if idOf(xs[0]) == id then f(xs[0]) else xs[0]] + rest
  }
}
