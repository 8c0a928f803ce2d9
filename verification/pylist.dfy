/** The two pieces of Python list semantics the particle systems rely on:
    `list.remove(x)` and subscripting with a possibly negative index. */
module PyList {

  datatype Option<T> = None | Some(value: T)

  /** The position of the first element equal to x. */
  function FirstIndex<T(==)>(xs: seq<T>, x: T): (k: nat)
    requires x in xs
    ensures k < |xs| && xs[k] == x && x !in xs[..k]
  {
    if xs[0] == x then 0
    else
      var k := FirstIndex(xs[1..], x);
      assert xs[..k + 1] == [xs[0]] + xs[1..][..k];
      k + 1
  }

  /** `xs.remove(x)`: drops the first element equal to x, keeping the others
      in order; raises ValueError (None here) when there is none. */
  function RemoveFirst<T(==)>(xs: seq<T>, x: T): (r: Option<seq<T>>)
    ensures r.None? <==> x !in xs
    ensures r.Some? ==> |r.value| + 1 == |xs|
    ensures r.Some? ==> forall i :: 0 <= i < FirstIndex(xs, x) ==> r.value[i] == xs[i]
    ensures r.Some? ==> forall i :: FirstIndex(xs, x) <= i < |r.value| ==> r.value[i] == xs[i + 1]
    ensures r.Some? ==> multiset(r.value) + multiset{x} == multiset(xs)
  {
    if x in xs then
      var k := FirstIndex(xs, x);
      assert xs == xs[..k] + [x] + xs[k + 1..];
      Some(xs[..k] + xs[k + 1..])
    else None
  }

  /** A Python index into a list of length n: negative indices count from the end. */
  predicate InBounds(i: int, n: int) {
    -n <= i < n
  }

  /** `xs[i]` for an index that does not raise IndexError. */
  function At<T>(xs: seq<T>, i: int): T
    requires InBounds(i, |xs|)
  {
    if i < 0 then xs[|xs| + i] else xs[i]
  }
}
