/** Order-preserving deduplication, as `list(OrderedDict.fromkeys(xs))`. */
module Lists {

  predicate NoDuplicates<T(==)>(xs: seq<T>) {
    forall i, j :: 0 <= i < j < |xs| ==> xs[i] != xs[j]
  }

  /** The index of the first occurrence of `x` in `xs`. */
  function FirstIndex<T(==)>(xs: seq<T>, x: T): (k: nat)
    requires x in xs
    ensures k < |xs| && xs[k] == x && x !in xs[..k]
  {
    if xs[0] == x then 0
    else
      var k := 1 + FirstIndex(xs[1..], x);
      assert xs[..k] == [xs[0]] + xs[1..][..k - 1];
      k
  }

  /** A position whose element does not occur earlier is that element's first index. */
  lemma FirstIndexUnique<T>(xs: seq<T>, k: nat)
    requires k < |xs| && xs[k] !in xs[..k]
    ensures FirstIndex(xs, xs[k]) == k
  {
  }

  /** `OrderedDict.fromkeys` inserts each element of `xs` in turn, keeping a
      key only the first time it is seen. */
  function RemoveDuplicates<T(==, !new)>(xs: seq<T>): (r: seq<T>)
    ensures NoDuplicates(r)
    ensures forall x :: x in r <==> x in xs
  {
    if xs == [] then []
    else
      var seen := RemoveDuplicates(xs[..|xs| - 1]);
      var x := xs[|xs| - 1];
      assert forall y :: y in xs <==> y in xs[..|xs| - 1] || y == x by {
        assert xs == xs[..|xs| - 1] + [x];
      }
      if x in seen then seen else seen + [x]
  }

  /** The elements appear in the order of their first occurrence in the input. */
  lemma {:induction false} RemoveDuplicatesKeepsFirstSeenOrder<T(!new)>(xs: seq<T>, i: nat, j: nat)
    requires i < j < |RemoveDuplicates(xs)|
    ensures FirstIndex(xs, RemoveDuplicates(xs)[i]) < FirstIndex(xs, RemoveDuplicates(xs)[j])
  {
    var ys, x := xs[..|xs| - 1], xs[|xs| - 1];
    assert xs == ys + [x];
    var seen := RemoveDuplicates(ys);
    var r := RemoveDuplicates(xs);
    // an element of ys has the same first index in ys and in xs
    forall a | a in ys ensures FirstIndex(xs, a) == FirstIndex(ys, a) {
      var k := FirstIndex(ys, a);
      assert xs[..k] == ys[..k];
      FirstIndexUnique(xs, k);
    }
    if j < |seen| {
      RemoveDuplicatesKeepsFirstSeenOrder(ys, i, j);
    } else {
      // r[j] is x, seen for the first time at the last position
      assert r == seen + [x] && x !in ys;
      assert xs[..|ys|] == ys;
      FirstIndexUnique(xs, |ys|);
      assert r[i] in ys;
    }
  }

  /** On a list that has no duplicates, deduplication is the identity. */
  lemma {:induction false} RemoveDuplicatesOfDistinct<T(!new)>(xs: seq<T>)
    requires NoDuplicates(xs)
    ensures RemoveDuplicates(xs) == xs
  {
    if xs != [] {
      var ys := xs[..|xs| - 1];
      RemoveDuplicatesOfDistinct(ys);
      assert xs[|xs| - 1] !in ys;
      assert xs == ys + [xs[|xs| - 1]];
    }
  }
}
