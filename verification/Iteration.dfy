/** A step repeated, and a register fed item by item. */
module Iteration {

  function Iterate<T>(step: T -> T, x: T, count: nat): T {
    if count == 0 then x else step(Iterate(step, x, count - 1))
  }

  lemma {:induction false} IterateCommutes<T>(step: T -> T, x: T, count: nat)
    ensures Iterate(step, step(x), count) == step(Iterate(step, x, count))
  {
    if count == 0 {
    } else {
      IterateCommutes(step, x, count - 1);
    }
  }

  lemma {:induction false} IterateAdds<T>(step: T -> T, x: T, first: nat, more: nat)
    ensures Iterate(step, Iterate(step, x, first), more) == Iterate(step, x, first + more)
  {
    if more == 0 {
    } else {
      IterateAdds(step, x, first, more - 1);
    }
  }

  /** The register after a stream of items. */
  function Folded<T, I>(step: (T, I) -> T, start: T, items: seq<I>): T {
    if items == [] then start else step(Folded(step, start, items[..|items| - 1]), items[|items| - 1])
  }

  lemma {:induction false} FoldedAppend<T, I>(step: (T, I) -> T, start: T, a: seq<I>, b: seq<I>)
    ensures Folded(step, start, a + b) == Folded(step, Folded(step, start, a), b)
    decreases |b|
  {
    if b == [] {
      assert a + b == a;
    } else {
      var last := |b| - 1;
      FoldedAppend(step, start, a, b[..last]);
      assert (a + b)[..|a + b| - 1] == a + b[..last];
    }
  }

  lemma FoldedOne<T, I>(step: (T, I) -> T, start: T, item: I)
    ensures Folded(step, start, [item]) == step(start, item)
  {
    assert [item][..0] == [];
  }

  /** Evaluating: the register runs through the values given, one step after the other. */
  lemma {:induction false} FoldedAlong<T, I>(step: (T, I) -> T, items: seq<I>, values: seq<T>, k: nat)
    requires |values| == |items| + 1 && k <= |items|
    requires forall i :: 0 <= i < |items| ==> step(values[i], items[i]) == values[i + 1]
    ensures Folded(step, values[0], items[..k]) == values[k]
  {
    if k == 0 {
    } else {
      FoldedAlong(step, items, values, k - 1);
      assert items[..k][..k - 1] == items[..k - 1];
    }
  }

  lemma FoldedFour<T, I>(step: (T, I) -> T, start: T, items: seq<I>)
    requires |items| == 4
    ensures Folded(step, start, items) == step(step(step(step(start, items[0]), items[1]), items[2]), items[3])
  {
    assert items[..3][..2] == items[..2] && items[..2][..1] == items[..1] == [items[0]];
    FoldedOne(step, start, items[0]);
    assert Folded(step, start, items[..2]) == step(Folded(step, start, items[..1]), items[1]);
    assert Folded(step, start, items[..3]) == step(Folded(step, start, items[..2]), items[2]);
  }

  ghost predicate KeepsApart<T(!new), I(!new)>(step: (T, I) -> T) {
    forall p, q, item :: step(p, item) == step(q, item) ==> p == q
  }

  /** Registers that differ stay different under the same items, if they do under each. */
  lemma {:induction false} FoldedApart<T(!new), I(!new)>(step: (T, I) -> T, p: T, q: T, items: seq<I>)
    requires KeepsApart(step)
    ensures Folded(step, p, items) == Folded(step, q, items) <==> p == q
  {
    if items == [] {
    } else {
      FoldedApart(step, p, q, items[..|items| - 1]);
    }
  }
}
