/** Streams cut into chunks. */
module Streams {

  /** The stream a list of chunks delivers. */
  function Joined<T>(chunks: seq<seq<T>>): seq<T> {
    if chunks == [] then [] else Joined(chunks[..|chunks| - 1]) + chunks[|chunks| - 1]
  }

  predicate NonEmpty<T>(chunks: seq<seq<T>>) {
    forall i :: 0 <= i < |chunks| ==> chunks[i] != []
  }

  lemma JoinedSnoc<T>(chunks: seq<seq<T>>, chunk: seq<T>)
    ensures Joined(chunks + [chunk]) == Joined(chunks) + chunk
  {
    assert (chunks + [chunk])[..|chunks|] == chunks;
  }

  /** The first `k` chunks deliver a prefix, a proper one while non-empty chunks remain. */
  lemma {:induction false} JoinedPrefix<T>(chunks: seq<seq<T>>, k: nat)
    requires k <= |chunks|
    ensures Joined(chunks[..k]) <= Joined(chunks)
    ensures NonEmpty(chunks) && k < |chunks| ==> |Joined(chunks[..k])| < |Joined(chunks)|
    decreases |chunks|
  {
    if k < |chunks| {
      var front := chunks[..|chunks| - 1];
      JoinedPrefix(front, k);
      assert front[..k] == chunks[..k];
    } else {
      assert chunks[..k] == chunks;
    }
  }

  /** What a loop over `items` appends, item by item. */
  function FlatMap<S, T>(f: S -> seq<T>, items: seq<S>): seq<T> {
    if items == [] then [] else FlatMap(f, items[..|items| - 1]) + f(items[|items| - 1])
  }

  lemma FlatMapSnoc<S, T>(f: S -> seq<T>, items: seq<S>, item: S)
    ensures FlatMap(f, items + [item]) == FlatMap(f, items) + f(item)
  {
    assert (items + [item])[..|items|] == items;
  }

  lemma {:induction false} FlatMapAppend<S, T>(f: S -> seq<T>, a: seq<S>, b: seq<S>)
    ensures FlatMap(f, a + b) == FlatMap(f, a) + FlatMap(f, b)
    decreases |b|
  {
    if b == [] {
      assert a + b == a;
    } else {
      var last := |b| - 1;
      FlatMapAppend(f, a, b[..last]);
      assert a + b == (a + b[..last]) + [b[last]];
      FlatMapSnoc(f, a + b[..last], b[last]);
    }
  }

  lemma {:induction false} FlatMapNothing<S, T>(f: S -> seq<T>, items: seq<S>)
    requires forall item :: item in items ==> f(item) == []
    ensures FlatMap(f, items) == []
  {
    if items == [] {
    } else {
      FlatMapNothing(f, items[..|items| - 1]);
    }
  }

  /** One item among others that give nothing. */
  lemma FlatMapOne<S, T>(f: S -> seq<T>, before: seq<S>, item: S, after: seq<S>)
    requires forall other :: other in before || other in after ==> f(other) == []
    ensures FlatMap(f, before + [item] + after) == f(item)
  {
    FlatMapNothing(f, before);
    FlatMapNothing(f, after);
    FlatMapSnoc(f, before, item);
    FlatMapAppend(f, before + [item], after);
    assert [] + f(item) + [] == f(item);
  }

  /** A machine fed item by item: where it ends up, and everything it has put out. */
  function Run<S, I, O>(step: (S, I) -> (S, seq<O>), start: S, items: seq<I>): (S, seq<O>) {
    if items == [] then (start, [])
    else
      var (before, outputs) := Run(step, start, items[..|items| - 1]);
      var (after, output) := step(before, items[|items| - 1]);
      (after, outputs + output)
  }

  lemma RunSnoc<S, I, O>(step: (S, I) -> (S, seq<O>), start: S, items: seq<I>, item: I)
    ensures var (before, outputs) := Run(step, start, items);
      var (after, output) := step(before, item);
      Run(step, start, items + [item]) == (after, outputs + output)
  {
    assert (items + [item])[..|items|] == items;
  }

  lemma {:induction false} RunAppend<S, I, O>(step: (S, I) -> (S, seq<O>), start: S, a: seq<I>, b: seq<I>)
    ensures var (middle, first) := Run(step, start, a);
      var (end, second) := Run(step, middle, b);
      Run(step, start, a + b) == (end, first + second)
    decreases |b|
  {
    var (middle, first) := Run(step, start, a);
    if b == [] {
      assert a + b == a && first + [] == first;
    } else {
      var last := |b| - 1;
      RunAppend(step, start, a, b[..last]);
      assert a + b == (a + b[..last]) + [b[last]] && b == b[..last] + [b[last]];
      RunSnoc(step, start, a + b[..last], b[last]);
      var (before, second) := Run(step, middle, b[..last]);
      var output := step(before, b[last]).1;
      assert first + (second + output) == (first + second) + output;
    }
  }

  /** What holds of the empty stream and survives every next item holds of every stream. */
  lemma {:induction false} StreamInduction<T>(holds: seq<T> -> bool, items: seq<T>)
    requires holds([])
    requires forall front: seq<T>, item: T :: holds(front) ==> holds(front + [item])
    ensures holds(items)
  {
    if items == [] {
    } else {
      var last := |items| - 1;
      StreamInduction(holds, items[..last]);
      assert items[..last] + [items[last]] == items;
    }
  }
}
