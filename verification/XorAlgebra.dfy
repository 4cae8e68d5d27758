/** The algebra behind CRC registers, stated once for every register width: a step that is
    linear over exclusive-or and maps only zero to zero. The operations are parameters, so the
    proofs never look at bits. */
module XorAlgebra {
  import opened Iteration

  ghost predicate Associates<T(!new)>(xor: (T, T) -> T) {
    forall x, y, z :: xor(xor(x, y), z) == xor(x, xor(y, z))
  }

  ghost predicate Commutes<T(!new)>(xor: (T, T) -> T) {
    forall x, y :: xor(x, y) == xor(y, x)
  }

  ghost predicate CancelsItself<T(!new)>(xor: (T, T) -> T, zero: T) {
    forall x :: xor(x, x) == zero
  }

  ghost predicate Neutral<T(!new)>(xor: (T, T) -> T, zero: T) {
    forall x :: xor(x, zero) == x
  }

  ghost predicate Group<T(!new)>(xor: (T, T) -> T, zero: T) {
    Associates(xor) && Commutes(xor) && CancelsItself(xor, zero) && Neutral(xor, zero)
  }

  ghost predicate Linear<T(!new)>(step: T -> T, xor: (T, T) -> T) {
    forall x, y :: step(xor(x, y)) == xor(step(x), step(y))
  }

  ghost predicate KeepsZero<T(!new)>(step: T -> T, zero: T) {
    forall x :: step(x) == zero <==> x == zero
  }

  lemma {:induction false} IterateLinear<T(!new)>(step: T -> T, xor: (T, T) -> T, a: T, b: T, count: nat)
    requires Linear(step, xor)
    ensures Iterate(step, xor(a, b), count) == xor(Iterate(step, a, count), Iterate(step, b, count))
  {
    if count == 0 {
    } else {
      IterateLinear(step, xor, a, b, count - 1);
    }
  }

  lemma {:induction false} IterateZero<T(!new)>(step: T -> T, zero: T, x: T, count: nat)
    requires KeepsZero(step, zero)
    ensures Iterate(step, x, count) == zero <==> x == zero
  {
    if count == 0 {
    } else {
      IterateZero(step, zero, x, count - 1);
    }
  }

  /** Input taken in after some steps could have been taken in before them, if it is what those
      steps make of `early`. */
  lemma TakenInEarly<T(!new)>(step: T -> T, xor: (T, T) -> T, register: T, early: T, first: nat, more: nat)
    requires Linear(step, xor)
    ensures Iterate(step, xor(Iterate(step, register, first), Iterate(step, early, first)), more)
         == Iterate(step, xor(register, early), first + more)
  {
    IterateLinear(step, xor, register, early, first);
    IterateAdds(step, xor(register, early), first, more);
  }

  lemma EqualIffDifferenceZero<T(!new)>(xor: (T, T) -> T, zero: T, a: T, b: T)
    requires Group(xor, zero)
    ensures xor(a, b) == zero <==> a == b
  {
    assert xor(xor(a, b), b) == xor(a, xor(b, b)) == a;
    assert xor(zero, b) == b;
  }

  lemma CancelCommon<T(!new)>(xor: (T, T) -> T, zero: T, a: T, b: T, x: T)
    requires Group(xor, zero)
    ensures xor(xor(a, x), xor(b, x)) == xor(a, b)
    ensures xor(xor(x, a), xor(x, b)) == xor(a, b)
  {
    assert xor(xor(a, x), xor(b, x)) == xor(a, xor(x, xor(x, b)));
    assert xor(x, xor(x, b)) == xor(xor(x, x), b) == xor(b, zero) == b;
    assert xor(x, a) == xor(a, x) && xor(x, b) == xor(b, x);
  }

  /** One step: the register is shifted, and adjusted when its top bit was set. */
  predicate StepsAt<T(==)>(step: T -> T, xor: (T, T) -> T, top: T -> bool, shift: T -> T, poly: T, x: T) {
    step(x) == if top(x) then xor(shift(x), poly) else shift(x)
  }

  /** Such a step is linear where its shift and its top bit are. */
  lemma ConditionalLinear<T(!new)>(
      step: T -> T, xor: (T, T) -> T, zero: T, top: T -> bool, shift: T -> T, poly: T, a: T, b: T)
    requires Group(xor, zero)
    requires StepsAt(step, xor, top, shift, poly, a) && StepsAt(step, xor, top, shift, poly, b)
    requires StepsAt(step, xor, top, shift, poly, xor(a, b))
    requires shift(xor(a, b)) == xor(shift(a), shift(b))
    requires top(xor(a, b)) == (top(a) != top(b))
    ensures step(xor(a, b)) == xor(step(a), step(b))
  {
    var x, y := shift(a), shift(b);
    assert xor(xor(x, poly), y) == xor(x, xor(poly, y)) == xor(x, xor(y, poly));
    CancelCommon(xor, zero, x, y, poly);
  }

  lemma MoveAcross<T(!new)>(xor: (T, T) -> T, zero: T, p: T, q: T, x: T, y: T)
    requires Group(xor, zero) && xor(p, x) == xor(q, y)
    ensures xor(p, q) == xor(x, y)
  {
    CancelCommon(xor, zero, p, q, x);
    assert xor(xor(p, x), xor(q, x)) == xor(xor(q, y), xor(q, x)) == xor(y, x) by {
      CancelCommon(xor, zero, y, x, q);
    }
  }

  lemma SameIterate<T(!new)>(step: T -> T, xor: (T, T) -> T, zero: T, p: T, q: T, count: nat)
    requires Group(xor, zero) && Linear(step, xor) && KeepsZero(step, zero)
    ensures Iterate(step, p, count) == Iterate(step, q, count) <==> p == q
  {
    IterateLinear(step, xor, p, q, count);
    EqualIffDifferenceZero(xor, zero, Iterate(step, p, count), Iterate(step, q, count));
    IterateZero(step, zero, xor(p, q), count);
    EqualIffDifferenceZero(xor, zero, p, q);
  }

  /** Feeding the same input, the iterated step is injective in the register. */
  lemma StepInjective<T(!new)>(step: T -> T, xor: (T, T) -> T, zero: T, a: T, b: T, input: T, count: nat)
    requires Group(xor, zero) && Linear(step, xor) && KeepsZero(step, zero)
    ensures Iterate(step, xor(a, input), count) == Iterate(step, xor(b, input), count) <==> a == b
  {
    SameIterate(step, xor, zero, xor(a, input), xor(b, input), count);
    assert xor(xor(a, input), input) == xor(a, xor(input, input)) == a;
    assert xor(xor(b, input), input) == xor(b, xor(input, input)) == b;
  }

  /** Inputs are narrow values; `lift` moves a narrow value to where `count` steps bring it back
      down, and only zero is both narrow and lifted. */
  ghost predicate Spreads<T(!new)>(step: T -> T, narrow: T -> bool, lift: T -> T, zero: T, count: nat) {
    && (forall e :: narrow(e) ==> Iterate(step, lift(e), count) == e)
    && (forall d, e :: narrow(d) && narrow(e) && d == lift(e) ==> d == zero)
  }

  ghost predicate NarrowClosed<T(!new)>(xor: (T, T) -> T, narrow: T -> bool) {
    forall x, y :: narrow(x) && narrow(y) ==> narrow(xor(x, y))
  }

  /** A non-zero narrow value does not stay narrow. */
  lemma NarrowSpreads<T(!new)>(
      step: T -> T, xor: (T, T) -> T, zero: T, narrow: T -> bool, lift: T -> T, d: T, count: nat)
    requires Group(xor, zero) && Linear(step, xor) && KeepsZero(step, zero)
    requires Spreads(step, narrow, lift, zero, count)
    requires narrow(d) && narrow(Iterate(step, d, count))
    ensures d == zero
  {
    var e := Iterate(step, d, count);
    IterateLinear(step, xor, d, lift(e), count);
    EqualIffDifferenceZero(xor, zero, Iterate(step, d, count), Iterate(step, lift(e), count));
    IterateZero(step, zero, xor(d, lift(e)), count);
    EqualIffDifferenceZero(xor, zero, d, lift(e));
  }

  /** One register continued by two different pairs of narrow inputs never meets again. */
  lemma PairsDiffer<T(!new)>(
      step: T -> T, xor: (T, T) -> T, zero: T, narrow: T -> bool, lift: T -> T, count: nat,
      crc: T, a: T, b: T, x: T, y: T)
    requires Group(xor, zero) && Linear(step, xor) && KeepsZero(step, zero)
    requires Spreads(step, narrow, lift, zero, count) && NarrowClosed(xor, narrow)
    requires narrow(a) && narrow(b) && narrow(x) && narrow(y)
    requires xor(Iterate(step, xor(crc, a), count), x) == xor(Iterate(step, xor(crc, b), count), y)
    ensures a == b && x == y
  {
    var p, q := Iterate(step, xor(crc, a), count), Iterate(step, xor(crc, b), count);
    MoveAcross(xor, zero, p, q, x, y);
    IterateLinear(step, xor, xor(crc, a), xor(crc, b), count);
    CancelCommon(xor, zero, a, b, crc);
    NarrowSpreads(step, xor, zero, narrow, lift, xor(a, b), count);
    EqualIffDifferenceZero(xor, zero, a, b);
    EqualIffDifferenceZero(xor, zero, p, q);
    EqualIffDifferenceZero(xor, zero, x, y);
  }
}
