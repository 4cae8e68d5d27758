/** The Modbus CRC-16 (reflected polynomial 0xA001, initial 0xFFFF, low byte first), shared by
    the PG100 frame codec and the Modbus transport. */
module Crc16 {
  import opened Iteration
  import opened XorAlgebra

  type Byte = bv8

  const INIT: bv16 := 0xFFFF

  // ---------------------------------------------------------------------------
  // Specification
  // ---------------------------------------------------------------------------

  function BitStep(crc: bv16): bv16 {
    if crc & 1 != 0 then (crc >> 1) ^ 0xA001 else crc >> 1
  }

  function Xor(a: bv16, b: bv16): bv16 { a ^ b }

  /** A byte widened to the register. */
  function Wide(byte: Byte): bv16 { byte as bv16 }

  function BitSteps(crc: bv16, count: nat): bv16 {
    Iterate(BitStep, crc, count)
  }

  function ByteStep(crc: bv16, byte: Byte): bv16 {
    BitSteps(Xor(crc, Wide(byte)), 8)
  }

  /** The register after a message, from any register. */
  function CrcFrom(crc: bv16, data: seq<Byte>): bv16 {
    Folded(ByteStep, crc, data)
  }

  function Crc(data: seq<Byte>): bv16 {
    CrcFrom(INIT, data)
  }

  function Low(crc: bv16): Byte { (crc & 0xFF) as Byte }
  function High(crc: bv16): Byte { (crc >> 8) as Byte }
  function Word(low: Byte, high: Byte): bv16 { (low as bv16) | ((high as bv16) << 8) }

  /** A buffer of at least two bytes whose last two are the CRC of the rest, low byte first. */
  predicate Checked(buffer: seq<Byte>) {
    |buffer| >= 2 && Crc(buffer[..|buffer| - 2]) == Word(buffer[|buffer| - 2], buffer[|buffer| - 1])
  }

  // ---------------------------------------------------------------------------
  // The loops of the source
  // ---------------------------------------------------------------------------

  /** The inner loop: eight bit steps. */
  method StepBits(start: bv16) returns (crc: bv16)
    ensures crc == BitSteps(start, 8)
  {
    crc := start;
    for bit := 0 to 8
      invariant crc == BitSteps(start, bit)
    {
      if crc & 1 != 0 {
        crc := (crc >> 1) ^ 0xA001;
      } else {
        crc := crc >> 1;
      }
    }
  }

  method ComputeCrc(data: seq<Byte>) returns (crc: bv16)
    ensures crc == Crc(data)
  {
    crc := INIT;
    for index := 0 to |data|
      invariant crc == CrcFrom(INIT, data[..index])
    {
      assert data[..index + 1][..index] == data[..index];
      crc := StepBits(Xor(crc, Wide(data[index])));
    }
    assert data[..|data|] == data;
  }

  // ---------------------------------------------------------------------------
  // The byte step is a linear bijection
  // ---------------------------------------------------------------------------

  lemma XorBits(a: bv16, b: bv16)
    ensures (a ^ b) & 1 == (a & 1) ^ (b & 1)
    ensures (a ^ b) >> 1 == (a >> 1) ^ (b >> 1)
    ensures a & 1 == 0 || a & 1 == 1
    ensures b & 1 == 0 || b & 1 == 1
  {
  }

  lemma XorPolyBoth(x: bv16, y: bv16)
    ensures (x ^ 0xA001) ^ (y ^ 0xA001) == x ^ y
  {
  }

  lemma XorPolyLeft(x: bv16, y: bv16)
    ensures (x ^ 0xA001) ^ y == (x ^ y) ^ 0xA001
  {
  }

  lemma XorPolyRight(x: bv16, y: bv16)
    ensures x ^ (y ^ 0xA001) == (x ^ y) ^ 0xA001
  {
  }

  lemma BitStepLinear(a: bv16, b: bv16)
    ensures BitStep(a ^ b) == BitStep(a) ^ BitStep(b)
  {
    XorBits(a, b);
    XorPolyBoth(a >> 1, b >> 1);
    XorPolyLeft(a >> 1, b >> 1);
    XorPolyRight(a >> 1, b >> 1);
  }

  lemma BitStepZero(crc: bv16)
    ensures BitStep(crc) == 0 <==> crc == 0
  {
  }

  predicate Narrow(x: bv16) { x & 0xFF00 == 0 }

  function Lift(x: bv16): bv16 { x << 8 }

  lemma XorIsAGroup()
    ensures Group(Xor, 0)
  {
  }

  lemma BitStepIsLinear()
    ensures Linear(BitStep, Xor)
  {
    forall x, y ensures BitStep(Xor(x, y)) == Xor(BitStep(x), BitStep(y)) {
      BitStepLinear(x, y);
    }
  }

  lemma BitStepKeepsZero()
    ensures KeepsZero(BitStep, 0)
  {
    forall x ensures BitStep(x) == 0 <==> x == 0 {
      BitStepZero(x);
    }
  }

  /** Shift amounts written out, so that each step is a fixed-width fact. */
  function ShiftedDown(crc: bv16, count: nat): bv16
    requires count <= 8
  {
    match count
    case 0 => crc
    case 1 => crc >> 1
    case 2 => crc >> 2
    case 3 => crc >> 3
    case 4 => crc >> 4
    case 5 => crc >> 5
    case 6 => crc >> 6
    case 7 => crc >> 7
    case _ => crc >> 8
  }

  lemma ShiftOnce(crc: bv16, count: nat)
    requires crc & 0xFF == 0 && count < 8
    ensures BitStep(ShiftedDown(crc, count)) == ShiftedDown(crc, count + 1)
  {
  }

  /** While the low byte is clear, a bit step just shifts. */
  lemma {:induction false} ShiftDownBy(crc: bv16, count: nat)
    requires crc & 0xFF == 0 && count <= 8
    ensures BitSteps(crc, count) == ShiftedDown(crc, count)
  {
    if count == 0 {
    } else {
      ShiftDownBy(crc, count - 1);
      ShiftOnce(crc, count - 1);
    }
  }

  lemma LiftedParts(e: bv16)
    requires Narrow(e)
    ensures Lift(e) & 0xFF == 0 && Lift(e) >> 8 == e
  {
  }

  lemma HalvesDisjoint(d: bv16, e: bv16)
    requires Narrow(d) && d == Lift(e)
    ensures d == 0
  {
  }

  lemma BytesSpread()
    ensures Spreads(BitStep, Narrow, Lift, 0, 8)
  {
    forall e | Narrow(e) ensures Iterate(BitStep, Lift(e), 8) == e {
      LiftedParts(e);
      ShiftDownBy(Lift(e), 8);
    }
    forall d, e | Narrow(d) && Narrow(e) && d == Lift(e) ensures d == 0 {
      HalvesDisjoint(d, e);
    }
  }

  lemma NarrowXor(x: bv16, y: bv16)
    requires Narrow(x) && Narrow(y)
    ensures Narrow(x ^ y)
  {
  }

  lemma NarrowIsClosed()
    ensures NarrowClosed(Xor, Narrow)
  {
    forall x, y | Narrow(x) && Narrow(y) ensures Narrow(Xor(x, y)) {
      NarrowXor(x, y);
    }
  }

  lemma WideIsNarrow(byte: Byte)
    ensures Narrow(Wide(byte))
  {
  }

  lemma WideInjective(a: Byte, b: Byte)
    ensures Wide(a) == Wide(b) <==> a == b
  {
  }

  /** With the byte fixed, the step is injective in the register. */
  lemma ByteStepInjective(a: bv16, b: bv16, byte: Byte)
    ensures ByteStep(a, byte) == ByteStep(b, byte) <==> a == b
  {
    XorIsAGroup();
    BitStepIsLinear();
    BitStepKeepsZero();
    StepInjective(BitStep, Xor, 0, a, b, Wide(byte), 8);
  }

  /** The inverse of a bit step, which makes the byte step onto as well. */
  function BitBack(crc: bv16): bv16 {
    if crc & 0x8000 != 0 then ((crc ^ 0xA001) << 1) | 1 else crc << 1
  }

  lemma HighBitBack(crc: bv16)
    requires crc & 0x8000 != 0
    ensures (((crc ^ 0xA001) << 1) | 1) & 1 != 0
    ensures ((((crc ^ 0xA001) << 1) | 1) >> 1) == crc ^ 0xA001
    ensures (crc ^ 0xA001) ^ 0xA001 == crc
  {
  }

  lemma LowBitBack(crc: bv16)
    requires crc & 0x8000 == 0
    ensures (crc << 1) & 1 == 0
    ensures (crc << 1) >> 1 == crc
  {
  }

  lemma HighInverts(crc: bv16)
    requires crc & 0x8000 != 0
    ensures BitStep(BitBack(crc)) == crc
  {
    HighBitBack(crc);
  }

  lemma LowInverts(crc: bv16)
    requires crc & 0x8000 == 0
    ensures BitStep(BitBack(crc)) == crc
  {
    LowBitBack(crc);
  }

  lemma BitBackInverts(crc: bv16)
    ensures BitStep(BitBack(crc)) == crc
  {
    if crc & 0x8000 != 0 {
      HighInverts(crc);
    } else {
      LowInverts(crc);
    }
  }

  /** Every register value is reached by exactly one predecessor: the step is a bijection. */
  lemma {:induction false} BitStepsOnto(target: bv16, count: nat) returns (source: bv16)
    ensures BitSteps(source, count) == target
    decreases count
  {
    if count == 0 {
      source := target;
    } else {
      source := BitStepsOnto(BitBack(target), count - 1);
      BitBackInverts(target);
    }
  }

  lemma XorTwice(source: bv16, byte: Byte)
    ensures Xor(Xor(source, Wide(byte)), Wide(byte)) == source
  {
  }

  /** With the byte fixed, the step is a bijection on the register. */
  lemma ByteStepBijective(target: bv16, byte: Byte)
    ensures exists crc :: ByteStep(crc, byte) == target
    ensures forall a, b :: ByteStep(a, byte) == target && ByteStep(b, byte) == target ==> a == b
  {
    var source := BitStepsOnto(target, 8);
    XorTwice(source, byte);
    assert ByteStep(Xor(source, Wide(byte)), byte) == target;
    forall a, b | ByteStep(a, byte) == target && ByteStep(b, byte) == target ensures a == b {
      ByteStepInjective(a, b, byte);
    }
  }

  // ---------------------------------------------------------------------------
  // Messages
  // ---------------------------------------------------------------------------

  lemma ByteStepKeepsApart()
    ensures KeepsApart(ByteStep)
  {
    forall p, q, byte | ByteStep(p, byte) == ByteStep(q, byte) ensures p == q {
      ByteStepInjective(p, q, byte);
    }
  }

  lemma CrcTwo(crc: bv16, low: Byte, high: Byte)
    ensures CrcFrom(crc, [low, high]) == ByteStep(ByteStep(crc, low), high)
  {
    assert [low, high][..1] == [low];
    assert [low][..0] == [];
    assert CrcFrom(crc, [low]) == ByteStep(CrcFrom(crc, []), low);
  }

  lemma SplitRegister(crc: bv16)
    ensures Xor(crc, Wide(Low(crc))) & 0xFF == 0
    ensures Xor(crc, Wide(Low(crc))) >> 8 == Wide(High(crc))
  {
  }

  lemma WordOfParts(low: Byte, high: Byte)
    ensures Low(Word(low, high)) == low && High(Word(low, high)) == high
  {
  }

  lemma PartsOfWord(crc: bv16)
    ensures Word(Low(crc), High(crc)) == crc
  {
  }

  /** The algebra of this register, in one place. */
  lemma RegisterAlgebra()
    ensures Group(Xor, 0) && Linear(BitStep, Xor) && KeepsZero(BitStep, 0)
    ensures Spreads(BitStep, Narrow, Lift, 0, 8) && NarrowClosed(Xor, Narrow)
  {
    XorIsAGroup();
    BitStepIsLinear();
    BitStepKeepsZero();
    BytesSpread();
    NarrowIsClosed();
  }

  /** The low byte of the register is consumed by itself and leaves the high byte. */
  lemma OwnLowByte(crc: bv16)
    ensures ByteStep(crc, Low(crc)) == Wide(High(crc))
  {
    SplitRegister(crc);
    ShiftDownBy(Xor(crc, Wide(Low(crc))), 8);
  }

  lemma WordMatches(crc: bv16, low: Byte, high: Byte)
    ensures crc == Word(low, high) <==> low == Low(crc) && high == High(crc)
  {
    WordOfParts(low, high);
    PartsOfWord(crc);
  }

  /** Two continuations of one register by two bytes each meet again only if the bytes agree. */
  lemma TwoBytesDiffer(crc: bv16, a: Byte, b: Byte, x: Byte, y: Byte)
    requires ByteStep(ByteStep(crc, a), x) == ByteStep(ByteStep(crc, b), y)
    ensures a == b && x == y
  {
    WideIsNarrow(a);
    WideIsNarrow(b);
    WideIsNarrow(x);
    WideIsNarrow(y);
    TwoNarrowDiffer(crc, Wide(a), Wide(b), Wide(x), Wide(y));
    WideInjective(a, b);
    WideInjective(x, y);
  }

  lemma TwoNarrowDiffer(crc: bv16, a: bv16, b: bv16, x: bv16, y: bv16)
    requires Narrow(a) && Narrow(b) && Narrow(x) && Narrow(y)
    requires BitSteps(Xor(BitSteps(Xor(crc, a), 8), x), 8) == BitSteps(Xor(BitSteps(Xor(crc, b), 8), y), 8)
    ensures a == b && x == y
  {
    RegisterAlgebra();
    SameIterate(BitStep, Xor, 0, Xor(BitSteps(Xor(crc, a), 8), x), Xor(BitSteps(Xor(crc, b), 8), y), 8);
    PairsDiffer(BitStep, Xor, 0, Narrow, Lift, 8, crc, a, b, x, y);
  }

  lemma SelfInputClears(x: bv16)
    ensures BitSteps(Xor(x, x), 8) == 0
  {
    BitStepKeepsZero();
    IterateZero(BitStep, 0, Xor(x, x), 8);
  }

  /** The two CRC bytes, low first, drive the register to zero, and no other two bytes do. */
  lemma ZeroAfterCrcBytes(crc: bv16, low: Byte, high: Byte)
    ensures ByteStep(ByteStep(crc, low), high) == 0 <==> low == Low(crc) && high == High(crc)
  {
    OwnLowByte(crc);
    SelfInputClears(Wide(High(crc)));
    if ByteStep(ByteStep(crc, low), high) == 0 {
      TwoBytesDiffer(crc, low, Low(crc), high, High(crc));
    }
  }

  // ---------------------------------------------------------------------------
  // Main results
  // ---------------------------------------------------------------------------

  /** A buffer passes the check if and only if the CRC over the whole buffer, its two CRC bytes
      included, is zero. */
  lemma CheckedIffZero(buffer: seq<Byte>)
    requires |buffer| >= 2
    ensures Checked(buffer) <==> Crc(buffer) == 0
  {
    var n := |buffer| - 2;
    var low, high := buffer[n], buffer[n + 1];
    assert buffer == buffer[..n] + [low, high];
    FoldedAppend(ByteStep, INIT, buffer[..n], [low, high]);
    CrcTwo(Crc(buffer[..n]), low, high);
    ZeroAfterCrcBytes(Crc(buffer[..n]), low, high);
    WordMatches(Crc(buffer[..n]), low, high);
  }

  /** Appending the CRC bytes of a message makes a buffer that passes. */
  lemma AppendedCrcPasses(data: seq<Byte>)
    ensures Checked(data + [Low(Crc(data)), High(Crc(data))])
  {
    var buffer := data + [Low(Crc(data)), High(Crc(data))];
    assert buffer[..|buffer| - 2] == data;
    PartsOfWord(Crc(data));
  }

  /** Equal outside the two adjacent positions `at` and `at + 1`. */
  predicate DifferWithinTwo(a: seq<Byte>, b: seq<Byte>, at: nat) {
    && |a| == |b| && at + 2 <= |a|
    && a[..at] == b[..at]
    && a[at + 2..] == b[at + 2..]
  }

  lemma SameOutsideSameInside(a: seq<Byte>, b: seq<Byte>, at: nat)
    requires DifferWithinTwo(a, b, at) && a[at] == b[at] && a[at + 1] == b[at + 1]
    ensures a == b
  {
    forall i | 0 <= i < |a| ensures a[i] == b[i] {
      if i < at {
        assert a[..at][i] == b[..at][i];
      } else if i >= at + 2 {
        assert a[at + 2..][i - at - 2] == b[at + 2..][i - at - 2];
      }
    }
  }

  /** With one prefix and one suffix, equal registers at the end mean equal bytes in between. */
  lemma MiddleAgrees(a: seq<Byte>, b: seq<Byte>, at: nat)
    requires DifferWithinTwo(a, b, at) && Crc(a) == Crc(b)
    ensures a[at] == b[at] && a[at + 1] == b[at + 1]
  {
    SplitAt(a, at);
    SplitAt(b, at);
    var crc := CrcFrom(INIT, a[..at]);
    var afterA := ByteStep(ByteStep(crc, a[at]), a[at + 1]);
    var afterB := ByteStep(ByteStep(crc, b[at]), b[at + 1]);
    ByteStepKeepsApart();
    FoldedApart(ByteStep, afterA, afterB, a[at + 2..]);
    TwoBytesDiffer(crc, a[at], b[at], a[at + 1], b[at + 1]);
  }

  /** Every corruption confined to two adjacent bytes is detected: two different buffers that
      both pass never differ only there. */
  lemma AdjacentErrorsAreDetected(a: seq<Byte>, b: seq<Byte>, at: nat)
    requires Checked(a) && Checked(b) && DifferWithinTwo(a, b, at)
    ensures a == b
  {
    CheckedIffZero(a);
    CheckedIffZero(b);
    MiddleAgrees(a, b, at);
    SameOutsideSameInside(a, b, at);
  }

  lemma SplitAt(a: seq<Byte>, at: nat)
    requires at + 2 <= |a|
    ensures Crc(a) == CrcFrom(ByteStep(ByteStep(CrcFrom(INIT, a[..at]), a[at]), a[at + 1]), a[at + 2..])
  {
    assert a == (a[..at] + [a[at], a[at + 1]]) + a[at + 2..];
    FoldedAppend(ByteStep, INIT, a[..at] + [a[at], a[at + 1]], a[at + 2..]);
    FoldedAppend(ByteStep, INIT, a[..at], [a[at], a[at + 1]]);
    CrcTwo(CrcFrom(INIT, a[..at]), a[at], a[at + 1]);
  }

  // ---------------------------------------------------------------------------
  // The check value
  // ---------------------------------------------------------------------------

  function Eight(x: bv16): bv16 {
    BitStep(BitStep(BitStep(BitStep(BitStep(BitStep(BitStep(BitStep(x))))))))
  }

  lemma StepsUnroll(step: bv16 -> bv16, x: bv16)
    ensures Iterate(step, x, 8) == step(step(step(step(step(step(step(step(x))))))))
  {
    assert Iterate(step, x, 4) == step(step(step(step(x))));
  }

  lemma ByteStepIsEight(crc: bv16, byte: Byte)
    ensures ByteStep(crc, byte) == Eight(Xor(crc, Wide(byte)))
  {
    StepsUnroll(BitStep, Xor(crc, Wide(byte)));
  }

  const DIGITS: seq<Byte> := [0x31, 0x32, 0x33, 0x34, 0x35, 0x36, 0x37, 0x38, 0x39]

  const DIGIT_CRCS: seq<bv16> :=
    [0xFFFF, 0x947E, 0xF595, 0x7A75, 0x30BA, 0xA471, 0x32E4, 0x9D73, 0x37DD, 0x4B37]

  lemma DigitSteps(i: nat)
    requires i < 9
    ensures ByteStep(DIGIT_CRCS[i], DIGITS[i]) == DIGIT_CRCS[i + 1]
  {
    ByteStepIsEight(DIGIT_CRCS[i], DIGITS[i]);
  }

  /** The check value of the standard: the CRC of the digits 1 to 9. */
  lemma CheckValue()
    ensures Crc(DIGITS) == 0x4B37
  {
    forall i | 0 <= i < |DIGITS| ensures ByteStep(DIGIT_CRCS[i], DIGITS[i]) == DIGIT_CRCS[i + 1] {
      DigitSteps(i);
    }
    FoldedAlong(ByteStep, DIGITS, DIGIT_CRCS, 9);
    assert DIGITS[..9] == DIGITS;
  }
}
