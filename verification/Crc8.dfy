/** The SMIT CRC-8 (polynomial 0x07, initial 0, no reflection). */
module Crc8 {
  import opened Iteration
  import opened XorAlgebra

  type Byte = bv8

  const POLY: Byte := 0x07
  const BITS: nat := 8

  function BitStep(crc: Byte): Byte {
    if Top(crc) then Xor(Shift(crc), POLY) else Shift(crc)
  }

  predicate Top(crc: Byte) { crc & 0x80 != 0 }

  function Shift(crc: Byte): Byte { crc << 1 }

  function Xor(a: Byte, b: Byte): Byte { a ^ b }

  function BitSteps(crc: Byte, count: nat): Byte {
    Iterate(BitStep, crc, count)
  }

  function ByteStep(crc: Byte, byte: Byte): Byte {
    BitSteps(Xor(crc, byte), BITS)
  }

  function CrcFrom(crc: Byte, data: seq<Byte>): Byte {
    Folded(ByteStep, crc, data)
  }

  function Crc(data: seq<Byte>): Byte {
    CrcFrom(0, data)
  }

  /** A payload whose last byte is the CRC of the rest. */
  predicate Checked(payload: seq<Byte>) {
    payload != [] && Crc(payload[..|payload| - 1]) == payload[|payload| - 1]
  }

  method StepBits(start: Byte) returns (crc: Byte)
    ensures crc == BitSteps(start, BITS)
  {
    crc := start;
    for bit := 0 to 8
      invariant crc == BitSteps(start, bit)
    {
      if crc & 0x80 != 0 {
        crc := (crc << 1) ^ POLY;
      } else {
        crc := crc << 1;
      }
    }
  }

  method ComputeCrc(data: seq<Byte>) returns (crc: Byte)
    ensures crc == Crc(data)
  {
    crc := 0;
    for index := 0 to |data|
      invariant crc == Crc(data[..index])
    {
      assert data[..index + 1][..index] == data[..index];
      crc := StepBits(Xor(crc, data[index]));
    }
    assert data[..|data|] == data;
  }

  // ---------------------------------------------------------------------------
  // Damage to one byte is detected
  // ---------------------------------------------------------------------------

  lemma ShiftLinear(a: Byte, b: Byte)
    ensures Shift(Xor(a, b)) == Xor(Shift(a), Shift(b))
  {
  }

  lemma TopBitLinear(a: Byte, b: Byte)
    ensures Top(Xor(a, b)) == (Top(a) != Top(b))
  {
  }

  lemma BitStepLinear(a: Byte, b: Byte)
    ensures BitStep(Xor(a, b)) == Xor(BitStep(a), BitStep(b))
  {
    XorIsAGroup();
    ShiftLinear(a, b);
    TopBitLinear(a, b);
    ConditionalLinear(BitStep, Xor, 0, Top, Shift, POLY, a, b);
  }

  lemma BitStepZero(crc: Byte)
    ensures BitStep(crc) == 0 <==> crc == 0
  {
  }

  lemma StepIsLinear()
    ensures Linear(BitStep, Xor) && KeepsZero(BitStep, 0)
  {
    forall a, b ensures BitStep(Xor(a, b)) == Xor(BitStep(a), BitStep(b)) {
      BitStepLinear(a, b);
    }
    forall a ensures BitStep(a) == 0 <==> a == 0 {
      BitStepZero(a);
    }
  }

  lemma XorCommutes(a: Byte, b: Byte)
    ensures Xor(a, b) == Xor(b, a)
  {
  }

  lemma XorIsAGroup()
    ensures Group(Xor, 0)
  {
  }

  /** With one operand fixed, the steps are injective in the other. */
  lemma InputsStayApart(fixed: Byte, p: Byte, q: Byte, count: nat)
    ensures BitSteps(Xor(p, fixed), count) == BitSteps(Xor(q, fixed), count) <==> p == q
  {
    XorIsAGroup();
    StepIsLinear();
    StepInjective(BitStep, Xor, 0, p, q, fixed, count);
  }

  lemma ByteStepKeepsApart()
    ensures KeepsApart(ByteStep)
  {
    forall p, q, byte | ByteStep(p, byte) == ByteStep(q, byte) ensures p == q {
      InputsStayApart(byte, p, q, BITS);
    }
  }

  /** Damage to one byte always changes the CRC. */
  lemma OneByteIsDetected(before: seq<Byte>, a: Byte, b: Byte, after: seq<Byte>)
    ensures Crc(before + [a] + after) == Crc(before + [b] + after) <==> a == b
  {
    var crc := CrcFrom(0, before);
    FoldedAppend(ByteStep, 0, before + [a], after);
    FoldedAppend(ByteStep, 0, before + [b], after);
    FoldedAppend(ByteStep, 0, before, [a]);
    FoldedAppend(ByteStep, 0, before, [b]);
    FoldedOne(ByteStep, crc, a);
    FoldedOne(ByteStep, crc, b);
    ByteStepKeepsApart();
    FoldedApart(ByteStep, CrcFrom(0, before + [a]), CrcFrom(0, before + [b]), after);
    InputsStayApart(crc, a, b, BITS);
    XorCommutes(crc, a);
    XorCommutes(crc, b);
  }

  /** A payload that passes fails once any one of its bytes, the checksum included, is damaged. */
  lemma DamagedPayloadFails(payload: seq<Byte>, at: nat, value: Byte)
    requires Checked(payload) && at < |payload| && value != payload[at]
    ensures !Checked(payload[at := value])
  {
    var last := |payload| - 1;
    var damaged := payload[at := value];
    if at == last {
      assert damaged[..last] == payload[..last];
    } else {
      var before, after := payload[..at], payload[at + 1..last];
      assert payload[..last] == before + [payload[at]] + after;
      assert damaged[..last] == before + [value] + after;
      OneByteIsDetected(before, payload[at], value, after);
    }
  }

  // ---------------------------------------------------------------------------
  // Evaluating
  // ---------------------------------------------------------------------------

  function Eight(x: Byte): Byte {
    BitStep(BitStep(BitStep(BitStep(BitStep(BitStep(BitStep(BitStep(x))))))))
  }

  lemma StepsUnroll(step: Byte -> Byte, x: Byte)
    ensures Iterate(step, x, BITS) == step(step(step(step(step(step(step(step(x))))))))
  {
    assert Iterate(step, x, 4) == step(step(step(step(x))));
  }

  lemma ByteStepIsEight(crc: Byte, byte: Byte)
    ensures ByteStep(crc, byte) == Eight(Xor(crc, byte))
  {
    StepsUnroll(BitStep, Xor(crc, byte));
  }
}
