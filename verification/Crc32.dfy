/** CRC-32/MPEG-2 one bit at a time: polynomial 0x04C11DB7, initial all ones, no reflection, no
    final exclusive-or. */
module Crc32Bits {
  import opened Iteration
  import opened XorAlgebra

  type Byte = bv8

  const INIT: bv32 := 0xFFFF_FFFF
  const POLY: bv32 := 0x04C1_1DB7
  const BITS: nat := 8

  // ---------------------------------------------------------------------------
  // Specification
  // ---------------------------------------------------------------------------

  function BitStep(crc: bv32): bv32 {
    if Top(crc) then Xor(Shift(crc), POLY) else Shift(crc)
  }

  predicate Top(crc: bv32) { crc & 0x8000_0000 != 0 }

  function Shift(crc: bv32): bv32 { crc << 1 }

  function Xor(a: bv32, b: bv32): bv32 { a ^ b }

  /** A byte at the top of the register. */
  function High(byte: Byte): bv32 { (byte as bv32) << 24 }

  /** The register after a byte's worth of zero bits. */
  function Remainder(x: bv32): bv32 {
    Iterate(BitStep, x, BITS)
  }

  function ByteStep(crc: bv32, byte: Byte): bv32 {
    Remainder(Xor(crc, High(byte)))
  }

  function CrcFrom(crc: bv32, data: seq<Byte>): bv32 {
    Folded(ByteStep, crc, data)
  }

  function Crc(data: seq<Byte>): bv32 {
    CrcFrom(INIT, data)
  }

  // ---------------------------------------------------------------------------
  // The bit step is linear
  // ---------------------------------------------------------------------------

  lemma ShiftLinear(a: bv32, b: bv32)
    ensures Shift(Xor(a, b)) == Xor(Shift(a), Shift(b))
  {
  }

  lemma TopBitLinear(a: bv32, b: bv32)
    ensures Top(Xor(a, b)) == (Top(a) != Top(b))
  {
  }

  lemma SteppedLinearly(
      step: bv32 -> bv32, top: bv32 -> bool, shift: bv32 -> bv32, poly: bv32, a: bv32, b: bv32, both: bv32)
    requires both == Xor(a, b)
    requires StepsAt(step, Xor, top, shift, poly, a) && StepsAt(step, Xor, top, shift, poly, b)
    requires StepsAt(step, Xor, top, shift, poly, both)
    requires shift(both) == Xor(shift(a), shift(b)) && top(both) == (top(a) != top(b))
    ensures step(both) == Xor(step(a), step(b))
  {
    XorIsAGroup();
    ConditionalLinear(step, Xor, 0, top, shift, poly, a, b);
  }

  lemma BitStepsAt(x: bv32)
    ensures StepsAt(BitStep, Xor, Top, Shift, POLY, x)
  {
  }

  lemma BitStepLinear(a: bv32, b: bv32)
    ensures BitStep(Xor(a, b)) == Xor(BitStep(a), BitStep(b))
  {
    ShiftLinear(a, b);
    TopBitLinear(a, b);
    BitStepsAt(a);
    BitStepsAt(b);
    BitStepsAt(Xor(a, b));
    SteppedLinearly(BitStep, Top, Shift, POLY, a, b, Xor(a, b));
  }

  lemma BitStepZero(crc: bv32)
    ensures BitStep(crc) == 0 <==> crc == 0
  {
  }

  lemma StepIsLinear()
    ensures Linear(BitStep, Xor) && KeepsZero(BitStep, 0)
  {
    forall x, y ensures BitStep(Xor(x, y)) == Xor(BitStep(x), BitStep(y)) {
      BitStepLinear(x, y);
    }
    forall x ensures BitStep(x) == 0 <==> x == 0 {
      BitStepZero(x);
    }
  }

  lemma XorAssociates(x: bv32, y: bv32, z: bv32)
    ensures Xor(Xor(x, y), z) == Xor(x, Xor(y, z))
  {
  }

  lemma XorCommutes(x: bv32, y: bv32)
    ensures Xor(x, y) == Xor(y, x)
  {
  }

  lemma XorIsAGroup()
    ensures Group(Xor, 0)
  {
  }

  lemma RemainderLinear(a: bv32, b: bv32)
    ensures Remainder(Xor(a, b)) == Xor(Remainder(a), Remainder(b))
  {
    StepIsLinear();
    IterateLinear(BitStep, Xor, a, b, BITS);
  }

  // ---------------------------------------------------------------------------
  // Remainders of a byte at the top, and of a register without one
  // ---------------------------------------------------------------------------

  function Eight(x: bv32): bv32 {
    BitStep(BitStep(BitStep(BitStep(BitStep(BitStep(BitStep(BitStep(x))))))))
  }

  lemma EightIsRemainder(x: bv32)
    ensures Eight(x) == Remainder(x)
  {
    IterateUnrolls(BitStep, x);
  }

  lemma IterateUnrolls(step: bv32 -> bv32, x: bv32)
    ensures Iterate(step, x, BITS) == step(step(step(step(step(step(step(step(x))))))))
  {
    assert Iterate(step, x, 4) == step(step(step(step(x))));
  }

  lemma EightShifts(low: bv32)
    requires low & 0xFF00_0000 == 0
    ensures Eight(low) == low << 8
  {
  }

  /** With its top byte clear the register is only shifted. */
  lemma Shifts(low: bv32)
    requires low & 0xFF00_0000 == 0
    ensures Remainder(low) == low << 8
  {
    EightShifts(low);
    EightIsRemainder(low);
  }

  lemma RemainderOfZero()
    ensures Remainder(0) == 0
  {
    StepIsLinear();
    IterateZero(BitStep, 0, 0, BITS);
  }

  lemma RemainderOfOne()
    ensures Remainder(1 << 24) == POLY
  {
    EightIsRemainder(1 << 24);
  }

  function Doubling(half: bv32, odd: bool): bv32 {
    if odd then Xor(BitStep(half), POLY) else BitStep(half)
  }

  lemma RemainderShifts(x: bv32)
    requires !Top(x)
    ensures Remainder(Shift(x)) == BitStep(Remainder(x))
  {
    IterateCommutes(BitStep, x, BITS);
  }

  lemma HalfAtTop(index: bv32)
    requires index < 256
    ensures !Top((index >> 1) << 24)
    ensures index & 1 == 0 ==> index << 24 == Shift((index >> 1) << 24)
    ensures index & 1 != 0 ==> index << 24 == Xor(Shift((index >> 1) << 24), 1 << 24)
  {
  }

  lemma RemainderHalves(index: bv32)
    requires index < 256
    ensures Remainder(index << 24) == Doubling(Remainder((index >> 1) << 24), index & 1 != 0)
  {
    HalfAtTop(index);
    RemainderShifts((index >> 1) << 24);
    RemainderOfOne();
    RemainderLinear(Shift((index >> 1) << 24), 1 << 24);
  }

  // ---------------------------------------------------------------------------
  // Bursts
  // ---------------------------------------------------------------------------

  function Second(byte: Byte): bv32 { (byte as bv32) << 16 }
  function Third(byte: Byte): bv32 { (byte as bv32) << 8 }
  function Fourth(byte: Byte): bv32 { byte as bv32 }

  /** Four bytes as one register-wide input, the first at the top. */
  function Word(a: Byte, b: Byte, c: Byte, d: Byte): bv32 {
    Xor(Xor(Xor(High(a), Second(b)), Third(c)), Fourth(d))
  }

  function ByteAt(word: bv32, shift: nat): Byte
    requires shift < 32
  {
    ((word >> shift) & 0xFF) as Byte
  }

  lemma BytesOfWord(a: Byte, b: Byte, c: Byte, d: Byte)
    ensures ByteAt(Word(a, b, c, d), 24) == a && ByteAt(Word(a, b, c, d), 16) == b
    ensures ByteAt(Word(a, b, c, d), 8) == c && ByteAt(Word(a, b, c, d), 0) == d
  {
  }

  lemma WordInjective(a: seq<Byte>, b: seq<Byte>)
    requires |a| == |b| == 4
    ensures Word(a[0], a[1], a[2], a[3]) == Word(b[0], b[1], b[2], b[3]) <==> a == b
  {
    BytesOfWord(a[0], a[1], a[2], a[3]);
    BytesOfWord(b[0], b[1], b[2], b[3]);
  }

  /** A byte waits lower in the register for the steps that carry it up. */
  lemma Climbs(byte: Byte)
    ensures High(byte) == Iterate(BitStep, Second(byte), BITS)
    ensures High(byte) == Iterate(BitStep, Third(byte), BITS + BITS)
    ensures High(byte) == Iterate(BitStep, Fourth(byte), BITS + BITS + BITS)
  {
    ClimbsOnce(byte);
    IterateAdds(BitStep, Third(byte), BITS, BITS);
    IterateAdds(BitStep, Fourth(byte), BITS, BITS);
    IterateAdds(BitStep, Fourth(byte), BITS + BITS, BITS);
  }

  lemma ClimbsOnce(byte: Byte)
    ensures Remainder(Fourth(byte)) == Third(byte)
    ensures Remainder(Third(byte)) == Second(byte)
    ensures Remainder(Second(byte)) == High(byte)
  {
    Places(byte);
    Shifts(Second(byte));
    Shifts(Third(byte));
    Shifts(Fourth(byte));
  }

  lemma Places(byte: Byte)
    ensures Second(byte) & 0xFF00_0000 == 0 && Second(byte) << 8 == High(byte)
    ensures Third(byte) & 0xFF00_0000 == 0 && Third(byte) << 8 == Second(byte)
    ensures Fourth(byte) & 0xFF00_0000 == 0 && Fourth(byte) << 8 == Third(byte)
  {
  }

  lemma TakenIn(register: bv32, early: bv32, first: nat)
    ensures Remainder(Xor(Iterate(BitStep, register, first), Iterate(BitStep, early, first)))
         == Iterate(BitStep, Xor(register, early), first + BITS)
  {
    StepIsLinear();
    TakenInEarly(BitStep, Xor, register, early, first, BITS);
  }

  /** Four bytes are as well taken in at once, before four bytes' worth of steps. */
  lemma FourBytesAtOnce(crc: bv32, a: seq<Byte>)
    requires |a| == 4
    ensures CrcFrom(crc, a) == Iterate(BitStep, Xor(crc, Word(a[0], a[1], a[2], a[3])), BITS + BITS + BITS + BITS)
  {
    var r0 := Xor(crc, High(a[0]));
    var r1 := Xor(r0, Second(a[1]));
    var r2 := Xor(r1, Third(a[2]));
    FoldedFour(ByteStep, crc, a);
    Climbs(a[1]);
    Climbs(a[2]);
    Climbs(a[3]);
    TakenIn(r0, Second(a[1]), BITS);
    TakenIn(r1, Third(a[2]), BITS + BITS);
    TakenIn(r2, Fourth(a[3]), BITS + BITS + BITS);
    Regroup(crc, High(a[0]), Second(a[1]), Third(a[2]), Fourth(a[3]));
  }

  lemma Regroup(crc: bv32, a: bv32, b: bv32, c: bv32, d: bv32)
    ensures Xor(Xor(Xor(Xor(crc, a), b), c), d) == Xor(crc, Xor(Xor(Xor(a, b), c), d))
  {
    XorAssociates(crc, a, b);
    XorAssociates(crc, Xor(a, b), c);
    XorAssociates(crc, Xor(Xor(a, b), c), d);
  }

  lemma ByteStepInjective(p: bv32, q: bv32, byte: Byte)
    ensures ByteStep(p, byte) == ByteStep(q, byte) <==> p == q
  {
    InputsStayApart(High(byte), p, q, BITS);
    XorCommutes(p, High(byte));
    XorCommutes(q, High(byte));
  }

  lemma ByteStepKeepsApart()
    ensures KeepsApart(ByteStep)
  {
    forall p, q, byte | ByteStep(p, byte) == ByteStep(q, byte) ensures p == q {
      ByteStepInjective(p, q, byte);
    }
  }

  lemma WordsStayApart(crc: bv32, a: seq<Byte>, b: seq<Byte>)
    requires |a| == |b| == 4
    ensures CrcFrom(crc, a) == CrcFrom(crc, b) <==> a == b
  {
    FourBytesAtOnce(crc, a);
    FourBytesAtOnce(crc, b);
    WordInjective(a, b);
    InputsStayApart(crc, Word(a[0], a[1], a[2], a[3]), Word(b[0], b[1], b[2], b[3]), BITS + BITS + BITS + BITS);
  }

  lemma InputsStayApart(crc: bv32, v: bv32, w: bv32, count: nat)
    ensures Iterate(BitStep, Xor(crc, v), count) == Iterate(BitStep, Xor(crc, w), count) <==> v == w
  {
    XorIsAGroup();
    StepIsLinear();
    StepInjective(BitStep, Xor, 0, v, w, crc, count);
    XorCommutes(crc, v);
    XorCommutes(crc, w);
  }

  /** Damage within four consecutive bytes always changes the CRC. */
  lemma BurstsAreDetected(before: seq<Byte>, a: seq<Byte>, b: seq<Byte>, after: seq<Byte>)
    requires |a| == |b| == 4
    ensures Crc(before + a + after) == Crc(before + b + after) <==> a == b
  {
    FoldedAppend(ByteStep, INIT, before + a, after);
    FoldedAppend(ByteStep, INIT, before + b, after);
    FoldedAppend(ByteStep, INIT, before, a);
    FoldedAppend(ByteStep, INIT, before, b);
    ByteStepKeepsApart();
    FoldedApart(ByteStep, CrcFrom(INIT, before + a), CrcFrom(INIT, before + b), after);
    WordsStayApart(CrcFrom(INIT, before), a, b);
  }

  // ---------------------------------------------------------------------------
  // The check value
  // ---------------------------------------------------------------------------

  const DIGITS: seq<Byte> := [0x31, 0x32, 0x33, 0x34, 0x35, 0x36, 0x37, 0x38, 0x39]

  const DIGIT_CRCS: seq<bv32> :=
    [0xFFFFFFFF, 0x9EFBCF93, 0x3FEC5E6A, 0xD952F164, 0xA695C4AA, 0xBD9AB747, 0xD8F06C8F, 0x0D8A14C4, 0x49E3C2FB,
     0x376E6E7]

  /** One more byte takes the register from one value to the next. */
  predicate Steps(from: bv32, byte: Byte, next: bv32) {
    Eight(Xor(from, High(byte))) == next
  }

  lemma DigitSteps(i: nat)
    requires i < 9
    ensures Steps(DIGIT_CRCS[i], DIGITS[i], DIGIT_CRCS[i + 1])
  {
  }

  lemma DigitByteSteps(i: nat)
    requires i < 9
    ensures ByteStep(DIGIT_CRCS[i], DIGITS[i]) == DIGIT_CRCS[i + 1]
  {
    DigitSteps(i);
    EightIsRemainder(Xor(DIGIT_CRCS[i], High(DIGITS[i])));
  }

  lemma CrcAlong(data: seq<Byte>, values: seq<bv32>)
    requires |values| == |data| + 1 && values[0] == INIT
    requires forall i :: 0 <= i < |data| ==> ByteStep(values[i], data[i]) == values[i + 1]
    ensures Crc(data) == values[|data|]
  {
    FoldedAlong(ByteStep, data, values, |data|);
    assert data[..|data|] == data;
  }

  /** The check value of the standard: the CRC of the digits 1 to 9. */
  lemma CheckValue()
    ensures Crc(DIGITS) == 0x0376E6E7
  {
    forall i | 0 <= i < |DIGITS| ensures ByteStep(DIGIT_CRCS[i], DIGITS[i]) == DIGIT_CRCS[i + 1] {
      DigitByteSteps(i);
    }
    CrcAlong(DIGITS, DIGIT_CRCS);
  }
}

/** The table-driven CRC of the Oradar SDK is the bit-by-bit one. */
module Crc32 {
  import opened Crc32Bits

  /** Entry `i` is `TABLE[i / 8][i % 8]`. */
  const TABLE: seq<seq<bv32>> := [
    [0x00000000, 0x04c11db7, 0x09823b6e, 0x0d4326d9, 0x130476dc, 0x17c56b6b, 0x1a864db2, 0x1e475005],
    [0x2608edb8, 0x22c9f00f, 0x2f8ad6d6, 0x2b4bcb61, 0x350c9b64, 0x31cd86d3, 0x3c8ea00a, 0x384fbdbd],
    [0x4c11db70, 0x48d0c6c7, 0x4593e01e, 0x4152fda9, 0x5f15adac, 0x5bd4b01b, 0x569796c2, 0x52568b75],
    [0x6a1936c8, 0x6ed82b7f, 0x639b0da6, 0x675a1011, 0x791d4014, 0x7ddc5da3, 0x709f7b7a, 0x745e66cd],
    [0x9823b6e0, 0x9ce2ab57, 0x91a18d8e, 0x95609039, 0x8b27c03c, 0x8fe6dd8b, 0x82a5fb52, 0x8664e6e5],
    [0xbe2b5b58, 0xbaea46ef, 0xb7a96036, 0xb3687d81, 0xad2f2d84, 0xa9ee3033, 0xa4ad16ea, 0xa06c0b5d],
    [0xd4326d90, 0xd0f37027, 0xddb056fe, 0xd9714b49, 0xc7361b4c, 0xc3f706fb, 0xceb42022, 0xca753d95],
    [0xf23a8028, 0xf6fb9d9f, 0xfbb8bb46, 0xff79a6f1, 0xe13ef6f4, 0xe5ffeb43, 0xe8bccd9a, 0xec7dd02d],
    [0x34867077, 0x30476dc0, 0x3d044b19, 0x39c556ae, 0x278206ab, 0x23431b1c, 0x2e003dc5, 0x2ac12072],
    [0x128e9dcf, 0x164f8078, 0x1b0ca6a1, 0x1fcdbb16, 0x018aeb13, 0x054bf6a4, 0x0808d07d, 0x0cc9cdca],
    [0x7897ab07, 0x7c56b6b0, 0x71159069, 0x75d48dde, 0x6b93dddb, 0x6f52c06c, 0x6211e6b5, 0x66d0fb02],
    [0x5e9f46bf, 0x5a5e5b08, 0x571d7dd1, 0x53dc6066, 0x4d9b3063, 0x495a2dd4, 0x44190b0d, 0x40d816ba],
    [0xaca5c697, 0xa864db20, 0xa527fdf9, 0xa1e6e04e, 0xbfa1b04b, 0xbb60adfc, 0xb6238b25, 0xb2e29692],
    [0x8aad2b2f, 0x8e6c3698, 0x832f1041, 0x87ee0df6, 0x99a95df3, 0x9d684044, 0x902b669d, 0x94ea7b2a],
    [0xe0b41de7, 0xe4750050, 0xe9362689, 0xedf73b3e, 0xf3b06b3b, 0xf771768c, 0xfa325055, 0xfef34de2],
    [0xc6bcf05f, 0xc27dede8, 0xcf3ecb31, 0xcbffd686, 0xd5b88683, 0xd1799b34, 0xdc3abded, 0xd8fba05a],
    [0x690ce0ee, 0x6dcdfd59, 0x608edb80, 0x644fc637, 0x7a089632, 0x7ec98b85, 0x738aad5c, 0x774bb0eb],
    [0x4f040d56, 0x4bc510e1, 0x46863638, 0x42472b8f, 0x5c007b8a, 0x58c1663d, 0x558240e4, 0x51435d53],
    [0x251d3b9e, 0x21dc2629, 0x2c9f00f0, 0x285e1d47, 0x36194d42, 0x32d850f5, 0x3f9b762c, 0x3b5a6b9b],
    [0x0315d626, 0x07d4cb91, 0x0a97ed48, 0x0e56f0ff, 0x1011a0fa, 0x14d0bd4d, 0x19939b94, 0x1d528623],
    [0xf12f560e, 0xf5ee4bb9, 0xf8ad6d60, 0xfc6c70d7, 0xe22b20d2, 0xe6ea3d65, 0xeba91bbc, 0xef68060b],
    [0xd727bbb6, 0xd3e6a601, 0xdea580d8, 0xda649d6f, 0xc423cd6a, 0xc0e2d0dd, 0xcda1f604, 0xc960ebb3],
    [0xbd3e8d7e, 0xb9ff90c9, 0xb4bcb610, 0xb07daba7, 0xae3afba2, 0xaafbe615, 0xa7b8c0cc, 0xa379dd7b],
    [0x9b3660c6, 0x9ff77d71, 0x92b45ba8, 0x9675461f, 0x8832161a, 0x8cf30bad, 0x81b02d74, 0x857130c3],
    [0x5d8a9099, 0x594b8d2e, 0x5408abf7, 0x50c9b640, 0x4e8ee645, 0x4a4ffbf2, 0x470cdd2b, 0x43cdc09c],
    [0x7b827d21, 0x7f436096, 0x7200464f, 0x76c15bf8, 0x68860bfd, 0x6c47164a, 0x61043093, 0x65c52d24],
    [0x119b4be9, 0x155a565e, 0x18197087, 0x1cd86d30, 0x029f3d35, 0x065e2082, 0x0b1d065b, 0x0fdc1bec],
    [0x3793a651, 0x3352bbe6, 0x3e119d3f, 0x3ad08088, 0x2497d08d, 0x2056cd3a, 0x2d15ebe3, 0x29d4f654],
    [0xc5a92679, 0xc1683bce, 0xcc2b1d17, 0xc8ea00a0, 0xd6ad50a5, 0xd26c4d12, 0xdf2f6bcb, 0xdbee767c],
    [0xe3a1cbc1, 0xe760d676, 0xea23f0af, 0xeee2ed18, 0xf0a5bd1d, 0xf464a0aa, 0xf9278673, 0xfde69bc4],
    [0x89b8fd09, 0x8d79e0be, 0x803ac667, 0x84fbdbd0, 0x9abc8bd5, 0x9e7d9662, 0x933eb0bb, 0x97ffad0c],
    [0xafb010b1, 0xab710d06, 0xa6322bdf, 0xa2f33668, 0xbcb4666d, 0xb8757bda, 0xb5365d03, 0xb1f740b4]
  ]

  function Entry(index: bv32): bv32
    requires index < 256
  {
    TableShaped();
    At(TABLE, index as int)
  }

  function TableStep(crc: bv32, byte: Byte): bv32 {
    var index := ((crc >> 24) ^ (byte as bv32)) & 0xFF;
    IndexInRange((crc >> 24) ^ (byte as bv32));
    Xor(crc << 8, Entry(index))
  }

  /** The table-driven loop computes the bit-by-bit CRC of every message. */
  method CalcCrc32(data: seq<Byte>) returns (crc: bv32)
    ensures crc == Crc(data)
  {
    crc := INIT;
    var next := 0;
    while next < |data|
      invariant next <= |data|
      invariant crc == CrcFrom(INIT, data[..next])
    {
      assert data[..next + 1][..next] == data[..next];
      TableStepIsByteStep(crc, data[next]);
      crc := TableStep(crc, data[next]);
      next := next + 1;
    }
    assert data[..|data|] == data;
  }

  // ---------------------------------------------------------------------------
  // Every entry is right
  // ---------------------------------------------------------------------------

  /** Each entry of even index is one bit step from the entry at half its index, and each of odd
      index differs from the one before by the polynomial. */
  predicate RowDoubles<T(==)>(table: seq<seq<T>>, doubling: (T, bool) -> T, row: nat) {
    && row < |table|
    && var even, half, from := table[row], table[row / 2], if row % 2 == 0 then 0 else 4;
    && |even| == |half| == 8
    && even[0] == doubling(half[from], false) && even[1] == doubling(half[from], true)
    && even[2] == doubling(half[from + 1], false) && even[3] == doubling(half[from + 1], true)
    && even[4] == doubling(half[from + 2], false) && even[5] == doubling(half[from + 2], true)
    && even[6] == doubling(half[from + 3], false) && even[7] == doubling(half[from + 3], true)
  }

  predicate Shaped<T>(table: seq<seq<T>>) {
    |table| == 32 && forall row :: 0 <= row < 32 ==> |table[row]| == 8
  }

  function At<T>(table: seq<seq<T>>, index: nat): T
    requires Shaped(table) && index < 256
  {
    table[index / 8][index % 8]
  }

  lemma AtHalf<T>(table: seq<seq<T>>, doubling: (T, bool) -> T, index: nat)
    requires Shaped(table) && index < 256 && RowDoubles(table, doubling, index / 8)
    ensures At(table, index) == doubling(At(table, index / 2), index % 2 == 1)
  {
    var row, column := index / 8, index % 8;
    assert index / 2 % 8 == row % 2 * 4 + column / 2;
    assert column == 0 || column == 1 || column == 2 || column == 3
        || column == 4 || column == 5 || column == 6 || column == 7;
  }

  lemma TableShaped()
    ensures Shaped(TABLE)
  {
  }

  lemma Rows0To3(row: nat)
    requires 0 <= row < 4
    ensures RowDoubles(TABLE, Doubling, row)
  {
  }

  lemma Rows4To7(row: nat)
    requires 4 <= row < 8
    ensures RowDoubles(TABLE, Doubling, row)
  {
  }

  lemma Rows8To11(row: nat)
    requires 8 <= row < 12
    ensures RowDoubles(TABLE, Doubling, row)
  {
  }

  lemma Rows12To15(row: nat)
    requires 12 <= row < 16
    ensures RowDoubles(TABLE, Doubling, row)
  {
  }

  lemma Rows16To19(row: nat)
    requires 16 <= row < 20
    ensures RowDoubles(TABLE, Doubling, row)
  {
  }

  lemma Rows20To23(row: nat)
    requires 20 <= row < 24
    ensures RowDoubles(TABLE, Doubling, row)
  {
  }

  lemma Rows24To27(row: nat)
    requires 24 <= row < 28
    ensures RowDoubles(TABLE, Doubling, row)
  {
  }

  lemma Rows28To31(row: nat)
    requires 28 <= row < 32
    ensures RowDoubles(TABLE, Doubling, row)
  {
  }

  lemma EveryRowDoubles(row: nat)
    requires row < 32
    ensures RowDoubles(TABLE, Doubling, row)
  {
    if row < 4 {
      Rows0To3(row);
    } else if row < 8 {
      Rows4To7(row);
    } else if row < 12 {
      Rows8To11(row);
    } else if row < 16 {
      Rows12To15(row);
    } else if row < 20 {
      Rows16To19(row);
    } else if row < 24 {
      Rows20To23(row);
    } else if row < 28 {
      Rows24To27(row);
    } else {
      Rows28To31(row);
    }
  }

  lemma IndexInRange(x: bv32)
    ensures x & 0xFF < 256
  {
  }

  lemma IndexHalves(index: bv32)
    requires index < 256
    ensures index >> 1 < 256 && (index >> 1) as int == index as int / 2
    ensures index & 1 != 0 <==> index as int % 2 == 1
  {
  }

  lemma TableHalves(index: nat)
    requires index < 256
    ensures Shaped(TABLE)
    ensures At(TABLE, index) == Doubling(At(TABLE, index / 2), index % 2 == 1)
  {
    TableShaped();
    EveryRowDoubles(index / 8);
    AtHalf(TABLE, Doubling, index);
  }

  lemma EntryHalves(index: bv32)
    requires index < 256
    ensures index >> 1 < 256
    ensures Entry(index) == Doubling(Entry(index >> 1), index & 1 != 0)
  {
    IndexHalves(index);
    TableHalves(index as int);
  }

  lemma FirstEntry()
    ensures Entry(0) == 0
  {
  }

  /** Entry `i` is the remainder of the byte `i`, for all 256 of them. */
  lemma {:induction false} EntryIsRemainder(index: bv32)
    requires index < 256
    ensures Entry(index) == Remainder(index << 24)
    decreases index as int
  {
    if index == 0 {
      FirstEntry();
      RemainderOfZero();
    } else {
      IndexHalves(index);
      EntryHalves(index);
      EntryIsRemainder(index >> 1);
      RemainderHalves(index);
    }
  }

  // ---------------------------------------------------------------------------
  // A table step is eight bit steps
  // ---------------------------------------------------------------------------

  lemma SplitRegister(crc: bv32, byte: Byte)
    ensures var index := ((crc >> 24) ^ (byte as bv32)) & 0xFF;
      && Xor(crc, High(byte)) == Xor(index << 24, crc & 0x00FF_FFFF)
      && (crc & 0x00FF_FFFF) & 0xFF00_0000 == 0
      && (crc & 0x00FF_FFFF) << 8 == crc << 8
  {
  }

  lemma StepFromEntry(crc: bv32, byte: Byte, entry: bv32)
    requires entry == Remainder((((crc >> 24) ^ (byte as bv32)) & 0xFF) << 24)
    ensures Xor(crc << 8, entry) == ByteStep(crc, byte)
  {
    var index := ((crc >> 24) ^ (byte as bv32)) & 0xFF;
    var low := crc & 0x00FF_FFFF;
    SplitRegister(crc, byte);
    RemainderLinear(index << 24, low);
    Shifts(low);
    XorCommutes(entry, low << 8);
  }

  lemma TableStepIsByteStep(crc: bv32, byte: Byte)
    ensures TableStep(crc, byte) == ByteStep(crc, byte)
  {
    var index := ((crc >> 24) ^ (byte as bv32)) & 0xFF;
    IndexInRange((crc >> 24) ^ (byte as bv32));
    EntryIsRemainder(index);
    StepFromEntry(crc, byte, Entry(index));
  }
}
