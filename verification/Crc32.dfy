/** CRC-32 of IEEE 802.3 as the frame extractor clocks it: reflected, polynomial 0x04C11DB7, initial value and
    final complement all ones (section 3.2.9 of IEEE 802.3). */
module Crc32 {

  const INIT: bv32 := 0xFFFF_FFFF
  const RESIDUE: bv32 := 0xDEBB_20E3
  const POLY: bv32 := 0xEDB8_8320

  function Xor(a: bv32, b: bv32): bv32 { a ^ b }

  /** One bit of the shift register. */
  function BitStep(c: bv32): bv32 { if Odd(c) then Xor(Half(c), POLY) else Half(c) }

  predicate Odd(c: bv32) { c & 1 == 1 }

  function Half(c: bv32): bv32 { c >> 1 }

  function BitSteps(c: bv32, n: nat): bv32
    decreases n
  {
    if n == 0 then c else BitSteps(BitStep(c), n - 1)
  }

  function Widen(b: bv8): (w: bv32)
    ensures w >> 8 == 0
  {
    b as bv32
  }

  /** The register after one more byte. */
  function ByteStep(c: bv32, d: bv8): bv32 { BitSteps(Xor(c, Widen(d)), 8) }

  /** `crc32_next`: a loop over a local variable. */
  method Crc32Next(crc: bv32, data: bv8) returns (c: bv32)
    ensures c == ByteStep(crc, data)
  {
    hide BitStep;
    c := Xor(crc, Widen(data));
    for i := 0 to 8
      invariant BitSteps(c, 8 - i) == ByteStep(crc, data)
    {
      c := BitStep(c);
    }
  }

  /** The register after a byte string. */
  function Register(c: bv32, bytes: seq<bv8>): bv32
    decreases |bytes|
  {
    if bytes == [] then c else Register(ByteStep(c, bytes[0]), bytes[1..])
  }

  function Complement(w: bv32): bv32 { !w }

  function LittleEndian(w: bv32): seq<bv8> {
    [(w & 0xFF) as bv8, ((w >> 8) & 0xFF) as bv8, ((w >> 16) & 0xFF) as bv8, (w >> 24) as bv8]
  }

  /** The frame check sequence of `bytes`, in the order it is sent: the register's complement, low byte first. */
  function Fcs(bytes: seq<bv8>): (f: seq<bv8>)
    ensures |f| == 4
  {
    LittleEndian(Complement(Register(INIT, bytes)))
  }

  // ---------------------------------------------------------------------------------------------
  // The bit step is linear and invertible
  // ---------------------------------------------------------------------------------------------

  lemma HalfLinear(a: bv32, b: bv32)
    ensures Half(Xor(a, b)) == Xor(Half(a), Half(b))
  {
  }

  lemma OddLinear(a: bv32, b: bv32)
    ensures Odd(Xor(a, b)) <==> Odd(a) != Odd(b)
  {
  }

  lemma XorMovesOut(x: bv32, y: bv32, p: bv32)
    ensures Xor(Xor(x, p), y) == Xor(Xor(x, y), p)
    ensures Xor(x, Xor(y, p)) == Xor(Xor(x, y), p)
  {
  }

  lemma XorCancels(x: bv32, y: bv32, p: bv32)
    ensures Xor(Xor(x, p), Xor(y, p)) == Xor(x, y)
  {
    hide Xor;
    XorMovesOut(Xor(x, p), y, p);
    XorMovesOut(x, y, p);
    XorTwice(p, Xor(x, y));
    XorCommutes(Xor(x, y), p);
    XorCommutes(Xor(Xor(x, y), p), p);
  }

  lemma XorCommutes(a: bv32, b: bv32)
    ensures Xor(a, b) == Xor(b, a)
  {
  }

  lemma XorTwice(r: bv32, w: bv32)
    ensures Xor(r, Xor(r, w)) == w
  {
  }

  lemma BitStepLinear(a: bv32, b: bv32)
    ensures BitStep(Xor(a, b)) == Xor(BitStep(a), BitStep(b))
  {
    hide Odd, Half, Xor;
    HalfLinear(a, b);
    OddLinear(a, b);
    XorCancels(Half(a), Half(b), POLY);
    XorMovesOut(Half(a), Half(b), POLY);
  }

  lemma {:induction false} BitStepsLinear(a: bv32, b: bv32, n: nat)
    ensures BitSteps(Xor(a, b), n) == Xor(BitSteps(a, n), BitSteps(b, n))
    decreases n
  {
    hide BitStep, Xor;
    if n > 0 {
      BitStepLinear(a, b);
      BitStepsLinear(BitStep(a), BitStep(b), n - 1);
    }
  }

  /** The polynomial's top bit tells which way a step went. */
  function BitUnstep(c: bv32): bv32 {
    if c >> 31 == 1 then ((c ^ POLY) << 1) | 1 else c << 1
  }

  lemma BitStepInvertible(c: bv32)
    ensures BitUnstep(BitStep(c)) == c
  {
  }

  lemma {:induction false} BitStepsInjective(a: bv32, b: bv32, n: nat)
    requires BitSteps(a, n) == BitSteps(b, n)
    ensures a == b
    decreases n
  {
    hide BitStep, BitUnstep;
    if n > 0 {
      BitStepsInjective(BitStep(a), BitStep(b), n - 1);
      BitStepInvertible(a);
      BitStepInvertible(b);
    }
  }

  lemma {:induction false} BitStepsAdd(c: bv32, m: nat, n: nat)
    ensures BitSteps(c, m + n) == BitSteps(BitSteps(c, m), n)
    decreases m
  {
    if m > 0 { BitStepsAdd(BitStep(c), m - 1, n); }
  }

  // ---------------------------------------------------------------------------------------------
  // Four bytes are one 32-bit word
  // ---------------------------------------------------------------------------------------------

  /** Three bytes moved up by `k` bits. */
  function Up(w: bv32, k: bv5): bv32 { w << k }

  /** While the low bit is zero a step is a plain shift. */
  lemma EvenStep(w: bv32, k: bv5)
    requires w >> 24 == 0 && 1 <= k <= 8
    ensures BitStep(Up(w, k)) == Up(w, k - 1)
  {
  }

  lemma ShiftsOut(w: bv32)
    requires w >> 24 == 0
    ensures BitSteps(Up(w, 8), 8) == w
  {
    hide BitStep, Up;
    EvenStep(w, 8);
    EvenStep(w, 7);
    EvenStep(w, 6);
    EvenStep(w, 5);
    EvenStep(w, 4);
    EvenStep(w, 3);
    EvenStep(w, 2);
    EvenStep(w, 1);
    assert Up(w, 0) == w by { UpZero(w); }
    EightSteps(Up(w, 8));
  }

  lemma UpZero(w: bv32)
    ensures Up(w, 0) == w
  {
  }

  lemma EightSteps(c: bv32)
    ensures BitSteps(c, 8) ==
      BitStep(BitStep(BitStep(BitStep(BitStep(BitStep(BitStep(BitStep(c))))))))
  {
    hide BitStep;
    BitStepsAdd(c, 4, 4);
  }

  /** Feeding `d` after `n` steps is feeding, before them, the word that `n` steps turn into `d`. */
  lemma FeedEarlier(c: bv32, d: bv32, w: bv32, n: nat)
    requires BitSteps(w, n) == d
    ensures BitSteps(Xor(BitSteps(c, n), d), 8) == BitSteps(Xor(c, w), n + 8)
  {
    hide BitSteps, Xor;
    BitStepsLinear(c, w, n);
    BitStepsAdd(Xor(c, w), n, 8);
  }

  /** A byte one, two or three bytes up comes down in as many rounds of eight steps. */
  lemma ComesDown(b: bv32)
    requires b >> 8 == 0
    ensures BitSteps(Up(b, 8), 8) == BitSteps(Up(b, 16), 16) == BitSteps(Up(b, 24), 24) == b
  {
    UpInRounds(b);
    hide BitStep, Up;
    ShiftsOut(b);
    ShiftsOut(Up(b, 8));
    ShiftsOut(Up(b, 16));
    BitStepsAdd(Up(b, 16), 8, 8);
    BitStepsAdd(Up(b, 24), 8, 16);
  }

  lemma UpInRounds(b: bv32)
    requires b >> 8 == 0
    ensures Up(Up(b, 8), 8) == Up(b, 16) && Up(Up(b, 16), 8) == Up(b, 24)
    ensures b >> 24 == 0 && Up(b, 8) >> 24 == 0 && Up(b, 16) >> 24 == 0
  {
  }

  function Word(a: bv8, b: bv8, c: bv8, d: bv8): bv32 {
    Xor(Xor(Xor(Widen(a), Up(Widen(b), 8)), Up(Widen(c), 16)), Up(Widen(d), 24))
  }

  /** Four bytes through the register are 32 steps of the word they spell, little-endian. */
  lemma FourBytes(r: bv32, a: bv8, b: bv8, c: bv8, d: bv8)
    ensures Register(r, [a, b, c, d]) == BitSteps(Xor(r, Word(a, b, c, d)), 32)
  {
    hide BitSteps, Xor, Up, Widen;
    ComesDown(Widen(b));
    ComesDown(Widen(c));
    ComesDown(Widen(d));
    var x := Xor(r, Widen(a));
    var y := Xor(x, Up(Widen(b), 8));
    var z := Xor(y, Up(Widen(c), 16));
    FeedEarlier(x, Widen(b), Up(Widen(b), 8), 8);
    FeedEarlier(y, Widen(c), Up(Widen(c), 16), 16);
    FeedEarlier(z, Widen(d), Up(Widen(d), 24), 24);
    XorAssociates(r, Widen(a), Up(Widen(b), 8), Up(Widen(c), 16), Up(Widen(d), 24));
    FourByteSteps(r, a, b, c, d);
  }

  lemma XorAssociates(r: bv32, a: bv32, b: bv32, c: bv32, d: bv32)
    ensures Xor(Xor(Xor(Xor(r, a), b), c), d) == Xor(r, Xor(Xor(Xor(a, b), c), d))
  {
  }

  lemma RegisterOne(c: bv32, d: bv8)
    ensures Register(c, [d]) == ByteStep(c, d)
  {
    assert [d][1..] == [];
  }

  lemma FourByteSteps(r: bv32, a: bv8, b: bv8, c: bv8, d: bv8)
    ensures Register(r, [a, b, c, d]) == ByteStep(ByteStep(ByteStep(ByteStep(r, a), b), c), d)
  {
    hide ByteStep;
    assert [a, b, c, d][1..] == [b, c, d] && [b, c, d][1..] == [c, d] && [c, d][1..] == [d] && [d][1..] == [];
    assert Register(r, [a, b, c, d]) == Register(ByteStep(r, a), [b, c, d]);
    assert Register(ByteStep(r, a), [b, c, d]) == Register(ByteStep(ByteStep(r, a), b), [c, d]);
    assert Register(ByteStep(ByteStep(r, a), b), [c, d]) == Register(ByteStep(ByteStep(ByteStep(r, a), b), c), [d]);
    RegisterOne(ByteStep(ByteStep(ByteStep(r, a), b), c), d);
  }

  // ---------------------------------------------------------------------------------------------
  // The residue
  // ---------------------------------------------------------------------------------------------

  lemma Round1()
    ensures BitSteps(0xFFFF_FFFF, 8) == 0x2DFD_1072
  {
    assert BitStep(0xFFFF_FFFF) == 0x9247_7CDF;
    assert BitStep(0x9247_7CDF) == 0xA49B_3D4F;
    assert BitStep(0xA49B_3D4F) == 0xBFF5_1D87;
    assert BitStep(0xBFF5_1D87) == 0xB242_0DE3;
    assert BitStep(0xB242_0DE3) == 0xB499_85D1;
    assert BitStep(0xB499_85D1) == 0xB7F4_41C8;
    assert BitStep(0xB7F4_41C8) == 0x5BFA_20E4;
    assert BitStep(0x5BFA_20E4) == 0x2DFD_1072;
    EightSteps(0xFFFF_FFFF);
  }

  lemma Round2()
    ensures BitSteps(0x2DFD_1072, 8) == 0xBE26_ED00
  {
    assert BitStep(0x2DFD_1072) == 0x16FE_8839;
    assert BitStep(0x16FE_8839) == 0xE6C7_C73C;
    assert BitStep(0xE6C7_C73C) == 0x7363_E39E;
    assert BitStep(0x7363_E39E) == 0x39B1_F1CF;
    assert BitStep(0x39B1_F1CF) == 0xF160_7BC7;
    assert BitStep(0xF160_7BC7) == 0x9508_BEC3;
    assert BitStep(0x9508_BEC3) == 0xA73C_DC41;
    assert BitStep(0xA73C_DC41) == 0xBE26_ED00;
    EightSteps(0x2DFD_1072);
  }

  lemma Round3()
    ensures BitSteps(0xBE26_ED00, 8) == 0x00BE_26ED
  {
    assert BitStep(0xBE26_ED00) == 0x5F13_7680;
    assert BitStep(0x5F13_7680) == 0x2F89_BB40;
    assert BitStep(0x2F89_BB40) == 0x17C4_DDA0;
    assert BitStep(0x17C4_DDA0) == 0x0BE2_6ED0;
    assert BitStep(0x0BE2_6ED0) == 0x05F1_3768;
    assert BitStep(0x05F1_3768) == 0x02F8_9BB4;
    assert BitStep(0x02F8_9BB4) == 0x017C_4DDA;
    assert BitStep(0x017C_4DDA) == 0x00BE_26ED;
    EightSteps(0xBE26_ED00);
  }

  lemma Round4()
    ensures BitSteps(0x00BE_26ED, 8) == 0xDEBB_20E3
  {
    assert BitStep(0x00BE_26ED) == 0xEDE7_9056;
    assert BitStep(0xEDE7_9056) == 0x76F3_C82B;
    assert BitStep(0x76F3_C82B) == 0xD6C1_6735;
    assert BitStep(0xD6C1_6735) == 0x86D8_30BA;
    assert BitStep(0x86D8_30BA) == 0x436C_185D;
    assert BitStep(0x436C_185D) == 0xCC0E_8F0E;
    assert BitStep(0xCC0E_8F0E) == 0x6607_4787;
    assert BitStep(0x6607_4787) == 0xDEBB_20E3;
    EightSteps(0x00BE_26ED);
  }

  /** 32 steps take all ones to the residue. */
  lemma OnesBecomeResidue()
    ensures BitSteps(0xFFFF_FFFF, 32) == RESIDUE
  {
    hide BitStep;
    Round1();
    Round2();
    Round3();
    Round4();
    BitStepsAdd(0xFFFF_FFFF, 8, 8);
    BitStepsAdd(0xFFFF_FFFF, 16, 8);
    BitStepsAdd(0xFFFF_FFFF, 24, 8);
  }

  lemma {:induction false} RegisterAppend(c: bv32, a: seq<bv8>, b: seq<bv8>)
    ensures Register(c, a + b) == Register(Register(c, a), b)
    decreases |a|
  {
    hide ByteStep;
    if a == [] {
      assert a + b == b;
    } else {
      RegisterAppend(ByteStep(c, a[0]), a[1..], b);
      assert (a + b)[1..] == a[1..] + b && (a + b)[0] == a[0];
    }
  }

  lemma XorOnes(r: bv32)
    ensures Xor(r, 0xFFFF_FFFF) == Complement(r) && Xor(r, Complement(r)) == 0xFFFF_FFFF
  {
  }

  /** A word fills `r` up to all ones exactly when it is the complement of `r`. */
  lemma OnesIffComplement(r: bv32, w: bv32)
    ensures Xor(r, w) == 0xFFFF_FFFF <==> w == Complement(r)
  {
    hide Xor, Complement;
    XorTwice(r, w);
    XorOnes(r);
  }

  lemma LowByte(a: bv8, b: bv8, c: bv8, d: bv8)
    ensures (Word(a, b, c, d) & 0xFF) as bv8 == a
  {
  }

  lemma SecondByte(a: bv8, b: bv8, c: bv8, d: bv8)
    ensures ((Word(a, b, c, d) >> 8) & 0xFF) as bv8 == b
  {
  }

  lemma ThirdByte(a: bv8, b: bv8, c: bv8, d: bv8)
    ensures ((Word(a, b, c, d) >> 16) & 0xFF) as bv8 == c
  {
  }

  lemma HighByte(a: bv8, b: bv8, c: bv8, d: bv8)
    ensures (Word(a, b, c, d) >> 24) as bv8 == d
  {
  }

  lemma SpellOut(w: bv32)
    ensures Word((w & 0xFF) as bv8, ((w >> 8) & 0xFF) as bv8, ((w >> 16) & 0xFF) as bv8, (w >> 24) as bv8) == w
  {
  }

  lemma LittleEndianSpells(w: bv32, a: bv8, b: bv8, c: bv8, d: bv8)
    ensures LittleEndian(w) == [a, b, c, d] <==> Word(a, b, c, d) == w
  {
    hide Word;
    LowByte(a, b, c, d);
    SecondByte(a, b, c, d);
    ThirdByte(a, b, c, d);
    HighByte(a, b, c, d);
    SpellOut(w);
  }

  /** Four more bytes take the register `r` to the residue exactly when they spell its complement. */
  lemma ResidueIffSpelt(r: bv32, a: bv8, b: bv8, c: bv8, d: bv8)
    ensures Register(r, [a, b, c, d]) == RESIDUE <==> [a, b, c, d] == LittleEndian(Complement(r))
  {
    hide Word, Xor, BitSteps, LittleEndian, Register, Complement;
    FourBytes(r, a, b, c, d);
    OnesIffComplement(r, Word(a, b, c, d));
    LittleEndianSpells(Complement(r), a, b, c, d);
    OnesBecomeResidue();
    if BitSteps(Xor(r, Word(a, b, c, d)), 32) == RESIDUE {
      BitStepsInjective(Xor(r, Word(a, b, c, d)), 0xFFFF_FFFF, 32);
    }
  }

  /** The running register reads the residue exactly when the last four bytes are the frame check sequence of
      the bytes before them. */
  lemma ResidueIffFcs(bytes: seq<bv8>)
    requires |bytes| >= 4
    ensures Register(INIT, bytes) == RESIDUE <==> bytes[|bytes| - 4..] == Fcs(bytes[..|bytes| - 4])
  {
    hide Register, LittleEndian, Complement, RESIDUE, INIT;
    var front, last := bytes[..|bytes| - 4], bytes[|bytes| - 4..];
    assert bytes == front + last;
    RegisterAppend(INIT, front, last);
    ResidueIffLastFour(Register(INIT, front), last);
  }

  lemma ResidueIffLastFour(r: bv32, last: seq<bv8>)
    requires |last| == 4
    ensures Register(r, last) == RESIDUE <==> last == LittleEndian(Complement(r))
  {
    hide Register, LittleEndian, Complement, RESIDUE;
    assert last == [last[0], last[1], last[2], last[3]];
    ResidueIffSpelt(r, last[0], last[1], last[2], last[3]);
  }
}
