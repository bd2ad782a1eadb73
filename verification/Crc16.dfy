/** The CRC-16 of the antenna link: bit-reversed polynomial 0x8408, initial value and final
    inversion 0xFFFF (the FCS of RFC 1662, Appendix C.2). */
module Crc16 {
  import opened LinearRegister

  function BitStep(crc: bv16): bv16 {
    if crc & 1 == 1 then (crc >> 1) ^ 0x8408 else crc >> 1
  }

  function Unit(j: nat): bv16 {
    match j
    case 0 => 0x1 case 1 => 0x2 case 2 => 0x4 case 3 => 0x8
    case 4 => 0x10 case 5 => 0x20 case 6 => 0x40 case 7 => 0x80
    case 8 => 0x100 case 9 => 0x200 case 10 => 0x400 case 11 => 0x800
    case 12 => 0x1000 case 13 => 0x2000 case 14 => 0x4000 case 15 => 0x8000
    case _ => 0
  }

  function Xor(a: bv16, b: bv16): bv16 { a ^ b }

  function Low(a: bv16): bool { a & 1 == 1 }

  function Wide(b: Byte): bv16 { b as bv16 }

  const REG: Register<bv16> := Register(16, 0, Xor, BitStep, Unit, Low, Wide)

  function Crc(s: seq<Byte>): bv16 { Feed(REG, 0xFFFF, s) ^ 0xFFFF }

  // ---- the laws of this register ----

  lemma ShiftXor(x: bv16, y: bv16)
    ensures (x ^ y) >> 1 == (x >> 1) ^ (y >> 1) && (x ^ y) & 1 == (x & 1) ^ (y & 1)
  {
  }

  lemma LowBit(x: bv16)
    ensures x & 1 == 0 || x & 1 == 1
  {
  }

  lemma XorPoly(a: bv16, b: bv16, p: bv16)
    ensures (a ^ p) ^ (b ^ p) == a ^ b && (a ^ p) ^ b == (a ^ b) ^ p && a ^ (b ^ p) == (a ^ b) ^ p
  {
  }

  lemma BitStepLinear(x: bv16, y: bv16)
    ensures BitStep(Xor(x, y)) == Xor(BitStep(x), BitStep(y))
  {
    ShiftXor(x, y);
    LowBit(x);
    LowBit(y);
    XorPoly(x >> 1, y >> 1, 0x8408);
  }

  lemma BitStepInjective(x: bv16, y: bv16)
    requires BitStep(x) == BitStep(y)
    ensures x == y
  {
  }

  lemma XorCommutes(a: bv16, b: bv16)
    ensures Xor(a, b) == Xor(b, a)
  {
  }

  lemma XorAssociates(a: bv16, b: bv16, c: bv16)
    ensures Xor(Xor(a, b), c) == Xor(a, Xor(b, c))
  {
  }

  lemma XorMedial(p: bv16, q: bv16, a: bv16, b: bv16)
    ensures Xor(Xor(p, q), Xor(a, b)) == Xor(Xor(p, a), Xor(q, b))
  {
    hide Xor;
    XorAssociates(p, q, Xor(a, b));
    XorAssociates(q, a, b);
    XorCommutes(q, a);
    XorAssociates(a, q, b);
    XorAssociates(p, a, Xor(q, b));
  }

  lemma XorNeutral(a: bv16)
    ensures a ^ 0 == a && 0 ^ a == a && a ^ a == 0
  {
  }

  lemma RegXorIs(a: bv16, b: bv16)
    ensures REG.xor(a, b) == Xor(a, b)
  {
  }

  lemma RegMedial(p: bv16, q: bv16, a: bv16, b: bv16)
    ensures Medial(REG, p, q, a, b)
  {
    hide Xor;
    RegXorIs(p, q);
    RegXorIs(a, b);
    RegXorIs(p, a);
    RegXorIs(q, b);
    RegXorIs(Xor(p, q), Xor(a, b));
    RegXorIs(Xor(p, a), Xor(q, b));
    XorMedial(p, q, a, b);
  }

  lemma RegXor()
    ensures XorLaws(REG)
  {
    forall p, q, a, b ensures Medial(REG, p, q, a, b) { RegMedial(p, q, a, b); }
    forall a ensures Neutral(REG, a) { XorNeutral(a); }
  }

  lemma RegLinear(a: bv16, b: bv16)
    ensures LinearAt(REG, a, b)
  {
    hide Xor, BitStep;
    RegXorIs(a, b);
    RegXorIs(BitStep(a), BitStep(b));
    BitStepLinear(a, b);
  }

  lemma RegInjective(a: bv16, b: bv16)
    ensures InjectiveAt(REG, a, b)
  {
    if BitStep(a) == BitStep(b) { BitStepInjective(a, b); }
  }

  lemma RegStep()
    ensures Linear(REG) && Injective(REG) && Shifts(REG)
  {
    forall a, b ensures LinearAt(REG, a, b) { RegLinear(a, b); }
    forall a, b ensures InjectiveAt(REG, a, b) { RegInjective(a, b); }
    forall j: nat ensures ShiftsAt(REG, j) { }
  }

  lemma RegLow()
    ensures LowLaws(REG)
  {
    forall a, b ensures LowAt(REG, a, b) {
      ShiftXor(a, b);
      LowBit(a);
      LowBit(b);
    }
    forall j: nat ensures LowUnit(REG, j) { }
  }

  lemma ByteFromUnits(b: Byte)
    ensures ((((((((0 as bv16 ^ (if b & 0x1 == 0x1 then 0x1 else 0)) ^ (if b & 0x2 == 0x2 then 0x2 else 0))
            ^ (if b & 0x4 == 0x4 then 0x4 else 0)) ^ (if b & 0x8 == 0x8 then 0x8 else 0))
            ^ (if b & 0x10 == 0x10 then 0x10 else 0)) ^ (if b & 0x20 == 0x20 then 0x20 else 0))
            ^ (if b & 0x40 == 0x40 then 0x40 else 0)) ^ (if b & 0x80 == 0x80 then 0x80 else 0)) == b as bv16
  {
  }

  /** The same with the register's own unit words. */
  lemma ByteFromWord(b: Byte, t: seq<bool>)
    requires t == ByteBits(b)
    ensures Xor(Xor(Xor(Xor(Xor(Xor(Xor(Xor(0,
              UnitIf(REG, t[0], 0)), UnitIf(REG, t[1], 1)), UnitIf(REG, t[2], 2)), UnitIf(REG, t[3], 3)),
              UnitIf(REG, t[4], 4)), UnitIf(REG, t[5], 5)), UnitIf(REG, t[6], 6)), UnitIf(REG, t[7], 7)) == Wide(b)
  {
    ByteFromUnits(b);
  }

  lemma RegWideAt(b: Byte)
    ensures WideAt(REG, b)
  {
    hide Xor, Unit, UnitIf, ByteBits;
    var t := ByteBits(b);
    EightBits(REG, t);
    ByteFromWord(b, t);
    var x0 := Xor(0, UnitIf(REG, t[0], 0));
    var x1 := Xor(x0, UnitIf(REG, t[1], 1));
    var x2 := Xor(x1, UnitIf(REG, t[2], 2));
    var x3 := Xor(x2, UnitIf(REG, t[3], 3));
    var x4 := Xor(x3, UnitIf(REG, t[4], 4));
    var x5 := Xor(x4, UnitIf(REG, t[5], 5));
    var x6 := Xor(x5, UnitIf(REG, t[6], 6));
    RegXorIs(0, UnitIf(REG, t[0], 0));
    RegXorIs(x0, UnitIf(REG, t[1], 1));
    RegXorIs(x1, UnitIf(REG, t[2], 2));
    RegXorIs(x2, UnitIf(REG, t[3], 3));
    RegXorIs(x3, UnitIf(REG, t[4], 4));
    RegXorIs(x4, UnitIf(REG, t[5], 5));
    RegXorIs(x5, UnitIf(REG, t[6], 6));
    RegXorIs(x6, UnitIf(REG, t[7], 7));
  }

  lemma RegWide()
    ensures WideLaw(REG)
  {
    forall b: Byte ensures WideAt(REG, b) { RegWideAt(b); }
  }

  lemma RegLaws()
    ensures Laws(REG)
  {
    RegXor();
    RegStep();
    RegLow();
    RegWide();
  }

  // ---- the computation ----

  /** The inner loop: eight bit steps. */
  method EightSteps(start: bv16) returns (crc: bv16)
    ensures crc == Steps(REG, Width(), start)
  {
    crc := start;
    var j := 0;
    while j < 8
      invariant 0 <= j <= 8 && crc == Steps(REG, j, start)
    {
      assert Steps(REG, j + 1, start) == BitStep(crc);
      if crc & 1 == 1 { crc := (crc >> 1) ^ 0x8408; } else { crc := crc >> 1; }
      j := j + 1;
    }
  }

  /** The loop over the bytes of a buffer; the length is one byte wide. */
  method Calculate(s: array<Byte>, len: nat, init: bv16) returns (crc: bv16)
    requires len <= s.Length && len < 256
    ensures crc == Feed(REG, init, s[..len]) ^ 0xFFFF
  {
    crc := init;
    var i := 0;
    while i < len
      invariant 0 <= i <= len && crc == Feed(REG, init, s[..i])
    {
      assert s[..i+1][..i] == s[..i];
      assert Feed(REG, init, s[..i+1]) == Steps(REG, Width(), Xor(crc, Wide(s[i])));
      crc := EightSteps(Xor(crc, Wide(s[i])));
      i := i + 1;
    }
    crc := crc ^ 0xFFFF;
  }

  /** The computation as both sides of the link use it, from the initial value 0xFFFF. */
  method CalculateCheck(s: array<Byte>, len: nat) returns (crc: bv16)
    requires len <= s.Length && len < 256
    ensures crc == Crc(s[..len])
  {
    crc := Calculate(s, len, 0xFFFF);
  }

  // ---- by value ----

  /** One byte put into the register and eight steps taken. */
  function Round(crc: bv16, b: Byte): bv16 { Eight(Xor(crc, Wide(b))) }

  /** Eight bit steps, written out. */
  function Eight(x: bv16): bv16 {
    BitStep(BitStep(BitStep(BitStep(BitStep(BitStep(BitStep(BitStep(x))))))))
  }

  lemma FeedRound(x: bv16, s: seq<Byte>, b: Byte)
    ensures Feed(REG, x, s + [b]) == Round(Feed(REG, x, s), b)
  {
    assert (s + [b])[..|s|] == s;
    RegXorIs(Feed(REG, x, s), Wide(b));
    EightIsSteps(Xor(Feed(REG, x, s), Wide(b)));
  }

  lemma EightIsSteps(c0: bv16)
    ensures Steps(REG, Width(), c0) == Eight(c0)
  {
    hide BitStep;
    var c1 := BitStep(c0);
    var c2 := BitStep(c1);
    var c3 := BitStep(c2);
    var c4 := BitStep(c3);
    var c5 := BitStep(c4);
    var c6 := BitStep(c5);
    var c7 := BitStep(c6);
    EightAlong(REG, [c0, c1, c2, c3, c4, c5, c6, c7, BitStep(c7)]);
  }

  // ---- error detection ----

  lemma InvertInjective(x: bv16, y: bv16)
    requires x ^ 0xFFFF == y ^ 0xFFFF
    ensures x == y
  {
  }

  /** Every burst of at most sixteen wrong bits changes the check, wherever it lies. */
  lemma BurstsAreDetected(a: seq<Byte>, b: seq<Byte>, i: nat)
    requires |a| == |b| && Burst(XorBits(Bits(a), Bits(b)), i, 16)
    ensures Crc(a) != Crc(b)
  {
    RegLaws();
    BurstDetected(REG, 0xFFFF, a, b, i);
    if Crc(a) == Crc(b) { InvertInjective(Feed(REG, 0xFFFF, a), Feed(REG, 0xFFFF, b)); }
  }

  /** Messages that differ only within two adjacent bytes never have the same check. */
  lemma AdjacentBytesAreDetected(a: seq<Byte>, b: seq<Byte>, k: nat)
    requires |a| == |b| && a != b && forall j | 0 <= j < |a| && j != k && j != k + 1 :: a[j] == b[j]
    ensures Crc(a) != Crc(b)
  {
    RegLaws();
    NeighboursDetected(REG, 0xFFFF, a, b, k, 2);
    if Crc(a) == Crc(b) { InvertInjective(Feed(REG, 0xFFFF, a), Feed(REG, 0xFFFF, b)); }
  }
}
