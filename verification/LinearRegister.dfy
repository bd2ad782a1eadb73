/** Cyclic redundancy checks in general: a shift register whose step commutes with exclusive or,
    fed bit by bit or byte by byte.  Both checks of this project are instances. */
module LinearRegister {

  type Byte = bv8

  /** The operations of a register of some width; unit(j) has only bit j set, low is its bit 0,
      wide puts a byte into the low eight bits. */
  datatype Register<!T> =
    Register(width: nat, zero: T, xor: (T, T) -> T, step: T -> T, unit: nat -> T, low: T -> bool, wide: Byte -> T)

  predicate Medial<T(==)>(r: Register<T>, p: T, q: T, a: T, b: T) {
    r.xor(r.xor(p, q), r.xor(a, b)) == r.xor(r.xor(p, a), r.xor(q, b))
  }

  predicate Neutral<T(==)>(r: Register<T>, a: T) {
    r.xor(a, r.zero) == a && r.xor(r.zero, a) == a && r.xor(a, a) == r.zero
  }

  predicate LinearAt<T(==)>(r: Register<T>, a: T, b: T) {
    r.step(r.xor(a, b)) == r.xor(r.step(a), r.step(b))
  }

  predicate InjectiveAt<T(==)>(r: Register<T>, a: T, b: T) { r.step(a) == r.step(b) ==> a == b }

  predicate ShiftsAt<T(==)>(r: Register<T>, j: nat) { 0 < j < r.width ==> r.step(r.unit(j)) == r.unit(j - 1) }

  predicate LowAt<T>(r: Register<T>, a: T, b: T) { r.low(r.xor(a, b)) == (r.low(a) != r.low(b)) }

  predicate LowUnit<T>(r: Register<T>, j: nat) { j < r.width ==> r.low(r.unit(j)) == (j == 0) }

  predicate WideAt<T(==)>(r: Register<T>, b: Byte) { r.wide(b) == Word(r, ByteBits(b)) }

  ghost predicate XorLaws<T(!new)>(r: Register<T>) {
    (forall p, q, a, b :: Medial(r, p, q, a, b)) && (forall a :: Neutral(r, a))
  }

  ghost predicate Linear<T(!new)>(r: Register<T>) {
    r.step(r.zero) == r.zero && forall a, b :: LinearAt(r, a, b)
  }

  ghost predicate Injective<T(!new)>(r: Register<T>) { forall a, b :: InjectiveAt(r, a, b) }

  ghost predicate Shifts<T(!new)>(r: Register<T>) { forall j: nat :: ShiftsAt(r, j) }

  ghost predicate LowLaws<T(!new)>(r: Register<T>) {
    !r.low(r.zero) && (forall a, b :: LowAt(r, a, b)) && (forall j: nat :: LowUnit(r, j))
  }

  ghost predicate WideLaw<T(!new)>(r: Register<T>) { forall b: Byte :: WideAt(r, b) }

  ghost predicate Laws<T(!new)>(r: Register<T>) {
    8 <= r.width && XorLaws(r) && Linear(r) && Injective(r) && Shifts(r) && LowLaws(r) && WideLaw(r)
  }

  // ---- steps ----

  function Steps<T>(r: Register<T>, n: nat, x: T): T {
    if n == 0 then x else r.step(Steps(r, n - 1, x))
  }

  lemma {:induction false} StepsLinear<T(!new)>(r: Register<T>, n: nat, x: T, y: T)
    requires Linear(r)
    ensures Steps(r, n, r.xor(x, y)) == r.xor(Steps(r, n, x), Steps(r, n, y))
  {
    if n > 0 {
      StepsLinear(r, n - 1, x, y);
      assert LinearAt(r, Steps(r, n - 1, x), Steps(r, n - 1, y));
    }
  }

  lemma {:induction false} StepsInjective<T(!new)>(r: Register<T>, n: nat, x: T, y: T)
    requires Injective(r) && Steps(r, n, x) == Steps(r, n, y)
    ensures x == y
  {
    if n > 0 {
      assert InjectiveAt(r, Steps(r, n - 1, x), Steps(r, n - 1, y));
      StepsInjective(r, n - 1, x, y);
    }
  }

  lemma {:induction false} StepsAdd<T>(r: Register<T>, m: nat, n: nat, x: T)
    ensures Steps(r, m + n, x) == Steps(r, m, Steps(r, n, x))
  {
    if m > 0 { StepsAdd(r, m - 1, n, x); }
  }

  lemma {:induction false} StepsZero<T(!new)>(r: Register<T>, n: nat)
    requires Linear(r)
    ensures Steps(r, n, r.zero) == r.zero
  {
    if n > 0 { StepsZero(r, n - 1); }
  }

  lemma StepsNotZero<T(!new)>(r: Register<T>, n: nat, x: T)
    requires Linear(r) && Injective(r) && x != r.zero
    ensures Steps(r, n, x) != r.zero
  {
    StepsZero(r, n);
    if Steps(r, n, x) == r.zero { StepsInjective(r, n, x, r.zero); }
  }

  lemma {:induction false} StepsUnit<T(!new)>(r: Register<T>, j: nat)
    requires j < r.width && Shifts(r)
    ensures Steps(r, j, r.unit(j)) == r.unit(0)
  {
    if j > 0 {
      assert ShiftsAt(r, j);
      StepsAdd(r, j - 1, 1, r.unit(j));
      assert Steps(r, 1, r.unit(j)) == r.step(Steps(r, 0, r.unit(j)));
      StepsUnit(r, j - 1);
    }
  }

  // ---- feeding bits ----

  function UnitIf<T>(r: Register<T>, c: bool, j: nat): T { if c then r.unit(j) else r.zero }

  function FeedBits<T>(r: Register<T>, x: T, bits: seq<bool>): T {
    if bits == [] then x else r.step(r.xor(FeedBits(r, x, bits[..|bits|-1]), UnitIf(r, bits[|bits|-1], 0)))
  }

  lemma {:induction false} FeedBitsSplit<T>(r: Register<T>, x: T, a: seq<bool>, b: seq<bool>)
    ensures FeedBits(r, x, a + b) == FeedBits(r, FeedBits(r, x, a), b)
    decreases |b|
  {
    if b == [] {
      assert a + b == a;
    } else {
      var n := |b| - 1;
      assert (a + b)[..|a + b| - 1] == a + b[..n] && (a + b)[|a + b| - 1] == b[n];
      FeedBitsSplit(r, x, a, b[..n]);
    }
  }

  function XorBits(a: seq<bool>, b: seq<bool>): seq<bool>
    requires |a| == |b|
  {
    seq(|a|, i requires 0 <= i < |a| => a[i] != b[i])
  }

  /** Registers of two messages differ by the register of their difference. */
  lemma {:induction false} FeedBitsLinear<T(!new)>(r: Register<T>, x: T, y: T, a: seq<bool>, b: seq<bool>)
    requires |a| == |b| && XorLaws(r) && Linear(r)
    ensures FeedBits(r, r.xor(x, y), XorBits(a, b)) == r.xor(FeedBits(r, x, a), FeedBits(r, y, b))
    decreases |a|
  {
    if a != [] {
      var n := |a| - 1;
      var e := XorBits(a, b);
      assert e[..n] == XorBits(a[..n], b[..n]) && e[n] == (a[n] != b[n]);
      FeedBitsLinear(r, x, y, a[..n], b[..n]);
      var p, q := FeedBits(r, x, a[..n]), FeedBits(r, y, b[..n]);
      var u, v := UnitIf(r, a[n], 0), UnitIf(r, b[n], 0);
      assert Neutral(r, r.zero) && Neutral(r, r.unit(0));
      assert UnitIf(r, e[n], 0) == r.xor(u, v);
      assert Medial(r, p, q, u, v);
      assert LinearAt(r, r.xor(p, u), r.xor(q, v));
    }
  }

  lemma {:induction false} FeedZeros<T(!new)>(r: Register<T>, x: T, bits: seq<bool>)
    requires XorLaws(r) && forall i | 0 <= i < |bits| :: !bits[i]
    ensures FeedBits(r, x, bits) == Steps(r, |bits|, x)
    decreases |bits|
  {
    if bits != [] {
      FeedZeros(r, x, bits[..|bits|-1]);
      assert Neutral(r, FeedBits(r, x, bits[..|bits|-1]));
    }
  }

  // ---- at most a register's width of bits ----

  /** Bits as a word, first bit lowest. */
  function Word<T>(r: Register<T>, bits: seq<bool>): T {
    if bits == [] then r.zero else r.xor(Word(r, bits[..|bits|-1]), UnitIf(r, bits[|bits|-1], |bits| - 1))
  }

  /** The word of eight bits, written out. */
  lemma EightBits<T>(r: Register<T>, t: seq<bool>)
    requires |t| == 8
    ensures Word(r, t) ==
            r.xor(r.xor(r.xor(r.xor(r.xor(r.xor(r.xor(r.xor(r.zero,
              UnitIf(r, t[0], 0)), UnitIf(r, t[1], 1)), UnitIf(r, t[2], 2)), UnitIf(r, t[3], 3)),
              UnitIf(r, t[4], 4)), UnitIf(r, t[5], 5)), UnitIf(r, t[6], 6)), UnitIf(r, t[7], 7))
  {
    assert t[..7][..6] == t[..6] && t[..6][..5] == t[..5] && t[..5][..4] == t[..4] && t[..4][..3] == t[..3];
    assert t[..3][..2] == t[..2] && t[..2][..1] == t[..1] && t[..1][..0] == [];
    assert Word(r, t[..1]) == r.xor(Word(r, []), UnitIf(r, t[0], 0));
    assert Word(r, t[..2]) == r.xor(Word(r, t[..1]), UnitIf(r, t[1], 1));
    assert Word(r, t[..3]) == r.xor(Word(r, t[..2]), UnitIf(r, t[2], 2));
    assert Word(r, t[..4]) == r.xor(Word(r, t[..3]), UnitIf(r, t[3], 3));
    assert Word(r, t[..5]) == r.xor(Word(r, t[..4]), UnitIf(r, t[4], 4));
    assert Word(r, t[..6]) == r.xor(Word(r, t[..5]), UnitIf(r, t[5], 5));
    assert Word(r, t[..7]) == r.xor(Word(r, t[..6]), UnitIf(r, t[6], 6));
  }

  lemma {:induction false} FeedBitsIsSteps<T(!new)>(r: Register<T>, bits: seq<bool>)
    requires |bits| <= r.width && XorLaws(r) && Linear(r) && Shifts(r)
    ensures FeedBits(r, r.zero, bits) == Steps(r, |bits|, Word(r, bits))
    decreases |bits|
  {
    if bits != [] {
      var n := |bits| - 1;
      FeedBitsIsSteps(r, bits[..n]);
      StepsUnit(r, n);
      StepsZero(r, n);
      StepsLinear(r, n, Word(r, bits[..n]), UnitIf(r, bits[n], n));
      assert Steps(r, n, UnitIf(r, bits[n], n)) == UnitIf(r, bits[n], 0);
    }
  }

  lemma {:induction false} WordIsOdd<T(!new)>(r: Register<T>, bits: seq<bool>)
    requires 1 <= |bits| <= r.width && bits[0] && LowLaws(r)
    ensures r.low(Word(r, bits))
    decreases |bits|
  {
    var n := |bits| - 1;
    assert LowAt(r, Word(r, bits[..n]), UnitIf(r, bits[n], n)) && LowUnit(r, n);
    if n > 0 {
      WordIsOdd(r, bits[..n]);
    } else {
      assert Word(r, bits[..0]) == r.zero;
    }
  }

  // ---- bursts ----

  /** All differences lie in w consecutive bits, the first at place i. */
  predicate Burst(e: seq<bool>, i: nat, w: nat) {
    && i < |e| && e[i]
    && (forall j | 0 <= j < i :: !e[j])
    && (forall j | i + w <= j < |e| :: !e[j])
  }

  lemma BurstShows<T(!new)>(r: Register<T>, e: seq<bool>, i: nat)
    requires Laws(r) && Burst(e, i, r.width)
    ensures FeedBits(r, r.zero, e) != r.zero
  {
    var m := if i + r.width <= |e| then i + r.width else |e|;
    var a, w, z := e[..i], e[i..m], e[m..];
    assert e == (a + w) + z;
    FeedBitsSplit(r, r.zero, a + w, z);
    FeedBitsSplit(r, r.zero, a, w);
    FeedZeros(r, r.zero, a);
    StepsZero(r, i);
    FeedBitsIsSteps(r, w);
    WordIsOdd(r, w);
    StepsNotZero(r, |w|, Word(r, w));
    FeedZeros(r, FeedBits(r, r.zero, w), z);
    StepsNotZero(r, |z|, FeedBits(r, r.zero, w));
  }

  // ---- bytes ----

  function Width(): nat { 8 }

  /** Eight steps along a chain of values. */
  lemma EightAlong<T>(r: Register<T>, z: seq<T>)
    requires |z| == 9 && forall i | 0 <= i < 8 :: r.step(z[i]) == z[i+1]
    ensures Steps(r, Width(), z[0]) == z[8]
  {
    StepsAlong(r, z, 8);
  }

  lemma {:induction false} StepsAlong<T>(r: Register<T>, z: seq<T>, n: nat)
    requires n < |z| && forall i | 0 <= i < n :: r.step(z[i]) == z[i+1]
    ensures Steps(r, n, z[0]) == z[n]
  {
    if n > 0 { StepsAlong(r, z, n - 1); }
  }

  /** Eight steps of a value whose second part runs along a chain. */
  lemma EightInParts<T(!new)>(r: Register<T>, a: T, z: seq<T>)
    requires Linear(r) && |z| == 9 && forall i | 0 <= i < 8 :: r.step(z[i]) == z[i+1]
    ensures Steps(r, Width(), r.xor(a, z[0])) == r.xor(Steps(r, Width(), a), z[8])
  {
    EightAlong(r, z);
    StepsLinear(r, Width(), a, z[0]);
  }

  /** The register after feeding bytes. */
  function Feed<T>(r: Register<T>, x: T, s: seq<Byte>): T {
    if s == [] then x else Steps(r, Width(), r.xor(Feed(r, x, s[..|s|-1]), r.wide(s[|s|-1])))
  }

  lemma {:induction false} FeedSplit<T>(r: Register<T>, x: T, a: seq<Byte>, b: seq<Byte>)
    ensures Feed(r, x, a + b) == Feed(r, Feed(r, x, a), b)
    decreases |b|
  {
    if b == [] {
      assert a + b == a;
    } else {
      var n := |b| - 1;
      assert (a + b)[..|a + b| - 1] == a + b[..n] && (a + b)[|a + b| - 1] == b[n];
      FeedSplit(r, x, a, b[..n]);
    }
  }

  /** The bits of a byte in the order in which they are fed. */
  function ByteBits(b: Byte): (bits: seq<bool>)
    ensures |bits| == 8
  {
    [b & 0x1 == 0x1, b & 0x2 == 0x2, b & 0x4 == 0x4, b & 0x8 == 0x8,
     b & 0x10 == 0x10, b & 0x20 == 0x20, b & 0x40 == 0x40, b & 0x80 == 0x80]
  }

  function Bits(s: seq<Byte>): (bits: seq<bool>)
    ensures |bits| == 8 * |s|
  {
    if s == [] then [] else Bits(s[..|s|-1]) + ByteBits(s[|s|-1])
  }

  /** Feeding a byte at once or bit by bit is the same. */
  lemma ByteIsBits<T(!new)>(r: Register<T>, x: T, b: Byte)
    requires Laws(r)
    ensures FeedBits(r, x, ByteBits(b)) == Steps(r, Width(), r.xor(x, r.wide(b)))
  {
    var t := ByteBits(b);
    var zeros := seq(8, i => false);
    assert XorBits(zeros, t) == t;
    FeedBitsLinear(r, x, r.zero, zeros, t);
    FeedZeros(r, x, zeros);
    assert Neutral(r, x) && WideAt(r, b);
    FeedBitsIsSteps(r, t);
    StepsLinear(r, Width(), x, r.wide(b));
  }

  lemma {:induction false} BytesAreBits<T(!new)>(r: Register<T>, x: T, s: seq<Byte>)
    requires Laws(r)
    ensures Feed(r, x, s) == FeedBits(r, x, Bits(s))
    decreases |s|
  {
    if s != [] {
      var n := |s| - 1;
      BytesAreBits(r, x, s[..n]);
      FeedBitsSplit(r, x, Bits(s[..n]), ByteBits(s[n]));
      ByteIsBits(r, Feed(r, x, s[..n]), s[n]);
    }
  }

  /** Every burst error no longer than the register is detected, wherever it lies. */
  lemma BurstDetected<T(!new)>(r: Register<T>, x: T, a: seq<Byte>, b: seq<Byte>, i: nat)
    requires Laws(r) && |a| == |b| && Burst(XorBits(Bits(a), Bits(b)), i, r.width)
    ensures Feed(r, x, a) != Feed(r, x, b)
  {
    BytesAreBits(r, x, a);
    BytesAreBits(r, x, b);
    FeedBitsLinear(r, x, x, Bits(a), Bits(b));
    assert Neutral(r, x) && Neutral(r, FeedBits(r, x, Bits(a)));
    BurstShows(r, XorBits(Bits(a), Bits(b)), i);
  }

  // ---- differences in neighbouring bytes ----

  lemma {:induction false} BitsAt(s: seq<Byte>, k: nat)
    requires k < |s|
    ensures Bits(s)[8 * k..8 * k + 8] == ByteBits(s[k])
    decreases |s|
  {
    var n := |s| - 1;
    if k < n {
      BitsAt(s[..n], k);
      assert Bits(s)[8 * k..8 * k + 8] == Bits(s[..n])[8 * k..8 * k + 8];
    }
  }

  lemma ByteBitsInjective(a: Byte, b: Byte)
    requires ByteBits(a) == ByteBits(b)
    ensures a == b
  {
    var s, t := ByteBits(a), ByteBits(b);
    assert s[0] == t[0] && s[1] == t[1] && s[2] == t[2] && s[3] == t[3];
    assert s[4] == t[4] && s[5] == t[5] && s[6] == t[6] && s[7] == t[7];
    SameBits(a, b);
  }

  lemma SameBits(a: Byte, b: Byte)
    requires (a & 0x1 == 0x1) == (b & 0x1 == 0x1) && (a & 0x2 == 0x2) == (b & 0x2 == 0x2)
    requires (a & 0x4 == 0x4) == (b & 0x4 == 0x4) && (a & 0x8 == 0x8) == (b & 0x8 == 0x8)
    requires (a & 0x10 == 0x10) == (b & 0x10 == 0x10) && (a & 0x20 == 0x20) == (b & 0x20 == 0x20)
    requires (a & 0x40 == 0x40) == (b & 0x40 == 0x40) && (a & 0x80 == 0x80) == (b & 0x80 == 0x80)
    ensures a == b
  {
  }

  lemma BitOfByte(s: seq<Byte>, j: nat)
    requires j < 8 * |s|
    ensures j / 8 < |s| && Bits(s)[j] == ByteBits(s[j / 8])[j % 8]
  {
    var k := j / 8;
    BitsAt(s, k);
    assert Bits(s)[j] == Bits(s)[8 * k..8 * k + 8][j - 8 * k];
  }

  /** The first differing bit of a list of bits. */
  lemma {:induction false} FirstDifference(e: seq<bool>, from: nat) returns (i: nat)
    requires exists j :: from <= j < |e| && e[j]
    ensures from <= i < |e| && e[i] && forall j | from <= j < i :: !e[j]
    decreases |e| - from
  {
    if e[from] {
      i := from;
    } else {
      i := FirstDifference(e, from + 1);
    }
  }

  lemma SomeBitDiffers(s: seq<bool>, t: seq<bool>) returns (j: nat)
    requires |s| == |t| && s != t
    ensures j < |s| && s[j] != t[j]
  {
    j :| 0 <= j < |s| && s[j] != t[j];
  }

  lemma BitWithin(u: seq<bool>, from: nat, s: seq<bool>, j: nat)
    requires j < |s| && from + |s| <= |u| && u[from..from + |s|] == s
    ensures u[from + j] == s[j]
  {
    assert u[from..from + |s|][j] == u[from + j];
  }

  lemma ByteDiffers(a: seq<Byte>, b: seq<Byte>, m: nat) returns (j: nat)
    requires |a| == |b| && m < |a| && a[m] != b[m]
    ensures 8 * m <= j < 8 * m + 8 && Bits(a)[j] != Bits(b)[j]
  {
    if ByteBits(a[m]) == ByteBits(b[m]) { ByteBitsInjective(a[m], b[m]); }
    var i := SomeBitDiffers(ByteBits(a[m]), ByteBits(b[m]));
    BitsAt(a, m);
    BitsAt(b, m);
    BitWithin(Bits(a), 8 * m, ByteBits(a[m]), i);
    BitWithin(Bits(b), 8 * m, ByteBits(b[m]), i);
    j := 8 * m + i;
  }

  /** Messages that differ only within n adjacent bytes differ by a burst of 8n bits. */
  lemma NeighboursBurst(a: seq<Byte>, b: seq<Byte>, k: nat, n: nat) returns (i: nat)
    requires |a| == |b| && a != b
    requires forall j | 0 <= j < |a| && !(k <= j < k + n) :: a[j] == b[j]
    ensures Burst(XorBits(Bits(a), Bits(b)), i, 8 * n)
  {
    var e := XorBits(Bits(a), Bits(b));
    forall j | 0 <= j < |e| && !(8 * k <= j < 8 * (k + n)) ensures !e[j] {
      BitOfByte(a, j);
      BitOfByte(b, j);
    }
    var m :| 0 <= m < |a| && a[m] != b[m];
    var j := ByteDiffers(a, b, m);
    assert e[j];
    i := FirstDifference(e, 0);
  }

  /** Errors within as many adjacent bytes as the register holds are always detected. */
  lemma NeighboursDetected<T(!new)>(r: Register<T>, x: T, a: seq<Byte>, b: seq<Byte>, k: nat, n: nat)
    requires Laws(r) && r.width == 8 * n && |a| == |b| && a != b
    requires forall j | 0 <= j < |a| && !(k <= j < k + n) :: a[j] == b[j]
    ensures Feed(r, x, a) != Feed(r, x, b)
  {
    var i := NeighboursBurst(a, b, k, n);
    BurstDetected(r, x, a, b, i);
  }
}
