/** Frames of the EEP link: a 16-byte header, a body, and a 32-bit checksum that adds the frame's
    words and its leftover bytes modulo 2^32. */
module FrameChecksum {

  type Byte = b: int | 0 <= b < 256
  type Word16 = w: int | 0 <= w < 65536

  const MOD := 0x1_0000_0000
  const HEADER_SIZE := 16

  datatype Header = Header(destination: Byte, source: Byte, code: Byte, rsv: Byte, day: Byte, month: Byte, year: Word16,
                           rsv1: Byte, second: Byte, minute: Byte, hour: Byte, seqNo: Word16, dataLen: Word16)

  /** What the receive handler makes of the bytes of one read. */
  datatype Opened = BadCheck | BadLength | Good(header: Header, body: seq<Byte>)

  // ---- the checksum, byte by byte ----

  /** The place of byte i of n within its word; the leftover bytes all count as place 0. */
  function Place(n: nat, i: nat): (p: nat)
    ensures p < 4
  {
    if i < n - n % 4 then i % 4 else 0
  }

  /** b * 256^p */
  function Scaled(b: int, p: nat): int
    requires p < 4
  {
    match p
    case 0 => b
    case 1 => 0x100 * b
    case 2 => 0x1_0000 * b
    case 3 => 0x100_0000 * b
  }

  function SumTo(data: seq<Byte>, k: nat): nat
    requires k <= |data|
  {
    if k == 0 then 0 else SumTo(data, k - 1) + Scaled(data[k - 1], Place(|data|, k - 1))
  }

  function Checksum(data: seq<Byte>): nat { SumTo(data, |data|) % MOD }

  function Bytes16(v: Word16): seq<Byte> { [v % 256, v / 256] }

  function Bytes32(v: nat): (s: seq<Byte>)
    requires v < MOD
  {
    [v % 256, v / 256 % 256, v / 65536 % 256, v / 16777216]
  }

  /** Four bytes as a little-endian word. */
  function Word(b0: int, b1: int, b2: int, b3: int): int { b0 + 0x100 * b1 + 0x1_0000 * b2 + 0x100_0000 * b3 }

  function WordAt(data: seq<Byte>, i: nat): nat
    requires i + 3 < |data|
  {
    Word(data[i], data[i + 1], data[i + 2], data[i + 3])
  }

  function Read16(s: seq<Byte>, i: nat): Word16
    requires i + 1 < |s|
  {
    Word(s[i], s[i + 1], 0, 0)
  }

  function Read32(s: seq<Byte>): nat
    requires |s| == 4
  {
    Word(s[0], s[1], s[2], s[3])
  }

  predicate Valid(data: seq<Byte>) {
    |data| >= 4 && Read32(data[|data| - 4..]) == Checksum(data[..|data| - 4])
  }

  function Sealed(msg: seq<Byte>): seq<Byte> { msg + Bytes32(Checksum(msg)) }

  function HeaderBytes(h: Header): seq<Byte> {
    [h.destination, h.source, h.code, h.rsv, h.day, h.month] + Bytes16(h.year)
    + [h.rsv1, h.second, h.minute, h.hour] + Bytes16(h.seqNo) + Bytes16(h.dataLen)
  }

  function ReadHeader(s: seq<Byte>): Header
    requires |s| >= HEADER_SIZE
  {
    Header(s[0], s[1], s[2], s[3], s[4], s[5], Read16(s, 6), s[8], s[9], s[10], s[11], Read16(s, 12), Read16(s, 14))
  }

  function Parse(s: seq<Byte>): Opened {
    if |s| < HEADER_SIZE then BadLength
    else
      var h := ReadHeader(s);
      if |s| < HEADER_SIZE + h.dataLen then BadLength else Good(h, s[HEADER_SIZE..HEADER_SIZE + h.dataLen])
  }

  function Open(data: seq<Byte>): Opened {
    if Valid(data) then Parse(data[..|data| - 4]) else BadCheck
  }

  // ---- the loops ----

  /** A whole word of the frame adds its little-endian value. */
  lemma WordSum(data: seq<Byte>, i: nat)
    requires OnWords(|data|, i) && i + 3 < |data|
    ensures SumTo(data, i + 4) == SumTo(data, i) + WordAt(data, i)
  {
    assert SumTo(data, i + 4) == SumTo(data, i + 3) + Scaled(data[i + 3], 3);
    assert SumTo(data, i + 3) == SumTo(data, i + 2) + Scaled(data[i + 2], 2);
    assert SumTo(data, i + 2) == SumTo(data, i + 1) + Scaled(data[i + 1], 1);
  }

  /** Adding to a wrapped sum and wrapping again is wrapping the whole sum. */
  lemma Wrapped(whole: nat, sum: nat, w: nat)
    requires sum == whole % MOD
    ensures (sum + w) % MOD == (whole + w) % MOD
  {
    var a, b := (whole + w) / MOD, (sum + w) / MOD;
    assert MOD * a + (whole + w) % MOD == MOD * (whole / MOD) + MOD * b + (sum + w) % MOD;
  }

  predicate OnWords(n: nat, i: nat) { i <= n && i % 4 == 0 }

  predicate PastWords(n: nat, i: nat) { n - n % 4 <= i <= n }

  lemma NextWord(n: nat, i: nat)
    requires OnWords(n, i) && i + 3 < n
    ensures OnWords(n, i + 4)
  {
  }

  lemma WordStep(data: seq<Byte>, i: nat, sum: nat)
    requires OnWords(|data|, i) && i + 3 < |data| && sum == SumTo(data, i) % MOD
    ensures (sum + WordAt(data, i)) % MOD == SumTo(data, i + 4) % MOD
  {
    WordSum(data, i);
    var before, after := SumTo(data, i), SumTo(data, i + 4);
    Wrapped(before, sum, after - before);
  }

  lemma LeftoverStep(data: seq<Byte>, i: nat, sum: nat)
    requires PastWords(|data|, i) && i < |data| && sum == SumTo(data, i) % MOD
    ensures PastWords(|data|, i + 1)
    ensures (sum + data[i]) % MOD == SumTo(data, i + 1) % MOD
  {
    Wrapped(SumTo(data, i), sum, data[i]);
  }

  lemma WordsEnd(n: nat, i: nat)
    requires OnWords(n, i) && i + 3 >= n
    ensures PastWords(n, i)
  {
  }

  /** The word loop and the loop over the leftover bytes, both in 32-bit arithmetic. */
  method CalculateNoPadding(data: seq<Byte>) returns (sum: nat)
    ensures sum == Checksum(data)
  {
    sum := 0;
    var i := 0;
    while i + 3 < |data|
      invariant OnWords(|data|, i) && sum == SumTo(data, i) % MOD
    {
      WordStep(data, i, sum);
      NextWord(|data|, i);
      sum := (sum + Word(data[i], data[i + 1], data[i + 2], data[i + 3])) % MOD;
      i := i + 4;
    }
    WordsEnd(|data|, i);
    while i < |data|
      invariant PastWords(|data|, i) && sum == SumTo(data, i) % MOD
    {
      LeftoverStep(data, i, sum);
      sum := (sum + data[i]) % MOD;
      i := i + 1;
    }
  }

  method IsValid(data: seq<Byte>) returns (ok: bool)
    ensures ok == Valid(data)
  {
    var n := |data|;
    if n < 4 { return false; }
    var dataCheckSum := Word(data[n - 4], data[n - 3], data[n - 2], data[n - 1]);
    var calculated := CalculateNoPadding(data[..n - 4]);
    ok := dataCheckSum == calculated;
    assert data[n - 4..] == [data[n - 4], data[n - 3], data[n - 2], data[n - 1]];
  }

  /** A message under construction. */
  class Packet {
    var msg: seq<Byte>

    constructor ()
      ensures msg == []
    {
      msg := [];
    }

    method Put(b: Byte)
      modifies this
      ensures msg == old(msg) + [b]
    {
      msg := msg + [b];
    }

    method PutUint16(value: Word16)
      modifies this
      ensures msg == old(msg) + Bytes16(value)
    {
      Put(value % 256);
      Put(value / 256 % 256);
    }

    method PutUint32(value: nat)
      requires value < MOD
      modifies this
      ensures msg == old(msg) + Bytes32(value)
    {
      Put(value % 256);
      Put(value / 256 % 256);
      Put(value / 65536 % 256);
      Put(value / 16777216 % 256);
    }

    method PutHeader(h: Header)
      modifies this
      ensures msg == old(msg) + HeaderBytes(h)
    {
      Put(h.destination);
      Put(h.source);
      Put(h.code);
      Put(h.rsv);
      Put(h.day);
      Put(h.month);
      PutUint16(h.year);
      Put(h.rsv1);
      Put(h.second);
      Put(h.minute);
      Put(h.hour);
      PutUint16(h.seqNo);
      PutUint16(h.dataLen);
    }

    /** A whole request: header, payload, checksum; the receiver's own test accepts it. */
    method Prepare(h: Header, payload: seq<Byte>)
      modifies this
      ensures msg == Sealed(HeaderBytes(h) + payload) && Valid(msg)
    {
      msg := [];
      PutHeader(h);
      assert msg == HeaderBytes(h);
      msg := msg + payload;
      var checkcode := CalculateNoPadding(msg);
      PutUint32(checkcode);
      SealedIsValid(HeaderBytes(h) + payload);
      assert msg == Sealed(HeaderBytes(h) + payload);
    }
  }

  // ---- round trips ----

  lemma Bytes32Read(v: nat)
    requires v < MOD
    ensures Read32(Bytes32(v)) == v
  {
    ShiftByShift(v);
  }

  lemma WordBytes(b0: Byte, b1: Byte, b2: Byte, b3: Byte)
    ensures 0 <= Word(b0, b1, b2, b3) < MOD && Bytes32(Word(b0, b1, b2, b3)) == [b0, b1, b2, b3]
  {
    var v := Word(b0, b1, b2, b3);
    ShiftByShift(v);
    assert v == 256 * (b1 + 256 * (b2 + 256 * b3)) + b0;
    assert v / 256 == b1 + 256 * (b2 + 256 * b3);
    assert v / 256 / 256 == b2 + 256 * b3;
  }

  lemma ShiftByShift(v: nat)
    ensures v / 65536 == v / 256 / 256 && v / 16777216 == v / 65536 / 256
  {
    var q := v / 256;
    var p := q / 256;
    assert v == 65536 * p + (256 * (q % 256) + v % 256);
    assert p == 256 * (p / 256) + p % 256;
  }

  lemma SealedIsValid(msg: seq<Byte>)
    ensures Valid(Sealed(msg))
  {
    var s := Sealed(msg);
    assert s[|s| - 4..] == Bytes32(Checksum(msg)) && s[..|s| - 4] == msg;
    Bytes32Read(Checksum(msg));
  }

  /** Only the frame sealed with its own checksum is valid: there is one valid trailer a message. */
  lemma ValidIsSealed(data: seq<Byte>)
    requires Valid(data)
    ensures data == Sealed(data[..|data| - 4])
  {
    var t := data[|data| - 4..];
    WordBytes(t[0], t[1], t[2], t[3]);
    assert Bytes32(Read32(t)) == t;
    assert data == data[..|data| - 4] + t;
  }

  /** What was prepared is what is opened: the header, and as much of the payload as the header's
      length claims; a header that claims more than was sent is refused as too short. */
  lemma PreparedOpens(h: Header, payload: seq<Byte>)
    ensures Open(Sealed(HeaderBytes(h) + payload))
         == if h.dataLen <= |payload| then Good(h, payload[..h.dataLen]) else BadLength
  {
    var msg := HeaderBytes(h) + payload;
    SealedIsValid(msg);
    assert Sealed(msg)[..|Sealed(msg)| - 4] == msg;
    HeaderRoundTrip(h, payload);
    if h.dataLen <= |payload| {
      assert msg[HEADER_SIZE..HEADER_SIZE + h.dataLen] == payload[..h.dataLen];
    }
  }

  lemma HeaderRoundTrip(h: Header, rest: seq<Byte>)
    ensures |HeaderBytes(h)| == HEADER_SIZE && ReadHeader(HeaderBytes(h) + rest) == h
  {
  }

  /** Where the receiver finds what of a sent header: the code in byte 2, and number and length low byte first. */
  lemma HeaderPlaces(h: Header, rest: seq<Byte>)
    ensures var s := Sealed(HeaderBytes(h) + rest);
            && s[0] == h.destination && s[1] == h.source && s[2] == h.code
            && [s[4], s[5]] == [h.day, h.month] && Word(s[6], s[7], 0, 0) == h.year
            && [s[9], s[10], s[11]] == [h.second, h.minute, h.hour]
            && Word(s[12], s[13], 0, 0) == h.seqNo && Word(s[14], s[15], 0, 0) == h.dataLen
  {
  }

  lemma Read16Bytes(s: seq<Byte>, i: nat)
    requires i + 1 < |s|
    ensures Bytes16(Read16(s, i)) == [s[i], s[i + 1]]
  {
    var lo: int, hi: int := s[i], s[i + 1];
    assert (256 * hi + lo) / 256 == hi && (256 * hi + lo) % 256 == lo;
  }

  lemma HeaderIsRead(s: seq<Byte>)
    requires |s| >= HEADER_SIZE
    ensures HeaderBytes(ReadHeader(s)) == s[..HEADER_SIZE]
  {
    Read16Bytes(s, 6);
    Read16Bytes(s, 12);
    Read16Bytes(s, 14);
  }

  lemma OpenedWasPrepared(data: seq<Byte>) returns (more: seq<Byte>)
    ensures var o := Open(data);
            o.Good? ==> |o.body| == o.header.dataLen && data == Sealed(HeaderBytes(o.header) + o.body + more)
  {
    hide Checksum, HeaderBytes, ReadHeader, Read32;
    more := [];
    if Open(data).Good? {
      var h, msg := Open(data).header, data[..|data| - 4];
      ValidIsSealed(data);
      HeaderIsRead(msg);
      more := msg[HEADER_SIZE + h.dataLen..];
      assert msg == HeaderBytes(h) + Open(data).body + more;
    }
  }

  lemma PreparedIsOpened(h: Header, body: seq<Byte>, more: seq<Byte>)
    requires |body| == h.dataLen
    ensures Open(Sealed(HeaderBytes(h) + body + more)) == Good(h, body)
  {
    hide Open, Sealed, HeaderBytes;
    assert HeaderBytes(h) + body + more == HeaderBytes(h) + (body + more);
    PreparedOpens(h, body + more);
    assert (body + more)[..h.dataLen] == body;
  }

  /** What is opened is exactly what was prepared: a frame opens as a header and a body if and only if it is
      that header, that body of the length the header claims, perhaps more bytes, and their checksum. */
  lemma OpensExactlyPrepared(data: seq<Byte>, h: Header, body: seq<Byte>)
    ensures Open(data) == Good(h, body)
       <==> |body| == h.dataLen && exists more: seq<Byte> :: data == Sealed(HeaderBytes(h) + body + more)
  {
    hide Open, Sealed, HeaderBytes;
    var rest := OpenedWasPrepared(data);
    if |body| == h.dataLen {
      forall more: seq<Byte> | data == Sealed(HeaderBytes(h) + body + more) ensures Open(data) == Good(h, body) {
        PreparedIsOpened(h, body, more);
      }
    }
  }

  /** The other refusals: a wrong checksum comes before a wrong length. */
  lemma RefusedExactly(data: seq<Byte>)
    ensures Open(data) == BadCheck <==> forall msg: seq<Byte> :: data != Sealed(msg)
    ensures Open(data) == BadLength
       <==> exists msg: seq<Byte> :: data == Sealed(msg) && (|msg| < HEADER_SIZE || |msg| < HEADER_SIZE + Word(msg[14], msg[15], 0, 0))
  {
    forall msg: seq<Byte> | data == Sealed(msg) ensures Valid(data) && data[..|data| - 4] == msg {
      SealedIsValid(msg);
    }
    if Valid(data) { ValidIsSealed(data); }
  }

  // ---- error detection ----

  /** Changing byte i moves the sum by the scaled difference. */
  lemma {:induction false} SumMoves(data: seq<Byte>, i: nat, v: Byte, k: nat)
    requires i < |data| && k <= |data|
    ensures SumTo(data[i := v], k) == SumTo(data, k) + if i < k then Scaled(v - data[i], Place(|data|, i)) else 0
  {
    if k > 0 { SumMoves(data, i, v, k - 1); }
  }

  /** A scaled difference of two bytes is never a multiple of 2^32 unless they are equal. */
  lemma ScaledIsSeen(sum: nat, d: int, p: nat)
    requires p < 4 && -256 < d < 256 && d != 0 && sum + Scaled(d, p) >= 0
    ensures (sum + Scaled(d, p)) % MOD != sum % MOD
  {
    SmallIsSeen(sum, Scaled(d, p));
  }

  lemma SmallIsSeen(sum: nat, d: int)
    requires -MOD < d < MOD && d != 0 && sum + d >= 0
    ensures (sum + d) % MOD != sum % MOD
  {
    var a, b := (sum + d) / MOD, sum / MOD;
    assert a * MOD + (sum + d) % MOD - (b * MOD + sum % MOD) == d;
  }

  /** Changing any one byte of a valid frame, of the message or of its checksum, makes it invalid. */
  lemma OneByteIsDetected(data: seq<Byte>, i: nat, v: Byte)
    requires Valid(data) && i < |data| && v != data[i]
    ensures !Valid(data[i := v])
  {
    var n := |data| - 4;
    var msg, t := data[..n], data[n..];
    var other := data[i := v];
    if i < n {
      assert other[..n] == msg[i := v] && other[n..] == t;
      SumMoves(msg, i, v, n);
      ScaledIsSeen(SumTo(msg, n), v - msg[i], Place(n, i));
    } else {
      assert other[..n] == msg && other[n..] == t[i - n := v];
    }
  }

  /** So a frame that was prepared and damaged in any one byte is refused, in its header, its payload or its
      checksum. */
  lemma DamagedIsRefused(h: Header, payload: seq<Byte>, i: nat, v: Byte)
    requires var data := Sealed(HeaderBytes(h) + payload); i < |data| && v != data[i]
    ensures Open(Sealed(HeaderBytes(h) + payload)[i := v]) == BadCheck
  {
    SealedIsValid(HeaderBytes(h) + payload);
    OneByteIsDetected(Sealed(HeaderBytes(h) + payload), i, v);
  }

  /** The limit of an additive check: exchanging two message bytes goes unseen exactly when they
      are equal or stand at the same place of their words. */
  lemma ExchangeIsDetectedExactly(data: seq<Byte>, i: nat, j: nat)
    requires Valid(data) && i < j < |data| - 4
    ensures Valid(data[i := data[j]][j := data[i]])
       <==> data[i] == data[j] || Place(|data| - 4, i) == Place(|data| - 4, j)
  {
    var n := |data| - 4;
    var msg, t := data[..n], data[n..];
    var once := msg[i := msg[j]];
    var other := data[i := data[j]][j := data[i]];
    assert other[..n] == once[j := msg[i]] && other[n..] == t;
    SumMoves(msg, i, msg[j], n);
    SumMoves(once, j, msg[i], n);
    var d: int := msg[j] as int - msg[i] as int;
    var p, q := Place(n, i), Place(n, j);
    assert Scaled(-d, q) == -Scaled(d, q);
    var shift := Scaled(d, p) - Scaled(d, q);
    assert SumTo(other[..n], n) == SumTo(msg, n) + shift;
    if d != 0 && p != q { SmallIsSeen(SumTo(msg, n), shift); }
  }
}
