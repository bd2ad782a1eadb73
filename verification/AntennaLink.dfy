/** The framing of the antenna link: DLE byte stuffing with a CRC-16, and the receiver that undoes it. */
module AntennaLink {
  import opened LinearRegister
  import Crc16

  const STX: Byte := 0x02
  const ETX: Byte := 0x03
  const DLE: Byte := 0x10

  // ---- the sender ----

  /** A data byte on the line: the escape byte is doubled. */
  function StuffByte(b: Byte): seq<Byte> { if b == DLE then [DLE, DLE] else [b] }

  /** The payload with every DLE doubled. */
  function Stuff(p: seq<Byte>): seq<Byte> {
    if p == [] then []
    else Stuff(p[..|p|-1]) + StuffByte(p[|p|-1])
  }

  function Lo(crc: bv16): Byte { (crc & 0xFF) as bv8 }

  function Hi(crc: bv16): Byte { ((crc >> 8) & 0xFF) as bv8 }

  /** The check covers the payload and the end-of-text byte. */
  function Check(p: seq<Byte>): bv16 { Crc16.Crc(p + [ETX]) }

  function Frame(p: seq<Byte>): seq<Byte> {
    [DLE, STX] + Stuff(p) + [DLE, ETX] + [Lo(Check(p)), Hi(Check(p))]
  }

  // ---- the receiver ----

  datatype RxState = IGNORE | RECEIVING | ESCAPE | ESCAPE2START | RXCRC1 | RXCRC2

  /** The receiver: its state, the bytes collected, and the first check byte. */
  datatype Rx = Rx(state: RxState, buf: seq<Byte>, b: Byte)

  function Reset(r: Rx): Rx { Rx(IGNORE, [], r.b) }

  function Joined(hi: Byte, lo: Byte): bv16 { ((hi as bv16) << 8) | (lo as bv16) }

  /** One byte: the receiver afterwards, and the number of bytes of a message it completes, or 0. */
  function Receive(r: Rx, c: Byte): (Rx, nat) {
    match r.state
    case IGNORE => (if c == DLE then r.(state := ESCAPE2START) else r, 0)
    case ESCAPE2START => (if c == STX then r.(state := RECEIVING, buf := []) else Reset(r), 0)
    case RECEIVING => (if c == DLE then r.(state := ESCAPE) else r.(buf := r.buf + [c]), 0)
    case ESCAPE =>
      (if c == STX then r.(state := RECEIVING, buf := [])
       else if c == ETX then r.(state := RXCRC1, buf := r.buf + [c])
       else if c == DLE then r.(state := RECEIVING, buf := r.buf + [c])
       else Reset(r), 0)
    case RXCRC1 => (r.(state := RXCRC2, b := c), 0)
    case RXCRC2 =>
      if Crc16.Crc(r.buf) == Joined(c, r.b) then (r.(state := IGNORE), |r.buf|) else (Reset(r), 0)
  }

  function FeedAll(r: Rx, s: seq<Byte>): Rx {
    if s == [] then r else Receive(FeedAll(r, s[..|s|-1]), s[|s|-1]).0
  }

  /** What the last byte of s returns. */
  function LastReturn(r: Rx, s: seq<Byte>): nat {
    if s == [] then 0 else Receive(FeedAll(r, s[..|s|-1]), s[|s|-1]).1
  }

  /** No byte of s completes a message. */
  ghost predicate Silent(r: Rx, s: seq<Byte>) {
    forall k | 0 <= k <= |s| :: LastReturn(r, s[..k]) == 0
  }

  /** A chunk of input is read up to the byte that completes a message. */
  function Take(r: Rx, s: seq<Byte>): (Rx, bool)
    decreases |s|
  {
    if s == [] then (r, false)
    else
      var n := Receive(r, s[0]);
      if n.1 != 0 then (n.0, true) else Take(n.0, s[1..])
  }

  /** Chunks are read until one completes a message. */
  function ReadChunks(r: Rx, chunks: seq<seq<Byte>>): (Rx, bool)
    decreases |chunks|
  {
    if chunks == [] then (r, false)
    else
      var t := Take(r, chunks[0]);
      if t.1 then t else ReadChunks(t.0, chunks[1..])
  }

  function Flatten(chunks: seq<seq<Byte>>): seq<Byte>
    decreases |chunks|
  {
    if chunks == [] then [] else chunks[0] + Flatten(chunks[1..])
  }

  // ---- feeding in pieces ----

  lemma {:induction false} FeedSplit(r: Rx, a: seq<Byte>, b: seq<Byte>)
    ensures FeedAll(r, a + b) == FeedAll(FeedAll(r, a), b)
    ensures b != [] ==> LastReturn(r, a + b) == LastReturn(FeedAll(r, a), b)
    decreases |b|
  {
    if b == [] {
      assert a + b == a;
    } else {
      var n := |b| - 1;
      assert (a + b)[..|a + b| - 1] == a + b[..n] && (a + b)[|a + b| - 1] == b[n];
      FeedSplit(r, a, b[..n]);
    }
  }

  lemma SilentJoin(r: Rx, a: seq<Byte>, b: seq<Byte>)
    requires Silent(r, a) && Silent(FeedAll(r, a), b)
    ensures Silent(r, a + b)
  {
    forall k | 0 <= k <= |a + b| ensures LastReturn(r, (a + b)[..k]) == 0 {
      if k <= |a| {
        assert (a + b)[..k] == a[..k];
      } else {
        assert (a + b)[..k] == a + b[..k - |a|];
        FeedSplit(r, a, b[..k - |a|]);
      }
    }
  }

  lemma FeedOne(r: Rx, c: Byte)
    ensures FeedAll(r, [c]) == Receive(r, c).0 && LastReturn(r, [c]) == Receive(r, c).1
    ensures Receive(r, c).1 == 0 ==> Silent(r, [c])
  {
    assert [c][..0] == [] && FeedAll(r, []) == r;
    forall k | 0 <= k <= 1 && Receive(r, c).1 == 0 ensures LastReturn(r, [c][..k]) == 0 {
      if k == 1 { assert [c][..1] == [c]; }
    }
  }

  lemma FeedTwo(r: Rx, c: Byte, e: Byte)
    ensures FeedAll(r, [c, e]) == Receive(Receive(r, c).0, e).0
    ensures LastReturn(r, [c, e]) == Receive(Receive(r, c).0, e).1
    ensures Receive(r, c).1 == 0 && Receive(Receive(r, c).0, e).1 == 0 ==> Silent(r, [c, e])
  {
    assert [c, e] == [c] + [e];
    FeedOne(r, c);
    FeedOne(Receive(r, c).0, e);
    FeedSplit(r, [c], [e]);
    if Receive(r, c).1 == 0 && Receive(Receive(r, c).0, e).1 == 0 { SilentJoin(r, [c], [e]); }
  }

  // ---- the payload ----

  lemma ByteCollected(r: Rx, b: Byte)
    requires r.state == RECEIVING
    ensures FeedAll(r, StuffByte(b)) == r.(buf := r.buf + [b]) && Silent(r, StuffByte(b))
  {
    if b == DLE { FeedTwo(r, DLE, DLE); } else { FeedOne(r, b); }
  }

  /** While receiving, the stuffed payload is collected unstuffed. */
  lemma {:induction false} PayloadCollected(r: Rx, p: seq<Byte>)
    requires r.state == RECEIVING
    ensures FeedAll(r, Stuff(p)) == r.(buf := r.buf + p) && Silent(r, Stuff(p))
    decreases |p|
  {
    if p == [] {
      assert r.buf + p == r.buf;
    } else {
      var front, b := p[..|p|-1], p[|p|-1];
      var m := r.(buf := r.buf + front);
      PayloadCollected(r, front);
      assert r.buf + p == (r.buf + front) + [b];
      ByteCollected(m, b);
      FeedSplit(r, Stuff(front), StuffByte(b));
      SilentJoin(r, Stuff(front), StuffByte(b));
    }
  }

  lemma HiLo(crc: bv16)
    ensures Joined(Hi(crc), Lo(crc)) == crc
  {
  }

  /** The end of a frame after its payload has been collected. */
  lemma TailAccepted(r: Rx, p: seq<Byte>)
    requires r.state == RECEIVING && r.buf == p
    ensures var tail := Tail(p);
            && Silent(r, tail[..3]) && LastReturn(r, tail) == |p| + 1
            && FeedAll(r, tail).buf == p + [ETX] && FeedAll(r, tail).state == IGNORE
  {
    hide Crc16.Crc;
    var lo, hi := Lo(Check(p)), Hi(Check(p));
    FeedTwo(r, DLE, ETX);
    var m := FeedAll(r, [DLE, ETX]);
    HiLo(Check(p));
    FeedTwo(m, lo, hi);
    FeedSplit(r, [DLE, ETX], [lo, hi]);
    FeedOne(m, lo);
    SilentJoin(r, [DLE, ETX], [lo]);
    assert Tail(p)[..3] == [DLE, ETX] + [lo];
  }

  predicate InStep(r: Rx) { r.state == IGNORE || r.state == RECEIVING }

  /** The frame is taken: nothing is returned before its last byte, which returns the message. */
  ghost predicate Taken(r: Rx, p: seq<Byte>) {
    var f := Frame(p);
    && Silent(r, f[..|f|-1]) && LastReturn(r, f) == |p| + 1
    && FeedAll(r, f).buf == p + [ETX] && FeedAll(r, f).state == IGNORE
  }

  function Tail(p: seq<Byte>): seq<Byte> { [DLE, ETX] + [Lo(Check(p)), Hi(Check(p))] }

  lemma HeadCollected(r: Rx, p: seq<Byte>)
    requires InStep(r)
    ensures var h := [DLE, STX] + Stuff(p);
            Silent(r, h) && FeedAll(r, h) == Rx(RECEIVING, p, r.b)
  {
    hide Stuff, Crc16.Crc;
    FeedTwo(r, DLE, STX);
    var m := FeedAll(r, [DLE, STX]);
    PayloadCollected(m, p);
    assert [] + p == p;
    FeedSplit(r, [DLE, STX], Stuff(p));
    SilentJoin(r, [DLE, STX], Stuff(p));
  }

  lemma LastOfJoin(r: Rx, a: seq<Byte>, b: seq<Byte>)
    requires b != [] && Silent(r, a) && Silent(FeedAll(r, a), b[..|b|-1])
    ensures Silent(r, (a + b)[..|a + b| - 1])
    ensures LastReturn(r, a + b) == LastReturn(FeedAll(r, a), b) && FeedAll(r, a + b) == FeedAll(FeedAll(r, a), b)
  {
    FeedSplit(r, a, b);
    SilentJoin(r, a, b[..|b|-1]);
    assert (a + b)[..|a + b| - 1] == a + b[..|b|-1];
  }

  /** From IGNORE, or from RECEIVING with any garbage collected, every frame is taken. */
  lemma FrameRoundTrip(r: Rx, p: seq<Byte>)
    requires InStep(r)
    ensures Taken(r, p)
  {
    var h := [DLE, STX] + Stuff(p);
    HeadCollected(r, p);
    TailAccepted(Rx(RECEIVING, p, r.b), p);
    assert Tail(p)[..|Tail(p)| - 1] == Tail(p)[..3];
    LastOfJoin(r, h, Tail(p));
    assert Frame(p) == h + Tail(p);
  }

  // ---- out of step ----

  lemma ByteIgnored(r: Rx, b: Byte)
    requires r.state == IGNORE
    ensures FeedAll(r, StuffByte(b)).state == IGNORE && Silent(r, StuffByte(b))
  {
    if b == DLE { FeedTwo(r, DLE, DLE); } else { FeedOne(r, b); }
  }

  /** Looking for a start, a stuffed payload is passed over: its DLEs come in pairs. */
  lemma {:induction false} PayloadIgnored(r: Rx, p: seq<Byte>)
    requires r.state == IGNORE
    ensures FeedAll(r, Stuff(p)).state == IGNORE && Silent(r, Stuff(p))
    decreases |p|
  {
    if p != [] {
      var front, b := p[..|p|-1], p[|p|-1];
      PayloadIgnored(r, front);
      ByteIgnored(FeedAll(r, Stuff(front)), b);
      FeedSplit(r, Stuff(front), StuffByte(b));
      SilentJoin(r, Stuff(front), StuffByte(b));
    }
  }

  /** Where passing over the last two bytes of a frame leaves the receiver. */
  function AfterCheck(lo: Byte, hi: Byte): RxState {
    if lo == DLE then (if hi == STX then RECEIVING else IGNORE)
    else if hi == DLE then ESCAPE2START else IGNORE
  }

  lemma TailIgnored(r: Rx, p: seq<Byte>)
    requires r.state == IGNORE
    ensures LastReturn(r, Tail(p)) == 0 && Silent(r, Tail(p))
    ensures FeedAll(r, Tail(p)).state == AfterCheck(Lo(Check(p)), Hi(Check(p)))
  {
    hide Check;
    FeedTwo(r, DLE, ETX);
    var m := FeedAll(r, [DLE, ETX]);
    FeedTwo(m, Lo(Check(p)), Hi(Check(p)));
    FeedSplit(r, [DLE, ETX], [Lo(Check(p)), Hi(Check(p))]);
    SilentJoin(r, [DLE, ETX], [Lo(Check(p)), Hi(Check(p))]);
  }

  lemma StartPassedOver(r: Rx)
    requires r.state == ESCAPE2START || r.state == RXCRC1 || r.state == RXCRC2
    ensures FeedAll(r, [DLE, STX]).state == IGNORE && (r.state == ESCAPE2START ==> Silent(r, [DLE, STX]))
  {
    hide Crc16.Crc, Joined;
    FeedTwo(r, DLE, STX);
  }

  /** A frame whose start is missed is lost. */
  lemma StartMissed(r: Rx, p: seq<Byte>)
    requires r.state == ESCAPE2START || r.state == RXCRC1 || r.state == RXCRC2
    ensures LastReturn(r, Frame(p)) == 0 && (r.state == ESCAPE2START ==> Silent(r, Frame(p)))
    ensures FeedAll(r, Frame(p)).state == AfterCheck(Lo(Check(p)), Hi(Check(p)))
  {
    hide Receive, Check, Lo, Hi, AfterCheck;
    StartPassedOver(r);
    var m := FeedAll(r, [DLE, STX]);
    PayloadIgnored(m, p);
    FeedSplit(r, [DLE, STX], Stuff(p));
    TailIgnored(FeedAll(m, Stuff(p)), p);
    FeedSplit(r, [DLE, STX] + Stuff(p), Tail(p));
    if r.state == ESCAPE2START {
      SilentJoin(r, [DLE, STX], Stuff(p));
      SilentJoin(r, [DLE, STX] + Stuff(p), Tail(p));
    }
    assert Frame(p) == [DLE, STX] + Stuff(p) + Tail(p);
  }

  lemma TailOfMore(r: Rx, p: seq<Byte>)
    requires r.state == RECEIVING
    ensures FeedAll(r, Tail(p)).state == IGNORE
    ensures LastReturn(r, Tail(p)) == 0 || LastReturn(r, Tail(p)) == |r.buf| + 1
  {
    hide Check, Crc16.Crc;
    FeedTwo(r, DLE, ETX);
    var m := FeedAll(r, [DLE, ETX]);
    FeedTwo(m, Lo(Check(p)), Hi(Check(p)));
    FeedSplit(r, [DLE, ETX], [Lo(Check(p)), Hi(Check(p))]);
  }

  /** A frame that starts after a stray DLE is taken for more of the message before it: whatever
      its check says, its length is wrong. */
  lemma StartSwallowed(r: Rx, p: seq<Byte>)
    requires r.state == ESCAPE
    ensures LastReturn(r, Frame(p)) != |p| + 1 && FeedAll(r, Frame(p)).state == IGNORE
  {
    FeedTwo(r, DLE, STX);
    var m := FeedAll(r, [DLE, STX]);
    PayloadCollected(m, p);
    FeedSplit(r, [DLE, STX], Stuff(p));
    TailOfMore(FeedAll(m, Stuff(p)), p);
    FeedSplit(r, [DLE, STX] + Stuff(p), Tail(p));
    assert Frame(p) == [DLE, STX] + Stuff(p) + Tail(p);
  }

  /** A frame is taken exactly when the receiver is in step as it begins. */
  lemma TakenExactlyInStep(r: Rx, p: seq<Byte>)
    ensures Taken(r, p) <==> InStep(r)
  {
    if InStep(r) { FrameRoundTrip(r, p); }
    else if r.state == ESCAPE { StartSwallowed(r, p); }
    else { StartMissed(r, p); }
  }

  /** The second check byte is no DLE that could be taken for the start of a pair. */
  predicate CheckIsPaired(p: seq<Byte>) { Hi(Check(p)) != DLE || Lo(Check(p)) == DLE }

  /** A frame leaves every receiver in step, whatever it was doing before, exactly when its check does
      not end in an unpaired DLE. */
  lemma InStepAfterExactly(p: seq<Byte>)
    ensures (forall r :: InStep(FeedAll(r, Frame(p)))) <==> CheckIsPaired(p)
  {
    if CheckIsPaired(p) {
      forall r ensures InStep(FeedAll(r, Frame(p))) { AfterFrame(r, p); }
    } else {
      StartMissed(Rx(ESCAPE2START, [], 0), p);
      assert !InStep(FeedAll(Rx(ESCAPE2START, [], 0), Frame(p)));
    }
  }

  lemma AfterFrame(r: Rx, p: seq<Byte>)
    requires CheckIsPaired(p)
    ensures InStep(FeedAll(r, Frame(p)))
  {
    if InStep(r) { FrameRoundTrip(r, p); }
    else if r.state == ESCAPE { StartSwallowed(r, p); }
    else { StartMissed(r, p); }
  }

  /** So the frame after such a frame is taken. */
  lemma BackInStep(r: Rx, p: seq<Byte>, q: seq<Byte>)
    requires CheckIsPaired(p)
    ensures Taken(FeedAll(r, Frame(p)), q)
  {
    AfterFrame(r, p);
    FrameRoundTrip(FeedAll(r, Frame(p)), q);
  }

  function Repeated(s: seq<Byte>, n: nat): seq<Byte> {
    if n == 0 then [] else Repeated(s, n - 1) + s
  }

  /** With such a check a receiver can stay out of step for the length of a read: one that waits for a start
      byte takes none of the frames that follow each other without a pause. */
  lemma {:induction false} NeverInStep(r: Rx, p: seq<Byte>, n: nat)
    requires r.state == ESCAPE2START && !CheckIsPaired(p)
    ensures FeedAll(r, Repeated(Frame(p), n)).state == ESCAPE2START && Silent(r, Repeated(Frame(p), n))
  {
    hide Frame, Receive;
    if n > 0 {
      NeverInStep(r, p, n - 1);
      StartMissed(FeedAll(r, Repeated(Frame(p), n - 1)), p);
      FeedSplit(r, Repeated(Frame(p), n - 1), Frame(p));
      SilentJoin(r, Repeated(Frame(p), n - 1), Frame(p));
    }
  }

  /** The antenna's acknowledgement of a command with sequence number 247. */
  const ACK_RESPONSE: seq<Byte> := [0x00, 0xB1, 0x32, 0x81, 0xF7, 0x00, 0x00]

  lemma FirstRounds()
    ensures Crc16.Round(0xFFFF, 0x00) == 0x0F87 && Crc16.Round(0x0F87, 0xB1) == 0x54BA
    ensures Crc16.Round(0x54BA, 0x32) == 0x0814 && Crc16.Round(0x0814, 0x81) == 0xC32C
  {
  }

  lemma LastRounds()
    ensures Crc16.Round(0xC32C, 0xF7) == 0x689D && Crc16.Round(0x689D, 0x00) == 0x4F04
    ensures Crc16.Round(0x4F04, 0x00) == 0x466B && Crc16.Round(0x466B, ETX) == 0xEF08
  {
  }

  lemma RoundOfPrefix(s: seq<Byte>, n: nat, before: bv16, after: bv16)
    requires n < |s| && Feed(Crc16.REG, 0xFFFF, s[..n]) == before && Crc16.Round(before, s[n]) == after
    ensures Feed(Crc16.REG, 0xFFFF, s[..n+1]) == after
  {
    assert s[..n+1] == s[..n] + [s[n]];
    Crc16.FeedRound(0xFFFF, s[..n], s[n]);
  }

  lemma NothingFed(s: seq<Byte>)
    ensures Feed(Crc16.REG, 0xFFFF, s[..0]) == 0xFFFF
  {
  }

  lemma FirstHalf(s: seq<Byte>)
    requires |s| == 8 && s[0] == 0x00 && s[1] == 0xB1 && s[2] == 0x32 && s[3] == 0x81
    ensures Feed(Crc16.REG, 0xFFFF, s[..4]) == 0xC32C
  {
    hide *;
    NothingFed(s);
    FirstRounds();
    RoundOfPrefix(s, 0, 0xFFFF, 0x0F87);
    RoundOfPrefix(s, 1, 0x0F87, 0x54BA);
    RoundOfPrefix(s, 2, 0x54BA, 0x0814);
    RoundOfPrefix(s, 3, 0x0814, 0xC32C);
  }

  lemma SecondHalf(s: seq<Byte>)
    requires |s| == 8 && s[4] == 0xF7 && s[5] == 0x00 && s[6] == 0x00 && s[7] == ETX
    requires Feed(Crc16.REG, 0xFFFF, s[..4]) == 0xC32C
    ensures Feed(Crc16.REG, 0xFFFF, s) == 0xEF08
  {
    hide *;
    LastRounds();
    RoundOfPrefix(s, 4, 0xC32C, 0x689D);
    RoundOfPrefix(s, 5, 0x689D, 0x4F04);
    RoundOfPrefix(s, 6, 0x4F04, 0x466B);
    RoundOfPrefix(s, 7, 0x466B, 0xEF08);
    assert s[..8] == s;
  }

  /** Such responses exist. */
  lemma AckIsUnpaired()
    ensures Check(ACK_RESPONSE) == 0x10F7 && !CheckIsPaired(ACK_RESPONSE)
  {
    hide Feed;
    var s := ACK_RESPONSE + [ETX];
    FirstHalf(s);
    SecondHalf(s);
    assert Crc16.Crc(s) == 0x10F7;
  }

  // ---- reading in chunks ----

  lemma {:induction false} TakeSplit(r: Rx, a: seq<Byte>, b: seq<Byte>)
    ensures Take(r, a + b) == (var t := Take(r, a); if t.1 then t else Take(t.0, b))
    decreases |a|
  {
    if a == [] {
      assert a + b == b;
    } else {
      assert (a + b)[0] == a[0] && (a + b)[1..] == a[1..] + b;
      TakeSplit(Receive(r, a[0]).0, a[1..], b);
    }
  }

  /** How the input is cut into chunks makes no difference. */
  lemma {:induction false} ChunksDoNotMatter(r: Rx, chunks: seq<seq<Byte>>)
    ensures ReadChunks(r, chunks) == Take(r, Flatten(chunks))
    decreases |chunks|
  {
    if chunks != [] {
      TakeSplit(r, chunks[0], Flatten(chunks[1..]));
      var t := Take(r, chunks[0]);
      if !t.1 { ChunksDoNotMatter(t.0, chunks[1..]); }
    }
  }

  lemma {:induction false} TakeSilent(r: Rx, s: seq<Byte>)
    requires Silent(r, s)
    ensures Take(r, s) == (FeedAll(r, s), false)
    decreases |s|
  {
    if s != [] {
      var n := |s| - 1;
      assert s == s[..n] + [s[n]];
      forall k | 0 <= k <= n ensures LastReturn(r, s[..n][..k]) == 0 { assert s[..n][..k] == s[..k]; }
      TakeSilent(r, s[..n]);
      TakeSplit(r, s[..n], [s[n]]);
      assert s[..|s|] == s;
    }
  }

  /** A frame cut into any chunks is read as the message it carries. */
  lemma ChunkedFrameIsRead(r: Rx, p: seq<Byte>, chunks: seq<seq<Byte>>)
    requires InStep(r) && Flatten(chunks) == Frame(p)
    ensures var t := ReadChunks(r, chunks); t.1 && t.0.buf == p + [ETX] && t.0.state == IGNORE
  {
    FrameRoundTrip(r, p);
    var f := Frame(p);
    var n := |f| - 1;
    assert f == f[..n] + [f[n]];
    TakeSilent(r, f[..n]);
    TakeSplit(r, f[..n], [f[n]]);
    ChunksDoNotMatter(r, chunks);
  }
}
