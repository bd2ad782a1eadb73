/** What the antenna's receiver does with damaged input: every response is a frame that was read. */
module AntennaErrors {
  import opened LinearRegister
  import Crc16
  import opened AntennaLink
  import opened AntennaAttempts

  // ---- a frame with any two check bytes ----

  function Framed(q: seq<Byte>, lo: Byte, hi: Byte): seq<Byte> { [DLE, STX] + Stuff(q) + [DLE, ETX] + [lo, hi] }

  lemma TailJudged(r: Rx, q: seq<Byte>, lo: Byte, hi: Byte)
    requires r.state == RECEIVING && r.buf == q
    ensures var tail := [DLE, ETX] + [lo, hi];
            && Silent(r, tail[..3])
            && LastReturn(r, tail) == (if Joined(hi, lo) == Check(q) then |q| + 1 else 0)
            && FeedAll(r, tail) == Rx(IGNORE, if Joined(hi, lo) == Check(q) then q + [ETX] else [], lo)
  {
    hide Crc16.Crc, Joined;
    FeedTwo(r, DLE, ETX);
    var m := FeedAll(r, [DLE, ETX]);
    FeedTwo(m, lo, hi);
    AntennaLink.FeedSplit(r, [DLE, ETX], [lo, hi]);
    FeedOne(m, lo);
    SilentJoin(r, [DLE, ETX], [lo]);
    assert ([DLE, ETX] + [lo, hi])[..3] == [DLE, ETX] + [lo];
  }

  /** In step, a frame is taken if and only if its check bytes are the check of its payload; otherwise nothing
      is returned and the receiver is reset. */
  lemma TakenExactlyWithItsCheck(r: Rx, q: seq<Byte>, lo: Byte, hi: Byte)
    requires InStep(r)
    ensures var f := Framed(q, lo, hi);
            && Silent(r, f[..|f|-1])
            && LastReturn(r, f) == (if Joined(hi, lo) == Check(q) then |q| + 1 else 0)
            && FeedAll(r, f) == Rx(IGNORE, if Joined(hi, lo) == Check(q) then q + [ETX] else [], lo)
  {
    hide Receive, Check, Joined;
    var h, tail := [DLE, STX] + Stuff(q), [DLE, ETX] + [lo, hi];
    HeadCollected(r, q);
    TailJudged(Rx(RECEIVING, q, r.b), q, lo, hi);
    assert tail[..|tail| - 1] == tail[..3];
    LastOfJoin(r, h, tail);
    assert Framed(q, lo, hi) == h + tail;
  }

  // ---- damaged frames ----

  lemma JoinedParts(lo: Byte, hi: Byte)
    ensures Lo(Joined(hi, lo)) == lo && Hi(Joined(hi, lo)) == hi
  {
  }

  lemma JoinedIsCheck(lo: Byte, hi: Byte, crc: bv16)
    ensures Joined(hi, lo) == crc <==> lo == Lo(crc) && hi == Hi(crc)
  {
    hide Joined, Lo, Hi;
    JoinedParts(lo, hi);
    HiLo(crc);
  }

  /** The frame of p with its payload damaged to q, or with its check damaged. */
  predicate Damaged(p: seq<Byte>, q: seq<Byte>, lo: Byte, hi: Byte) {
    || (Check(q) != Check(p) && lo == Lo(Check(p)) && hi == Hi(Check(p)))
    || (q == p && (lo != Lo(Check(p)) || hi != Hi(Check(p))))
  }

  lemma DamagedIsDropped(r: Rx, p: seq<Byte>, q: seq<Byte>, lo: Byte, hi: Byte)
    requires InStep(r) && Damaged(p, q, lo, hi)
    ensures var f := Framed(q, lo, hi); Silent(r, f) && FeedAll(r, f) == Rx(IGNORE, [], lo)
  {
    hide Check, Joined, Lo, Hi, Receive;
    JoinedIsCheck(lo, hi, Check(p));
    JoinedIsCheck(lo, hi, Check(q));
    TakenExactlyWithItsCheck(r, q, lo, hi);
    var f := Framed(q, lo, hi);
    forall k | 0 <= k <= |f| ensures LastReturn(r, f[..k]) == 0 {
      if k == |f| { assert f[..k] == f; } else { assert f[..|f|-1][..k] == f[..k]; }
    }
  }

  lemma BitsMore(s: seq<Byte>, b: Byte)
    ensures Bits(s + [b]) == Bits(s) + ByteBits(b)
  {
    assert (s + [b])[..|s|] == s;
  }

  lemma BurstLonger(a: seq<bool>, b: seq<bool>, t: seq<bool>, i: nat, w: nat)
    requires |a| == |b| && Burst(XorBits(a, b), i, w)
    ensures Burst(XorBits(a + t, b + t), i, w)
  {
    var e, f := XorBits(a, b), XorBits(a + t, b + t);
    assert forall j | 0 <= j < |e| :: f[j] == e[j];
    assert forall j | |e| <= j < |f| :: !f[j];
  }

  /** A burst in a payload is the same burst in the bytes its check covers. */
  lemma BurstUnderCheck(p: seq<Byte>, q: seq<Byte>, i: nat, w: nat)
    requires |p| == |q| && Burst(XorBits(Bits(p), Bits(q)), i, w)
    ensures Burst(XorBits(Bits(p + [ETX]), Bits(q + [ETX])), i, w)
  {
    hide *;
    BitsMore(p, ETX);
    BitsMore(q, ETX);
    BurstLonger(Bits(p), Bits(q), ByteBits(ETX), i, w);
  }

  /** A payload hit by one burst of at most sixteen bits is dropped with its frame, wherever the burst lies. */
  lemma BurstIsDropped(r: Rx, p: seq<Byte>, q: seq<Byte>, i: nat)
    requires InStep(r) && |p| == |q| && Burst(XorBits(Bits(p), Bits(q)), i, 16)
    ensures var f := [DLE, STX] + Stuff(q) + Tail(p); Silent(r, f) && FeedAll(r, f) == Rx(IGNORE, [], Lo(Check(p)))
  {
    hide Stuff, Crc16.Crc;
    BurstUnderCheck(p, q, i, 16);
    Crc16.BurstsAreDetected(p + [ETX], q + [ETX], i);
    DamagedIsDropped(r, p, q, Lo(Check(p)), Hi(Check(p)));
    assert Framed(q, Lo(Check(p)), Hi(Check(p))) == [DLE, STX] + Stuff(q) + Tail(p);
  }

  /** So is one in which at most two adjacent bytes are wrong, and one with a wrong check. */
  lemma AdjacentBytesAreDropped(r: Rx, p: seq<Byte>, q: seq<Byte>, k: nat)
    requires InStep(r) && |p| == |q| && p != q && forall j | 0 <= j < |p| && j != k && j != k + 1 :: p[j] == q[j]
    ensures var f := [DLE, STX] + Stuff(q) + Tail(p); Silent(r, f) && FeedAll(r, f) == Rx(IGNORE, [], Lo(Check(p)))
  {
    hide Stuff, Crc16.Crc;
    assert p == (p + [ETX])[..|p|] && q == (q + [ETX])[..|q|];
    Crc16.AdjacentBytesAreDetected(p + [ETX], q + [ETX], k);
    DamagedIsDropped(r, p, q, Lo(Check(p)), Hi(Check(p)));
    assert Framed(q, Lo(Check(p)), Hi(Check(p))) == [DLE, STX] + Stuff(q) + Tail(p);
  }

  /** An attempt that reads a damaged frame in step, and nothing more, gets no response, however it is cut. */
  lemma NoDamagedResponse(r: Rx, p: seq<Byte>, q: seq<Byte>, lo: Byte, hi: Byte, noise: seq<Byte>, chunks: seq<seq<Byte>>)
    requires Damaged(p, q, lo, hi) && Silent(FRESH, noise) && InStep(FeedAll(FRESH, noise))
    requires Flatten(chunks) == noise + Framed(q, lo, hi)
    ensures Attempt(r, Sent(chunks)).1 == NoResp
  {
    hide Framed, Damaged, Receive;
    AttemptIsFresh(r, Sent(chunks));
    DamagedIsDropped(FeedAll(FRESH, noise), p, q, lo, hi);
    ReadJoined(noise, Framed(q, lo, hi), chunks);
    TakeSilent(FeedAll(FRESH, noise), Framed(q, lo, hi));
  }

  /** Before a response is complete, a receiver that is looking for a start holds nothing. */
  lemma {:induction false} NothingKept(s: seq<Byte>)
    requires Silent(FRESH, s)
    ensures var r := FeedAll(FRESH, s); r.state == IGNORE || r.state == ESCAPE2START ==> r.buf == []
    decreases |s|
  {
    hide Crc16.Crc;
    if s != [] {
      var n := |s| - 1;
      assert s[..|s|] == s;
      forall k | 0 <= k <= n ensures LastReturn(FRESH, s[..n][..k]) == 0 { assert s[..n][..k] == s[..k]; }
      NothingKept(s[..n]);
      NothingIsReturned(FeedAll(FRESH, s[..n]), s[n]);
    }
  }

  /** A byte that completes no message leaves nothing behind where the receiver goes back to look for a start. */
  lemma NothingIsReturned(r: Rx, c: Byte)
    requires Receive(r, c).1 == 0 && (r.state == IGNORE || r.state == ESCAPE2START ==> r.buf == [])
    ensures var m := Receive(r, c).0; m.state == IGNORE || m.state == ESCAPE2START ==> m.buf == []
  {
  }

  // ---- every response was sent ----

  predicate Ends(s: seq<Byte>, t: seq<Byte>) { |t| <= |s| && s[|s|-|t|..] == t }

  lemma EndsMore(s: seq<Byte>, t: seq<Byte>, c: Byte)
    requires Ends(s, t)
    ensures Ends(s + [c], t + [c])
  {
  }

  lemma EndsLess(s: seq<Byte>, a: seq<Byte>, b: seq<Byte>)
    requires Ends(s, a + b)
    ensures Ends(s, b)
  {
    assert s[|s|-|b|..] == s[|s|-|a + b|..][|a|..];
  }

  function Begun(p: seq<Byte>): seq<Byte> { [DLE, STX] + Stuff(p) }

  /** What has been read accounts for what the receiver has collected. */
  predicate Heard(r: Rx, s: seq<Byte>) {
    match r.state
    case IGNORE => true
    case ESCAPE2START => Ends(s, [DLE])
    case RECEIVING => Ends(s, Begun(r.buf))
    case ESCAPE => Ends(s, Begun(r.buf) + [DLE])
    case RXCRC1 => Closed(r.buf) && Ends(s, Begun(r.buf[..|r.buf|-1]) + [DLE, ETX])
    case RXCRC2 => Closed(r.buf) && Ends(s, Begun(r.buf[..|r.buf|-1]) + [DLE, ETX] + [r.b])
  }

  predicate Closed(buf: seq<Byte>) { buf != [] && buf[|buf|-1] == ETX }

  lemma BegunMore(p: seq<Byte>, c: Byte)
    ensures Begun(p + [c]) == Begun(p) + StuffByte(c)
  {
    assert (p + [c])[..|p|] == p;
  }

  lemma HeardNext(r: Rx, s: seq<Byte>, c: Byte)
    requires Heard(r, s)
    ensures var n := Receive(r, c);
            && Heard(n.0, s + [c])
            && (n.1 != 0 ==> Closed(n.0.buf) && Ends(s + [c], Frame(n.0.buf[..|n.0.buf|-1])))
  {
    hide Begun, Crc16.Crc, Joined, Frame, StuffByte;
    match r.state {
      case IGNORE => EndsMore(s, [], c);
      case ESCAPE2START => EndsMore(s, [DLE], c); NothingBegun();
      case RECEIVING => EndsMore(s, Begun(r.buf), c); BegunMore(r.buf, c); StuffByteIs(c);
      case ESCAPE =>
        EndsMore(s, Begun(r.buf) + [DLE], c);
        EscapeNext(r, s, c);
      case RXCRC1 =>
        EndsMore(s, Begun(r.buf[..|r.buf|-1]) + [DLE, ETX], c);
      case RXCRC2 =>
        EndsMore(s, Begun(r.buf[..|r.buf|-1]) + [DLE, ETX] + [r.b], c);
        assert r.buf[..|r.buf|-1] + [ETX] == r.buf;
        if Crc16.Crc(r.buf) == Joined(c, r.b) { FrameFound(r.buf[..|r.buf|-1], r.b, c); }
    }
  }

  lemma NothingBegun()
    ensures Begun([]) == [DLE, STX]
  {
  }

  lemma StuffByteIs(c: Byte)
    ensures StuffByte(c) == if c == DLE then [DLE, DLE] else [c]
  {
  }

  lemma EscapeNext(r: Rx, s: seq<Byte>, c: Byte)
    requires r.state == ESCAPE && Ends(s + [c], Begun(r.buf) + [DLE] + [c])
    ensures Heard(Receive(r, c).0, s + [c])
  {
    hide Begun;
    assert Begun(r.buf) + [DLE] + [c] == Begun(r.buf) + [DLE, c];
    EndsLess(s + [c], Begun(r.buf), [DLE, c]);
    NothingBegun();
    BegunMore(r.buf, DLE);
    assert (r.buf + [ETX])[..|r.buf|] == r.buf;
  }

  lemma FrameFound(p: seq<Byte>, lo: Byte, hi: Byte)
    requires Crc16.Crc(p + [ETX]) == Joined(hi, lo)
    ensures Begun(p) + [DLE, ETX] + [lo] + [hi] == Frame(p)
  {
    hide Crc16.Crc, Joined, Lo, Hi, Stuff;
    JoinedIsCheck(lo, hi, Check(p));
  }

  lemma {:induction false} TakeIsFramed(r: Rx, before: seq<Byte>, s: seq<Byte>) returns (n: nat)
    requires Heard(r, before) && Take(r, s).1
    ensures var buf := Take(r, s).0.buf; n <= |s| && Closed(buf) && Ends(before + s[..n], Frame(buf[..|buf|-1]))
    decreases |s|
  {
    hide Receive, Heard, Frame, Ends;
    HeardNext(r, before, s[0]);
    var m := Receive(r, s[0]);
    if m.1 != 0 {
      n := 1;
      assert s[..1] == [s[0]];
    } else {
      n := TakeIsFramed(m.0, before + [s[0]], s[1..]);
      assert before + [s[0]] + s[1..][..n] == before + s[..n+1];
      n := n + 1;
    }
  }

  /** The data of a response are a payload and ETX, and the frame of that payload, with its right check, stands
      in what the attempt read. */
  ghost predicate Carried(input: seq<Byte>, data: seq<Byte>) {
    Closed(data) && exists k :: 0 <= k <= |input| && Ends(input[..k], Frame(data[..|data|-1]))
  }

  /** Whatever noise, damage and fragments an attempt reads, a response is a whole frame that was read. */
  lemma ResponseIsAFrame(r: Rx, chunks: seq<seq<Byte>>)
    ensures var a := Attempt(r, Sent(chunks)).1; a.Response? ==> Carried(Flatten(chunks), a.data)
  {
    hide Receive, Frame;
    var a, input := Attempt(r, Sent(chunks)).1, Flatten(chunks);
    ChunksDoNotMatter(Reset(r), chunks);
    if a.Response? {
      var n := TakeIsFramed(Reset(r), [], input);
      assert [] + input[..n] == input[..n];
    }
  }

  ghost predicate CarriedBy(t: Try, data: seq<Byte>) { t.Sent? && Carried(Flatten(t.chunks), data) }

  /** So is the response of a command, from one of its attempts. */
  lemma CommandAnswersWithAFrame(r: Rx, tries: seq<Try>)
    ensures var a := Command(r, tries, NoResp).1;
            a.Response? ==> exists t :: t in tries && CarriedBy(t, a.data)
  {
    hide Carried;
    var a := Command(r, tries, NoResp).1;
    FirstResponseWins(r, tries, NoResp);
    if a.Response? {
      var i :| 0 <= i < |tries| && Attempt(FRESH, tries[i]).1 == a;
      ResponseIsAFrame(FRESH, tries[i].chunks);
      assert tries[i] in tries && CarriedBy(tries[i], a.data);
    }
  }
}
