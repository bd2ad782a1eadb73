/** The attempts of a command to the antenna: each sends the request afresh and reads with the receiver reset. */
module AntennaAttempts {
  import opened LinearRegister
  import opened AntennaLink

  /** What comes of a command: the bytes of the response, or why there are none. */
  datatype Answer = Response(data: seq<Byte>) | NoResp | SendFailed

  /** One attempt: the request could not be sent, or these chunks were read until a response was complete,
      the time was over or the port failed. */
  datatype Try = Unsent | Sent(chunks: seq<seq<Byte>>)

  /** Reading until a response is complete; without one the receiver is reset. */
  function Read(r: Rx, chunks: seq<seq<Byte>>): (Rx, Answer) {
    var t := ReadChunks(r, chunks);
    if t.1 then (t.0, Response(t.0.buf)) else (Reset(t.0), NoResp)
  }

  function Attempt(r: Rx, t: Try): (Rx, Answer) {
    match t
    case Unsent => (Reset(r), SendFailed)
    case Sent(chunks) => Read(Reset(r), chunks)
  }

  /** The attempts up to the first response; last is what the attempts before came to. */
  function Command(r: Rx, tries: seq<Try>, last: Answer): (Rx, Answer)
    decreases |tries|
  {
    if tries == [] then (r, last)
    else
      var a := Attempt(r, tries[0]);
      if a.1.Response? then a else Command(a.0, tries[1..], a.1)
  }

  // ---- what a receiver was doing before does not matter ----

  const FRESH := Rx(IGNORE, [], 0)

  /** Receivers that differ at most in a check byte that is not in use. */
  predicate Alike(r: Rx, q: Rx) {
    r.state == q.state && r.buf == q.buf && (r.state == RXCRC2 ==> r.b == q.b)
  }

  lemma ReceiveAlike(r: Rx, q: Rx, c: Byte)
    requires Alike(r, q)
    ensures Alike(Receive(r, c).0, Receive(q, c).0) && Receive(r, c).1 == Receive(q, c).1
  {
  }

  lemma {:induction false} TakeAlike(r: Rx, q: Rx, s: seq<Byte>)
    requires Alike(r, q)
    ensures Alike(Take(r, s).0, Take(q, s).0) && Take(r, s).1 == Take(q, s).1
    decreases |s|
  {
    hide Receive;
    if s != [] {
      ReceiveAlike(r, q, s[0]);
      TakeAlike(Receive(r, s[0]).0, Receive(q, s[0]).0, s[1..]);
    }
  }

  /** What an attempt comes to depends on nothing read before it. */
  lemma AttemptIsFresh(r: Rx, t: Try)
    ensures Attempt(r, t).1 == Attempt(FRESH, t).1
  {
    if t.Sent? {
      ChunksDoNotMatter(Reset(r), t.chunks);
      ChunksDoNotMatter(Reset(FRESH), t.chunks);
      TakeAlike(Reset(r), Reset(FRESH), Flatten(t.chunks));
    }
  }

  /** The first attempt that would get a response on its own decides the command, and if none would, the last. */
  lemma {:induction false} FirstResponseWins(r: Rx, tries: seq<Try>, last: Answer)
    requires !last.Response?
    ensures var a := Command(r, tries, last).1;
            if a.Response?
            then exists i :: 0 <= i < |tries| && Attempt(FRESH, tries[i]).1 == a
                             && forall j | 0 <= j < i :: !Attempt(FRESH, tries[j]).1.Response?
            else a == (if tries == [] then last else Attempt(FRESH, tries[|tries|-1]).1)
                 && forall j | 0 <= j < |tries| :: !Attempt(FRESH, tries[j]).1.Response?
    decreases |tries|
  {
    hide Attempt;
    if tries != [] {
      AttemptIsFresh(r, tries[0]);
      var a := Attempt(r, tries[0]);
      if !a.1.Response? {
        FirstResponseWins(a.0, tries[1..], a.1);
        assert forall j | 1 <= j < |tries| :: tries[1..][j-1] == tries[j];
        if Command(r, tries, last).1.Response? {
          var i :| 0 <= i < |tries| - 1 && Attempt(FRESH, tries[1..][i]).1 == Command(a.0, tries[1..], a.1).1
                   && forall j | 0 <= j < i :: !Attempt(FRESH, tries[1..][j]).1.Response?;
          assert tries[i+1] == tries[1..][i];
        }
      }
    }
  }

  /** A command without a response says whether its last request could be sent. */
  lemma FailureTells(r: Rx, tries: seq<Try>)
    requires tries != []
    ensures var a := Command(r, tries, NoResp).1;
            !a.Response? ==> a == if tries[|tries|-1].Unsent? then SendFailed else NoResp
  {
    hide Command;
    FirstResponseWins(r, tries, NoResp);
  }

  /** A command that fails leaves nothing behind: the receiver is as good as new. */
  lemma {:induction false} FailureLeavesNothing(r: Rx, tries: seq<Try>, last: Answer)
    requires tries != [] || Alike(r, FRESH)
    ensures var a := Command(r, tries, last); !a.1.Response? ==> Alike(a.0, FRESH)
    decreases |tries|
  {
    if tries != [] {
      var a := Attempt(r, tries[0]);
      if !a.1.Response? { FailureLeavesNothing(a.0, tries[1..], a.1); }
    }
  }

  // ---- when a response is taken ----

  lemma ReadJoined(noise: seq<Byte>, s: seq<Byte>, chunks: seq<seq<Byte>>)
    requires Silent(FRESH, noise) && Flatten(chunks) == noise + s
    ensures Read(FRESH, chunks).1 ==
            (var t := Take(FeedAll(FRESH, noise), s); if t.1 then Response(t.0.buf) else NoResp)
  {
    ChunksDoNotMatter(FRESH, chunks);
    TakeSilent(FRESH, noise);
    TakeSplit(FRESH, noise, s);
  }

  lemma TakenIsResponse(m: Rx, p: seq<Byte>)
    requires Taken(m, p)
    ensures var t := Take(m, Frame(p)); t.1 && t.0.buf == p + [ETX]
    ensures !Take(m, Frame(p)[..|Frame(p)|-1]).1
  {
    hide Frame, Receive;
    var f := Frame(p);
    var n := |f| - 1;
    assert f == f[..n] + [f[n]];
    TakeSilent(m, f[..n]);
    TakeSplit(m, f[..n], [f[n]]);
  }

  lemma {:induction false} NotTakenIsSilent(m: Rx, s: seq<Byte>)
    requires !Take(m, s).1
    ensures Silent(m, s)
    decreases |s|
  {
    if s != [] {
      var n := |s| - 1;
      assert s == s[..n] + [s[n]];
      TakeSplit(m, s[..n], [s[n]]);
      NotTakenIsSilent(m, s[..n]);
      TakeSilent(m, s[..n]);
      FeedOne(FeedAll(m, s[..n]), s[n]);
      SilentJoin(m, s[..n], [s[n]]);
    }
  }

  /** The last byte of the frame completes the response. */
  ghost predicate Answers(noise: seq<Byte>, p: seq<Byte>) {
    && (forall chunks | Flatten(chunks) == noise + Frame(p) :: Attempt(FRESH, Sent(chunks)).1 == Response(p + [ETX]))
    && (forall chunks | Flatten(chunks) == noise + Frame(p)[..|Frame(p)|-1] :: Attempt(FRESH, Sent(chunks)).1 == NoResp)
  }

  lemma OneChunk(s: seq<Byte>)
    ensures Flatten([s]) == s
  {
    assert [s][1..] == [] && s + [] == s;
  }

  lemma CompletedIsWhole(r: Rx, c: Byte)
    requires Receive(r, c).1 != 0
    ensures Receive(r, c).1 == |Receive(r, c).0.buf| && Receive(r, c).0.state == IGNORE
  {
  }

  lemma ResponseIsTaken(m: Rx, p: seq<Byte>)
    requires var t := Take(m, Frame(p)); t.1 && t.0.buf == p + [ETX]
    requires !Take(m, Frame(p)[..|Frame(p)|-1]).1
    ensures Taken(m, p)
  {
    hide Frame, Receive;
    var f := Frame(p);
    var n := |f| - 1;
    assert f == f[..n] + [f[n]];
    NotTakenIsSilent(m, f[..n]);
    TakeSilent(m, f[..n]);
    TakeSplit(m, f[..n], [f[n]]);
    CompletedIsWhole(FeedAll(m, f[..n]), f[n]);
  }

  /** A response is taken in an attempt exactly when whatever the attempt has read before it leaves the
      receiver in step. */
  lemma AnswersExactlyInStep(noise: seq<Byte>, p: seq<Byte>)
    requires Silent(FRESH, noise)
    ensures Answers(noise, p) <==> InStep(FeedAll(FRESH, noise))
  {
    hide Frame, Taken, InStep;
    var m, f := FeedAll(FRESH, noise), Frame(p);
    FrameNotEmpty(p);
    var front := f[..|f|-1];
    TakenExactlyInStep(m, p);
    forall chunks | Flatten(chunks) == noise + f ensures
      Attempt(FRESH, Sent(chunks)).1 == (var t := Take(m, f); if t.1 then Response(t.0.buf) else NoResp) {
      ReadJoined(noise, f, chunks);
    }
    forall chunks | Flatten(chunks) == noise + front ensures
      Attempt(FRESH, Sent(chunks)).1 == (var t := Take(m, front); if t.1 then Response(t.0.buf) else NoResp) {
      ReadJoined(noise, front, chunks);
    }
    if InStep(m) {
      TakenIsResponse(m, p);
    } else if Answers(noise, p) {
      OneChunk(noise + f);
      OneChunk(noise + front);
      ResponseIsTaken(m, p);
      assert false;
    }
  }

  lemma FrameNotEmpty(p: seq<Byte>)
    ensures |Frame(p)| > 0
  {
  }

  /** With nothing before it a response is always taken, whatever earlier attempts have left. */
  lemma CleanAttempt(r: Rx, p: seq<Byte>, chunks: seq<seq<Byte>>)
    requires Flatten(chunks) == Frame(p)
    ensures Attempt(r, Sent(chunks)).1 == Response(p + [ETX])
  {
    ChunkedFrameIsRead(Reset(r), p, chunks);
  }

  /** So a command gets the response of its first clean attempt, if no earlier attempt got one. */
  lemma {:induction false} CommandGetsThrough(r: Rx, tries: seq<Try>, last: Answer, i: nat, p: seq<Byte>)
    requires i < |tries| && tries[i].Sent? && Flatten(tries[i].chunks) == Frame(p)
    requires forall j | 0 <= j < i :: !Attempt(FRESH, tries[j]).1.Response?
    ensures Command(r, tries, last).1 == Response(p + [ETX])
    decreases i
  {
    hide Frame, Attempt;
    AttemptIsFresh(r, tries[0]);
    if i == 0 {
      CleanAttempt(r, p, tries[0].chunks);
    } else {
      assert forall j | 1 <= j < |tries| :: tries[1..][j-1] == tries[j];
      CommandGetsThrough(Attempt(r, tries[0]).0, tries[1..], Attempt(r, tries[0]).1, i - 1, p);
    }
  }

  // ---- a stray start ----

  lemma StrayDle()
    ensures Silent(FRESH, [DLE]) && FeedAll(FRESH, [DLE]).state == ESCAPE2START
  {
    FeedOne(FRESH, DLE);
  }

  /** A stray DLE costs an attempt the frame after it; the frame after that is taken exactly when the check of
      the first is paired. */
  lemma NextAfterStrayDle(p: seq<Byte>, q: seq<Byte>)
    ensures !Answers([DLE], p)
    ensures Answers([DLE] + Frame(p), q) <==> CheckIsPaired(p)
  {
    hide Frame, Answers;
    StrayDle();
    AnswersExactlyInStep([DLE], p);
    StartMissed(FeedAll(FRESH, [DLE]), p);
    AntennaLink.FeedSplit(FRESH, [DLE], Frame(p));
    SilentJoin(FRESH, [DLE], Frame(p));
    AnswersExactlyInStep([DLE] + Frame(p), q);
  }

  /** With an unpaired check an attempt that reads a stray DLE first takes no repetition of the frame. */
  lemma StrayDleLosesRepetitions(r: Rx, p: seq<Byte>, n: nat, chunks: seq<seq<Byte>>)
    requires !CheckIsPaired(p) && Flatten(chunks) == [DLE] + Repeated(Frame(p), n)
    ensures Attempt(r, Sent(chunks)).1 == NoResp
  {
    hide Frame;
    AttemptIsFresh(r, Sent(chunks));
    StrayDle();
    ReadJoined([DLE], Repeated(Frame(p), n), chunks);
    NeverInStep(FeedAll(FRESH, [DLE]), p, n);
    TakeSilent(FeedAll(FRESH, [DLE]), Repeated(Frame(p), n));
  }
}
