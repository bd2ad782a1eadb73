/** The antenna's buffers: the frame is built and taken apart in place, byte by byte. */
module AntennaDevice {
  import opened LinearRegister
  import Crc16
  import opened AntennaLink
  import opened AntennaAttempts

  const TX_BUF_SIZE: nat := 128
  const RX_BUF_SIZE: nat := 128

  /** Whether the receiver stores a byte. */
  predicate Stores(r: Rx, c: Byte) {
    (r.state == RECEIVING && c != DLE) || (r.state == ESCAPE && (c == ETX || c == DLE))
  }

  /** There is room in the buffer for every byte of a chunk that is stored before a message is complete. */
  predicate RoomFor(r: Rx, s: seq<Byte>)
    decreases |s|
  {
    s != [] ==>
      && (Stores(r, s[0]) ==> |r.buf| < RX_BUF_SIZE)
      && var t := Receive(r, s[0]); (t.1 == 0 ==> RoomFor(t.0, s[1..]))
  }

  /** The same for the chunks of one read, and for the attempts of a command. */
  predicate RoomForChunks(r: Rx, chunks: seq<seq<Byte>>)
    decreases |chunks|
  {
    chunks != [] ==>
      && RoomFor(r, chunks[0])
      && var t := Take(r, chunks[0]); (!t.1 ==> RoomForChunks(t.0, chunks[1..]))
  }

  predicate RoomForTries(r: Rx, tries: seq<Try>)
    decreases |tries|
  {
    tries != [] ==>
      && (tries[0].Sent? ==> RoomForChunks(Reset(r), tries[0].chunks))
      && var a := Attempt(r, tries[0]); (!a.1.Response? ==> RoomForTries(a.0, tries[1..]))
  }

  class Antenna {
    const rxBuff: array<Byte>
    const txBuff: array<Byte>
    var RxNum: nat
    var rxState: RxState
    var firstCheckByte: Byte
    var TxNum: nat

    ghost predicate Valid()
      reads this, rxBuff
    {
      rxBuff != txBuff && rxBuff.Length == RX_BUF_SIZE && txBuff.Length == TX_BUF_SIZE && RxNum <= RX_BUF_SIZE
    }

    ghost function View(): Rx
      requires Valid()
      reads this, rxBuff
    {
      Rx(rxState, rxBuff[..RxNum], firstCheckByte)
    }

    constructor ()
      ensures Valid() && fresh(rxBuff) && fresh(txBuff) && View() == Rx(IGNORE, [], 0)
    {
      rxBuff := new Byte[RX_BUF_SIZE](i => 0);
      txBuff := new Byte[TX_BUF_SIZE](i => 0);
      RxNum, rxState, firstCheckByte, TxNum := 0, IGNORE, 0, 0;
    }

    // ---- receiving ----

    method ClearRx()
      requires Valid()
      modifies this`RxNum, rxBuff
      ensures Valid() && RxNum == 0
    {
      forall i | 0 <= i < rxBuff.Length { rxBuff[i] := 0; }
      RxNum := 0;
    }

    method Store(c: Byte)
      requires Valid() && RxNum < RX_BUF_SIZE
      modifies this`RxNum, rxBuff
      ensures Valid() && RxNum == old(RxNum) + 1 && rxBuff[..RxNum] == old(rxBuff[..RxNum]) + [c]
    {
      rxBuff[RxNum] := c;
      RxNum := RxNum + 1;
    }

    method ResetState()
      requires Valid()
      modifies this`RxNum, this`rxState, rxBuff
      ensures Valid() && View() == Reset(old(View()))
    {
      rxState := IGNORE;
      ClearRx();
    }

    method HandleEscape2StartState(c: Byte)
      requires Valid() && rxState == ESCAPE2START
      modifies this`RxNum, this`rxState, rxBuff
      ensures Valid() && View() == Receive(old(View()), c).0
    {
      if c == STX {
        rxState := RECEIVING;
        ClearRx();
      } else {
        ResetState();
      }
    }

    method HandleReceivingState(c: Byte)
      requires Valid() && rxState == RECEIVING && (c != DLE ==> RxNum < RX_BUF_SIZE)
      modifies this`RxNum, this`rxState, rxBuff
      ensures Valid() && View() == Receive(old(View()), c).0
    {
      if c == DLE { rxState := ESCAPE; } else { Store(c); }
    }

    method HandleEscapeState(c: Byte)
      requires Valid() && rxState == ESCAPE && (c == ETX || c == DLE ==> RxNum < RX_BUF_SIZE)
      modifies this`RxNum, this`rxState, rxBuff
      ensures Valid() && View() == Receive(old(View()), c).0
    {
      if c == STX {
        rxState := RECEIVING;
        ClearRx();
      } else if c == ETX {
        Store(c);
        rxState := RXCRC1;
      } else if c == DLE {
        Store(c);
        rxState := RECEIVING;
      } else {
        ResetState();
      }
    }

    method HandleRXCRC2State(c: Byte) returns (ret: nat)
      requires Valid() && rxState == RXCRC2
      modifies this`RxNum, this`rxState, rxBuff
      ensures Valid() && (View(), ret) == Receive(old(View()), c)
    {
      ghost var r := View();
      var good := CheckMatches(c);
      rxState := IGNORE;
      if good {
        ret := RxNum;
        assert View() == r.(state := IGNORE);
      } else {
        ResetState();
        ret := 0;
      }
    }

    /** Whether the two check bytes are those of the bytes collected. */
    method CheckMatches(c: Byte) returns (good: bool)
      requires Valid()
      ensures good == (Crc16.Crc(rxBuff[..RxNum]) == Joined(c, firstCheckByte))
    {
      var rxcrc := Crc16.CalculateCheck(rxBuff, RxNum);
      good := rxcrc == Joined(c, firstCheckByte);
    }

    /** One byte; a byte that is stored needs room for it. */
    method ReceiveRxDataByte(c: Byte) returns (ret: nat)
      requires Valid() && (Stores(View(), c) ==> RxNum < RX_BUF_SIZE)
      modifies this`RxNum, this`rxState, this`firstCheckByte, rxBuff
      ensures Valid() && (View(), ret) == Receive(old(View()), c)
    {
      ret := 0;
      match rxState {
        case IGNORE => if c == DLE { rxState := ESCAPE2START; }
        case ESCAPE2START => HandleEscape2StartState(c);
        case RECEIVING => HandleReceivingState(c);
        case ESCAPE => HandleEscapeState(c);
        case RXCRC1 =>
          firstCheckByte := c;
          rxState := RXCRC2;
        case RXCRC2 => ret := HandleRXCRC2State(c);
      }
    }

    /** One chunk of input: reading stops at the byte that completes a message. */
    method ResponseIsComplete(buffer: seq<Byte>) returns (done: bool)
      requires Valid() && RoomFor(View(), buffer)
      modifies this`RxNum, this`rxState, this`firstCheckByte, rxBuff
      ensures Valid() && (View(), done) == Take(old(View()), buffer)
    {
      var i := 0;
      assert buffer[0..] == buffer;
      while i < |buffer|
        invariant 0 <= i <= |buffer| && Valid() && RoomFor(View(), buffer[i..])
        invariant Take(View(), buffer[i..]) == Take(old(View()), buffer)
      {
        assert buffer[i..][0] == buffer[i] && buffer[i..][1..] == buffer[i+1..];
        var ret := ReceiveRxDataByte(buffer[i]);
        i := i + 1;
        if ret != 0 { return true; }
      }
      done := false;
    }

    /** Reads chunks until a response is complete; when there are no more, the receiver is reset. */
    method ReadWithTimeout(chunks: seq<seq<Byte>>) returns (answer: Answer)
      requires Valid() && RoomForChunks(View(), chunks)
      modifies this`RxNum, this`rxState, this`firstCheckByte, rxBuff
      ensures Valid() && (View(), answer) == Read(old(View()), chunks)
    {
      hide RoomFor, Take;
      var i := 0;
      assert chunks[0..] == chunks;
      while i < |chunks|
        invariant 0 <= i <= |chunks| && Valid() && RoomForChunks(View(), chunks[i..])
        invariant Read(View(), chunks[i..]) == Read(old(View()), chunks)
      {
        assert chunks[i..][0] == chunks[i] && chunks[i..][1..] == chunks[i+1..];
        var done := ResponseIsComplete(chunks[i]);
        i := i + 1;
        if done { return Response(rxBuff[..RxNum]); }
      }
      ResetState();
      answer := NoResp;
    }

    /** Sends a command up to maxRetry times again, given what comes of each attempt on the line. */
    method SendCommand(maxRetry: int, tries: seq<Try>) returns (answer: Answer)
      requires Valid() && RoomForTries(View(), tries) && |tries| == if maxRetry < 0 then 0 else maxRetry + 1
      modifies this`RxNum, this`rxState, this`firstCheckByte, rxBuff
      ensures Valid() && (View(), answer) == Command(old(View()), tries, NoResp)
    {
      hide RoomForChunks, Read;
      answer := NoResp;
      var attempt := 0;
      assert tries[0..] == tries;
      while attempt <= maxRetry
        invariant 0 <= attempt <= |tries| && Valid() && !answer.Response? && RoomForTries(View(), tries[attempt..])
        invariant Command(View(), tries[attempt..], answer) == Command(old(View()), tries, NoResp)
      {
        assert tries[attempt..][0] == tries[attempt] && tries[attempt..][1..] == tries[attempt+1..];
        ResetState();
        match tries[attempt] {
          case Unsent => answer := SendFailed;
          case Sent(chunks) => answer := ReadWithTimeout(chunks);
        }
        attempt := attempt + 1;
        if answer.Response? { return; }
      }
    }

    // ---- sending ----

    method PutByte(value: Byte) returns (ok: bool)
      requires Valid() && TxNum <= TX_BUF_SIZE
      modifies this`TxNum, txBuff
      ensures ok == (old(TxNum) < TX_BUF_SIZE) && TxNum <= TX_BUF_SIZE
      ensures ok ==> TxNum == old(TxNum) + 1 && txBuff[..TxNum] == old(txBuff[..TxNum]) + [value]
      ensures !ok ==> TxNum == old(TxNum) && txBuff[..TxNum] == old(txBuff[..TxNum])
    {
      if TxNum >= TX_BUF_SIZE { return false; }
      txBuff[TxNum] := value;
      TxNum := TxNum + 1;
      ok := true;
    }

    /** Two bytes, or as many as fit. */
    method PutTwo(x: Byte, y: Byte) returns (ok: bool)
      requires Valid() && TxNum <= TX_BUF_SIZE
      modifies this`TxNum, txBuff
      ensures ok == (old(TxNum) + 2 <= TX_BUF_SIZE) && TxNum <= TX_BUF_SIZE
      ensures ok ==> TxNum == old(TxNum) + 2 && txBuff[..TxNum] == old(txBuff[..TxNum]) + [x, y]
    {
      ok := PutByte(x);
      if ok { ok := PutByte(y); }
    }

    method PutPayload(data: array<Byte>) returns (ok: bool)
      requires Valid() && TxNum <= TX_BUF_SIZE && data != txBuff
      modifies this`TxNum, txBuff
      ensures ok == (old(TxNum) + |Stuff(data[..])| <= TX_BUF_SIZE) && TxNum <= TX_BUF_SIZE
      ensures ok ==> txBuff[..TxNum] == old(txBuff[..TxNum]) + Stuff(data[..])
    {
      hide Stuff;
      var k := 0;
      NothingStuffed(data[..0]);
      while k < data.Length
        invariant 0 <= k <= data.Length && TxNum == old(TxNum) + |Stuff(data[..k])| <= TX_BUF_SIZE
        invariant txBuff[..TxNum] == old(txBuff[..TxNum]) + Stuff(data[..k])
      {
        assert data[..][..k+1] == data[..k+1] && data[..][..k] == data[..k];
        StuffMore(data[..], k);
        StuffGrows(data[..], k + 1);
        if data[k] == DLE { ok := PutTwo(DLE, DLE); } else { ok := PutByte(data[k]); }
        if !ok { return; }
        k := k + 1;
      }
      assert data[..k] == data[..];
      ok := true;
    }

    /** The check of a payload, over a copy with the end-of-text byte added. */
    method CheckOf(data: array<Byte>) returns (crc: bv16)
      requires data.Length < 255
      ensures crc == Check(data[..])
    {
      var checked := new Byte[data.Length + 1];
      var n := 0;
      while n < data.Length
        invariant 0 <= n <= data.Length && checked[..n] == data[..n]
      {
        checked[n] := data[n];
        n := n + 1;
      }
      checked[data.Length] := ETX;
      assert checked[..data.Length + 1] == data[..] + [ETX];
      crc := Crc16.CalculateCheck(checked, data.Length + 1);
    }

    /** Builds the frame of a payload in the transmit buffer; fails exactly when it does not fit. */
    method BuildFrame(data: array<Byte>) returns (ok: bool)
      requires Valid() && data != txBuff
      modifies this`TxNum, txBuff
      ensures ok == (|Frame(data[..])| <= TX_BUF_SIZE)
      ensures ok ==> TxNum <= TX_BUF_SIZE && txBuff[..TxNum] == Frame(data[..])
    {
      hide Check, Stuff;
      forall i | 0 <= i < txBuff.Length { txBuff[i] := 0; }
      TxNum := 0;
      ok := PutTwo(DLE, STX);
      ok := PutPayload(data);
      if !ok { return; }
      ok := PutTwo(DLE, ETX);
      if !ok { return; }
      StuffGrows(data[..], 0);
      var crc := CheckOf(data);
      ok := PutTwo(Lo(crc), Hi(crc));
    }
  }

  lemma OneByteMore(r: Rx, c: Byte)
    ensures |Receive(r, c).0.buf| <= |r.buf| + 1
  {
  }

  /** Whatever the receiver is doing, a chunk no longer than the free space has room. */
  lemma {:induction false} ShortChunkHasRoom(r: Rx, s: seq<Byte>)
    requires |r.buf| + |s| <= RX_BUF_SIZE
    ensures RoomFor(r, s)
    decreases |s|
  {
    if s != [] {
      OneByteMore(r, s[0]);
      ShortChunkHasRoom(Receive(r, s[0]).0, s[1..]);
    }
  }

  lemma {:induction false} TakeGrows(r: Rx, s: seq<Byte>)
    ensures |Take(r, s).0.buf| <= |r.buf| + |s|
    decreases |s|
  {
    if s != [] {
      OneByteMore(r, s[0]);
      TakeGrows(Receive(r, s[0]).0, s[1..]);
    }
  }

  /** So has a read of no more bytes than the buffer holds, in however many chunks. */
  lemma {:induction false} ShortReadHasRoom(r: Rx, chunks: seq<seq<Byte>>)
    requires |r.buf| + |Flatten(chunks)| <= RX_BUF_SIZE
    ensures RoomForChunks(r, chunks)
    decreases |chunks|
  {
    hide RoomFor, Take;
    if chunks != [] {
      ShortChunkHasRoom(r, chunks[0]);
      TakeGrows(r, chunks[0]);
      if !Take(r, chunks[0]).1 { ShortReadHasRoom(Take(r, chunks[0]).0, chunks[1..]); }
    }
  }

  lemma NothingStuffed(p: seq<Byte>)
    requires p == []
    ensures Stuff(p) == []
  {
  }

  lemma StuffMore(p: seq<Byte>, k: nat)
    requires k < |p|
    ensures Stuff(p[..k+1]) == Stuff(p[..k]) + StuffByte(p[k])
  {
    assert p[..k+1][..k] == p[..k];
  }

  /** Stuffing never shortens, and a longer payload never has a shorter stuffing. */
  lemma {:induction false} StuffGrows(p: seq<Byte>, k: nat)
    requires k <= |p|
    ensures |p| <= |Stuff(p)| && |Stuff(p[..k])| <= |Stuff(p)|
    decreases |p|
  {
    if p == [] {
    } else if k == |p| {
      assert p[..k] == p;
      StuffGrows(p[..|p|-1], 0);
    } else {
      assert p[..|p|-1][..k] == p[..k];
      StuffGrows(p[..|p|-1], k);
    }
  }
}
