/** Whole exchanges of the EEP session, callback by callback, and what keeps the session asking. */
module EepExchange {
  import opened Options
  import opened EepModel
  import opened EepInvariants

  // ---- message codes ----

  /** The commands that are requests. */
  predicate IsRequest(k: CmdType) { k !in {UNKNOWN_REQ, ACK, NAK, EEP_IDLE} }

  /** No two requests can be answered by the same message. */
  lemma AnswersTellRequestsApart(k: CmdType, l: CmdType, code: int, body0: Option<int>)
    requires IsRequest(k) && IsRequest(l) && Matches(k, code, body0) && Matches(l, code, body0)
    ensures k == l
  {
  }

  /** Every request can be refused (0x11) by name, is acknowledged (0x10) by name unless it has an answer of its
      own, and is neither refused nor acknowledged by the name of another; nothing else is answered. */
  lemma AnswersExactly(k: CmdType, code: int, body0: Option<int>)
    ensures !IsRequest(k) ==> !Matches(k, code, body0)
    ensures IsRequest(k) && code == 0x11 ==> (Matches(k, code, body0) <==> body0 == Some(RequestCode(k)))
    ensures IsRequest(k) && code == 0x10 ==>
              (Matches(k, code, body0) <==>
               body0 == Some(RequestCode(k)) && k !in {HEALTH_STATUS_REQ, WATCHDOG_REQ, START_REQ, STOP_REQ, DI_REQ,
                                                      DSRC_STATUS_REQ, TIME_CALIBRATION_REQ})
    ensures k in {START_REQ, STOP_REQ, DI_REQ, DSRC_STATUS_REQ, TIME_CALIBRATION_REQ} && code !in {0x10, 0x11} ==>
              (Matches(k, code, body0) <==> code == RequestCode(k) + 1)
    ensures code == 0x13 ==> (Matches(k, code, body0) <==> k == HEALTH_STATUS_REQ)
    ensures code == 0x15 ==> (Matches(k, code, body0) <==> k == WATCHDOG_REQ)
  {
  }

  /** A message that answers nothing awaited is acknowledged if it is one of the notifications and refused if it is
      not, whatever request it may complete. */
  lemma OthersAreReplied(s: Snap, code: int, seqNo: nat, body0: Option<int>)
    requires !Matches(s.requested, code, body0)
    ensures var r, n := GotMessage(s, code, seqNo, body0), |s.tasks|;
            && s.tasks < r.tasks
            && r.tasks[|r.tasks|-1] == Enqueue(if code in {0x60, 0x21, 0xF4, 0x31, 0x37, 0x53, 0xF2} then ACK else NAK, 0)
            && (r.tasks[n] == Post(RESPONSE_TIMER_CANCELLED_RSP_RECEIVED) <==> Completes(s.requested, code))
            && (Completes(s.requested, code) ==> Response !in r.armed)
  {
    hide Matches;
  }

  /** A late or repeated answer changes nothing, and a rejected frame is refused if it has a header to refuse. */
  lemma StaleIsIgnored(s: Snap, code: int, seqNo: nat, body0: Option<int>)
    requires Matches(s.requested, code, body0) && s.expected != Some(seqNo)
    ensures GotFrame(s, Message(code, seqNo, body0)) == s
    ensures GotFrame(s, Rejected(false)) == s && GotFrame(s, Rejected(true)) == s.(tasks := s.tasks + [Enqueue(NAK, 0)])
  {
    hide Matches;
  }

  /** The notifications that complete a request. */
  predicate Completes(k: CmdType, code: int) {
    || (code == 0x21 && k == GET_OBU_INFO_REQ) || (code == 0xF4 && (k == DEDUCT_REQ || k == TRANSACTION_REQ))
    || (code == 0x31 && k == CPO_INFO_DISPLAY_REQ) || (code == 0x37 && k == CARPARK_PROCESS_COMPLETE_REQ)
  }

  // ---- runs ----

  lemma RunOneMore(s: Snap, actions: seq<Action>, a: Action)
    ensures Run(s, actions + [a]) == Next(Run(s, actions), a)
  {
    assert (actions + [a])[..|actions|] == actions;
  }

  lemma RunTwo(s: Snap, a: Action, b: Action)
    ensures Run(s, [a, b]) == Next(Next(s, a), b)
  {
    assert [a, b] == [] + [a] + [b];
    RunOneMore(s, [], a);
    RunOneMore(s, [a], b);
  }

  lemma RunThree(s: Snap, a: Action, b: Action, c: Action)
    ensures Run(s, [a, b, c]) == Next(Next(Next(s, a), b), c)
  {
    assert [a, b, c] == [a, b] + [c];
    RunTwo(s, a, b);
    RunOneMore(s, [a, b], c);
  }

  lemma {:induction false} RunJoins(s: Snap, a: seq<Action>, b: seq<Action>)
    ensures Run(s, a + b) == Run(Run(s, a), b)
    decreases |b|
  {
    if b == [] {
      assert a + b == a;
    } else {
      var n := |b| - 1;
      assert (a + b)[..|a + b| - 1] == a + b[..n] && (a + b)[|a + b| - 1] == b[n];
      RunJoins(s, a, b[..n]);
    }
  }

  lemma Handles(m: Snap, t: Task, rest: seq<Task>, up: bool, ok: bool)
    requires m.tasks == [t] + rest
    ensures Next(m, RunTask(up, ok)) == Delivered(m.(tasks := rest), t, up, ok)
  {
    assert m.tasks[1..] == rest;
  }

  lemma Arrives(m: Snap, t: Task)
    requires m.tasks == [] && External(t)
    ensures Next(m, Arrive(t)) == m.(tasks := [t])
  {
  }

  lemma Fires(m: Snap, t: Timer)
    requires m.tasks == [] && t in m.armed
    ensures Next(m, Expire(t)) == m.(armed := m.armed - {t}, tasks := [Expired(t)])
  {
  }

  const GO := RunTask(true, true)

  // ---- looking for work ----

  /** A session told to look at its queue asks to write if a command waits, or to reconnect if the connection is
      lost, and looks again. */
  lemma LooksAtQueue(s: Snap, up: bool, ok: bool)
    requires s.state == State.CONNECTED
    ensures Processed(s, CHECK_COMMAND, up, ok).tasks ==
            s.tasks + (if !up then [Post(RECONNECT_REQUEST)] else if s.queue != [] then [Post(WRITE_COMMAND)] else []) + [Check]
  {
  }

  // ---- a request ----

  /** The session is about to send the most urgent command, a request, and has nothing else to do. */
  predicate Sends(s: Snap) {
    && !s.stopping && s.state == State.CONNECTED && s.tasks == [Post(WRITE_COMMAND)]
    && s.queue != [] && IsRequest(s.queue[Top(s.queue)].kind)
  }

  /** The request is on the line and its acknowledgement is waited for. */
  function Outstanding(s: Snap): Snap
    requires s.queue != []
  {
    var c := s.queue[Top(s.queue)];
    s.(state := WAITING_FOR_RESPONSE, tasks := [], armed := s.armed - {Send} + {Ack}, queue := Without(s.queue, Top(s.queue)),
       current := c.kind, requested := c.kind, expected := Some(s.seqNo), seqNo := (s.seqNo + 1) % SEQ_MOD,
       hist := s.hist.(dispatched := s.hist.dispatched + multiset{c}, prepared := s.hist.prepared + 1))
  }

  function SendRun(): seq<Action> { [GO, Arrive(Sent(true))] + [GO, GO] }

  /** The request is being written. */
  function Writing(s: Snap): Snap
    requires s.queue != []
  {
    var c := s.queue[Top(s.queue)];
    s.(state := WRITING_REQUEST, tasks := [], armed := s.armed + {Send}, queue := Without(s.queue, Top(s.queue)),
       current := c.kind, requested := c.kind, expected := Some(s.seqNo), seqNo := (s.seqNo + 1) % SEQ_MOD,
       hist := s.hist.(dispatched := s.hist.dispatched + multiset{c}, prepared := s.hist.prepared + 1))
  }

  lemma RequestWritten(s: Snap)
    requires Sends(s)
    ensures Delivered(s.(tasks := []), Post(WRITE_COMMAND), true, true) == Writing(s)
  {
    hide Top, Without;
  }

  lemma RequestGoesOut(s: Snap)
    requires Sends(s)
    ensures Run(s, SendRun()) == Outstanding(s)
  {
    hide Run, Top, Without, Next, Delivered;
    var m := Writing(s);
    Handles(s, Post(WRITE_COMMAND), [], true, true);
    RequestWritten(s);
    Arrives(m, Sent(true));
    RunTwo(s, GO, Arrive(Sent(true)));
    SentAndWaits(m.(tasks := [Sent(true)]));
    RunTwo(m.(tasks := [Sent(true)]), GO, GO);
    RunJoins(s, [GO, Arrive(Sent(true))], [GO, GO]);
    assert s.armed + {Send} - {Send} + {Ack} == s.armed - {Send} + {Ack};
  }

  lemma SentAndWaits(m: Snap)
    requires !m.stopping && m.tasks == [Sent(true)] && m.state == WRITING_REQUEST && !IsReply(m.current)
    ensures Next(Next(m, GO), GO) == m.(tasks := [], armed := m.armed - {Send} + {Ack}, state := WAITING_FOR_RESPONSE)
  {
    assert Next(m, GO).tasks == [Post(WRITE_COMPLETED)];
  }

  /** The answer is accepted, and the session is ready for the next command. */
  function Completed(m: Snap, code: int): Snap
    requires m.expected.Some?
  {
    Taken1(m, code).(state := State.CONNECTED, tasks := [Check])
  }

  function Taken1(m: Snap, code: int): Snap
    requires m.expected.Some?
  {
    m.(armed := m.armed - {Ack}, expected := None, missed := if code == 0x15 then 0 else m.missed,
       hist := m.hist.(accepts := m.hist.accepts + [Accept(m.hist.prepared, m.expected.value)]))
  }

  predicate Waits(m: Snap) { !m.stopping && m.state == WAITING_FOR_RESPONSE && m.tasks == [] && m.expected.Some? }

  function AnswerRun(code: int, seqNo: nat, body0: Option<int>): seq<Action> {
    [Arrive(Received(Message(code, seqNo, body0))), GO, GO]
  }

  lemma AnswerTaken(m: Snap, code: int, body0: Option<int>)
    requires Waits(m) && Matches(m.requested, code, body0)
    ensures GotMessage(m, code, m.expected.value, body0) ==
            Taken1(m, code).(tasks := [Post(if code == ACK_CODE && FollowUp(m.requested).Some?
                                            then ACK_TIMER_CANCELLED_ACK_RECEIVED else ACK_AS_RSP_RECEIVED)])
  {
    hide Matches;
  }

  lemma AnswerHandled(m: Snap)
    requires !m.stopping && m.state == WAITING_FOR_RESPONSE && m.tasks == []
    ensures Delivered(m, Post(ACK_AS_RSP_RECEIVED), true, true) == m.(state := State.CONNECTED, tasks := [Check])
    ensures Delivered(m, Post(ACK_TIMER_CANCELLED_ACK_RECEIVED), true, true) == m.(armed := m.armed + {Response})
    ensures Delivered(m, Post(RESPONSE_TIMER_CANCELLED_RSP_RECEIVED), true, true) == m.(state := State.CONNECTED, tasks := [Check])
  {
  }

  lemma FollowsUp(k: CmdType)
    ensures FollowUp(k).Some? <==> k in {GET_OBU_INFO_REQ, DEDUCT_REQ, TRANSACTION_REQ, CPO_INFO_DISPLAY_REQ,
                                         CARPARK_PROCESS_COMPLETE_REQ}
  {
  }

  /** An answer in time completes a request, except that an acknowledgement of a request that is completed by a
      notification starts the wait for that. */
  lemma AnswerInTime(m: Snap, code: int, body0: Option<int>)
    requires Waits(m) && IsRequest(m.requested) && Matches(m.requested, code, body0)
    ensures Run(m, AnswerRun(code, m.expected.value, body0)) ==
            if code == ACK_CODE && m.requested in {GET_OBU_INFO_REQ, DEDUCT_REQ, TRANSACTION_REQ, CPO_INFO_DISPLAY_REQ,
                                                  CARPARK_PROCESS_COMPLETE_REQ}
            then Taken1(m, code).(armed := m.armed - {Ack} + {Response})
            else Completed(m, code)
  {
    hide Run, Matches, Next, GotMessage, FollowUp, Processed;
    var n := m.expected.value;
    var f := Received(Message(code, n, body0));
    var r := Taken1(m, code);
    var e := if code == ACK_CODE && FollowUp(m.requested).Some? then ACK_TIMER_CANCELLED_ACK_RECEIVED else ACK_AS_RSP_RECEIVED;
    RunThree(m, Arrive(f), GO, GO);
    Arrives(m, f);
    Handles(m.(tasks := [f]), f, [], true, true);
    AnswerTaken(m, code, body0);
    Handles(r.(tasks := [Post(e)]), Post(e), [], true, true);
    AnswerHandled(r);
    FollowsUp(m.requested);
  }

  /** A request answered in time: from its dispatch to the session's readiness for the next, in five callbacks. */
  lemma RequestAnswered(s: Snap, code: int, body0: Option<int>)
    requires Sends(s) && Matches(s.queue[Top(s.queue)].kind, code, body0) && code != ACK_CODE
    ensures Run(s, SendRun() + AnswerRun(code, s.seqNo, body0)) == Completed(Outstanding(s), code)
  {
    hide Run, Matches, Top;
    RequestGoesOut(s);
    AnswerInTime(Outstanding(s), code, body0);
    RunJoins(s, SendRun(), AnswerRun(code, s.seqNo, body0));
  }

  /** The notification that a request waits for completes it and is acknowledged. */
  lemma NotificationInTime(m: Snap, code: int, seqNo: nat, body0: Option<int>)
    requires !m.stopping && m.state == WAITING_FOR_RESPONSE && m.tasks == [] && Completes(m.requested, code)
    ensures Run(m, AnswerRun(code, seqNo, body0)) ==
            m.(state := State.CONNECTED, armed := m.armed - {Response}, tasks := [Enqueue(ACK, 0), Check])
  {
    hide Run, Next, GotMessage, Processed;
    var f := Received(Message(code, seqNo, body0));
    var e := RESPONSE_TIMER_CANCELLED_RSP_RECEIVED;
    var r := m.(armed := m.armed - {Response});
    RunThree(m, Arrive(f), GO, GO);
    Arrives(m, f);
    Handles(m.(tasks := [f]), f, [], true, true);
    NotificationTaken(m, code, seqNo, body0);
    Handles(r.(tasks := [Post(e), Enqueue(ACK, 0)]), Post(e), [Enqueue(ACK, 0)], true, true);
    NotificationHandled(r);
  }

  lemma NotificationTaken(m: Snap, code: int, seqNo: nat, body0: Option<int>)
    requires m.tasks == [] && Completes(m.requested, code)
    ensures GotMessage(m, code, seqNo, body0) ==
            m.(armed := m.armed - {Response}, tasks := [Post(RESPONSE_TIMER_CANCELLED_RSP_RECEIVED), Enqueue(ACK, 0)])
  {
  }

  lemma NotificationHandled(m: Snap)
    requires !m.stopping && m.state == WAITING_FOR_RESPONSE
    ensures Delivered(m.(tasks := [Enqueue(ACK, 0)]), Post(RESPONSE_TIMER_CANCELLED_RSP_RECEIVED), true, true)
         == m.(state := State.CONNECTED, tasks := [Enqueue(ACK, 0), Check])
  {
  }

  // ---- a request that fails ----

  /** What the failure of a request does: a watchdog is counted, and the fourth in a row asks for a reconnect. */
  function Failed(m: Snap, k: CmdType): Snap {
    if k != WATCHDOG_REQ then m
    else if m.missed >= 3 then m.(missed := 0, tasks := m.tasks + [Post(RECONNECT_REQUEST)])
    else m.(missed := m.missed + 1)
  }

  /** A timer of the request expires: its callback and its event are handled. */
  function TimeoutRun(t: Timer, up: bool): seq<Action> { [Expire(t), RunTask(up, true), RunTask(up, true)] }

  function Lost(m: Snap, up: bool): Snap { if up then m else m.(tasks := m.tasks + [Post(RECONNECT_REQUEST)]) }

  /** A request that is not answered in time fails once, is not awaited any more, and the session is ready for the
      next command; a broken connection is noticed. */
  lemma AnswerTooLate(m: Snap, t: Timer, up: bool)
    requires !m.stopping && m.state == WAITING_FOR_RESPONSE && m.tasks == [] && t in m.armed && (t == Ack || t == Response)
    ensures var w := m.(armed := m.armed - {t}, expected := None);
            Run(m, TimeoutRun(t, up)) == (var r := Failed(if t == Ack then w else Lost(w, up), m.requested);
                                          r.(state := State.CONNECTED, tasks := r.tasks + [Check]))
  {
    hide Run, Next, Processed, TimedOut;
    var e := if t == Ack then ACK_TIMEOUT else RESPONSE_TIMEOUT;
    var r := m.(armed := m.armed - {t});
    RunThree(m, Expire(t), RunTask(up, true), RunTask(up, true));
    Fires(m, t);
    Handles(r.(tasks := [Expired(t)]), Expired(t), [], up, true);
    TimerPosts(r, t);
    Handles(r.(tasks := [Post(e)]), Post(e), [], up, true);
    TimeoutHandled(r, e, up);
  }

  lemma TimerPosts(m: Snap, t: Timer)
    requires m.tasks == [] && (t == Ack || t == Response || t == Send)
    ensures TimedOut(m, t) == m.(tasks := [Post(if t == Ack then ACK_TIMEOUT else if t == Response then RESPONSE_TIMEOUT else WRITE_TIMEOUT)])
  {
  }

  lemma TimeoutHandled(m: Snap, e: Event, up: bool)
    requires m.state == WAITING_FOR_RESPONSE && m.tasks == [] && (e == ACK_TIMEOUT || e == RESPONSE_TIMEOUT)
    ensures var w := m.(expected := None);
            Processed(m, e, up, true) == (var r := Failed(if e == ACK_TIMEOUT then w else Lost(w, up), m.requested);
                                          r.(state := State.CONNECTED, tasks := r.tasks + [Check]))
  {
  }

  /** So does a request whose packet cannot be sent in time. */
  lemma SentTooLate(m: Snap, up: bool)
    requires !m.stopping && m.state == WRITING_REQUEST && m.tasks == [] && Send in m.armed
    ensures Run(m, TimeoutRun(Send, up)) == (var r := Failed(Lost(m.(armed := m.armed - {Send}), up), m.requested);
                                             r.(state := State.CONNECTED, tasks := r.tasks + [Check]))
  {
    hide Run, Next, Processed, TimedOut;
    var r := m.(armed := m.armed - {Send});
    RunThree(m, Expire(Send), RunTask(up, true), RunTask(up, true));
    Fires(m, Send);
    Handles(r.(tasks := [Expired(Send)]), Expired(Send), [], up, true);
    TimerPosts(r, Send);
    Handles(r.(tasks := [Post(WRITE_TIMEOUT)]), Post(WRITE_TIMEOUT), [], up, true);
    WriteTimeoutHandled(r, up);
  }

  lemma WriteTimeoutHandled(m: Snap, up: bool)
    requires m.state == WRITING_REQUEST && m.tasks == []
    ensures Processed(m, WRITE_TIMEOUT, up, true) == (var r := Failed(Lost(m, up), m.requested);
                                                      r.(state := State.CONNECTED, tasks := r.tasks + [Check]))
  {
  }

  /** The command has left the queue, and its packet could not be built. */
  function Unbuilt(s: Snap): Snap
    requires s.queue != []
  {
    var c := s.queue[Top(s.queue)];
    s.(state := WRITING_REQUEST, tasks := [], armed := s.armed + {Send}, queue := Without(s.queue, Top(s.queue)),
       current := c.kind, requested := c.kind, hist := s.hist.(dispatched := s.hist.dispatched + multiset{c}))
  }

  lemma CannotBuild(s: Snap)
    requires Sends(s)
    ensures Delivered(s.(tasks := []), Post(WRITE_COMMAND), true, false) == Unbuilt(s).(tasks := [Post(WRITE_TIMEOUT)])
  {
    hide Top, Without;
  }

  /** A request whose packet cannot be built takes no number and fails once; the send timer stays armed. */
  lemma NotBuilt(s: Snap)
    requires Sends(s)
    ensures Run(s, [RunTask(true, false), GO]) == (var r := Failed(Unbuilt(s), s.queue[Top(s.queue)].kind);
                                                   r.(state := State.CONNECTED, tasks := r.tasks + [Check]))
  {
    hide Run, Top, Without, Next, Processed;
    RunTwo(s, RunTask(true, false), GO);
    Handles(s, Post(WRITE_COMMAND), [], true, false);
    CannotBuild(s);
    Handles(Unbuilt(s).(tasks := [Post(WRITE_TIMEOUT)]), Post(WRITE_TIMEOUT), [], true, true);
    WriteTimeoutHandled(Unbuilt(s), true);
  }

  /** A command given while there is no connection fails once and changes nothing else; so does one that another
      thread reports as failed. */
  lemma RejectedFails(s: Snap, k: CmdType, priority: int)
    ensures var c := Command(k, priority, s.cmdSeq);
            Enqueued(s, k, priority, false) ==
            Failed(s.(cmdSeq := s.cmdSeq + 1, hist := s.hist.(given := s.hist.given + multiset{c},
                                                              rejected := s.hist.rejected + multiset{c})), k)
    ensures !s.stopping ==> Delivered(s, Failure(k), false, false) == Failed(s, k)
  {
  }

  // ---- a reply ----

  /** An ACK or NAK goes out without disturbing the request that is awaited, and the session is ready again. */
  lemma ReplyGoesOut(s: Snap)
    requires !s.stopping && s.state == State.CONNECTED && s.tasks == [Post(WRITE_COMMAND)] && s.queue != []
    requires s.queue[Top(s.queue)].kind in {ACK, NAK}
    ensures var c := s.queue[Top(s.queue)];
            Run(s, SendRun() + [GO]) ==
            s.(tasks := [Check], armed := s.armed - {Send}, queue := Without(s.queue, Top(s.queue)), current := c.kind,
               hist := s.hist.(dispatched := s.hist.dispatched + multiset{c}))
  {
    hide Run, Top, Without, Next, Delivered;
    var c := s.queue[Top(s.queue)];
    var m := s.(state := WRITING_REQUEST, tasks := [], armed := s.armed + {Send}, queue := Without(s.queue, Top(s.queue)),
                current := c.kind, hist := s.hist.(dispatched := s.hist.dispatched + multiset{c}));
    Handles(s, Post(WRITE_COMMAND), [], true, true);
    ReplyWritten(s, m);
    Arrives(m, Sent(true));
    RunTwo(s, GO, Arrive(Sent(true)));
    var n := m.(tasks := [Sent(true)]);
    ReplySent(n);
    RunTwo(n, GO, GO);
    RunJoins(s, [GO, Arrive(Sent(true))], [GO, GO]);
    RunOneMore(s, SendRun(), GO);
    assert s.armed + {Send} - {Send} == s.armed - {Send};
  }

  lemma ReplyWritten(s: Snap, m: Snap)
    requires !s.stopping && s.state == State.CONNECTED && s.queue != [] && s.queue[Top(s.queue)].kind in {ACK, NAK}
    requires var c := s.queue[Top(s.queue)];
             m == s.(state := WRITING_REQUEST, tasks := [], armed := s.armed + {Send}, queue := Without(s.queue, Top(s.queue)),
                     current := c.kind, hist := s.hist.(dispatched := s.hist.dispatched + multiset{c}))
    ensures Delivered(s.(tasks := []), Post(WRITE_COMMAND), true, true) == m
  {
    hide Top, Without;
  }

  lemma ReplySent(m: Snap)
    requires !m.stopping && m.tasks == [Sent(true)] && m.state == WRITING_REQUEST && m.current in {ACK, NAK}
    ensures Next(Next(Next(m, GO), GO), GO) == m.(tasks := [Check], armed := m.armed - {Send}, state := State.CONNECTED)
  {
    hide Delivered;
    var r := m.(tasks := [], armed := m.armed - {Send});
    Handles(m, Sent(true), [], true, true);
    Handles(r.(tasks := [Post(WRITE_COMPLETED)]), Post(WRITE_COMPLETED), [], true, true);
    var w := r.(state := WAITING_FOR_RESPONSE);
    Handles(w.(tasks := [Post(UNSOLICITED_REQUEST_DONE)]), Post(UNSOLICITED_REQUEST_DONE), [], true, true);
    ReplyEvents(m, r, w);
  }

  lemma ReplyEvents(m: Snap, r: Snap, w: Snap)
    requires !m.stopping && m.state == WRITING_REQUEST && m.current in {ACK, NAK}
    requires r == m.(tasks := [], armed := m.armed - {Send}) && w == r.(state := WAITING_FOR_RESPONSE)
    ensures Delivered(m.(tasks := []), Sent(true), true, true) == r.(tasks := [Post(WRITE_COMPLETED)])
    ensures Delivered(r, Post(WRITE_COMPLETED), true, true) == w.(tasks := [Post(UNSOLICITED_REQUEST_DONE)])
    ensures Delivered(w, Post(UNSOLICITED_REQUEST_DONE), true, true) == w.(state := State.CONNECTED, tasks := [Check])
  {
  }

  // ---- the timers of a connection ----

  /** A timer is armed, or its callback is on its way. */
  predicate Ticks(s: Snap, t: Timer) { t in s.armed || Expired(t) in s.tasks }

  predicate Connection(state: State) { state != IDLE && state != CONNECTING }

  /** As long as there is a connection the watchdog and the health check go on. */
  predicate Ticking(s: Snap) { !s.stopping && Connection(s.state) ==> Ticks(s, Watchdog) && Ticks(s, Health) }

  lemma HandledTicks(s: Snap, e: Event, up: bool, ok: bool)
    requires Row(s.state, e).Some? && Connection(Row(s.state, e).value)
    ensures var r := Handled(s, e, up, ok);
            if Connection(s.state) then s.tasks <= r.tasks && s.armed <= r.armed else Watchdog in r.armed && Health in r.armed
  {
    hide Reconnecting;
  }

  lemma TickMore(s: Snap, r: Snap, t: Timer)
    requires Ticks(s, t) && s.tasks <= r.tasks && (t in s.armed ==> t in r.armed)
    ensures Ticks(r, t)
  {
    if Expired(t) in s.tasks {
      var i :| 0 <= i < |s.tasks| && s.tasks[i] == Expired(t);
      assert r.tasks[i] == Expired(t);
    }
  }

  lemma ProcessedTicks(s: Snap, e: Event, up: bool, ok: bool)
    requires Ticking(s) && !s.stopping
    ensures Ticking(Processed(s, e, up, ok))
  {
    hide Handled;
    var r := Processed(s, e, up, ok);
    if Row(s.state, e).Some? && Connection(Row(s.state, e).value) {
      HandledTicks(s, e, up, ok);
      if Connection(s.state) {
        TickMore(s, r, Watchdog);
        TickMore(s, r, Health);
      }
    }
  }

  lemma FrameTicks(s: Snap, f: Frame)
    ensures var r := GotFrame(s, f);
            s.tasks <= r.tasks && r.state == s.state && s.armed - {Ack, Response} <= r.armed && r.stopping == s.stopping
  {
    hide Matches, IsNotification, FollowUp;
  }

  lemma TimerTicks(s: Snap, t: Timer)
    ensures var r := TimedOut(s, t);
            s.tasks <= r.tasks && r.state == s.state && s.armed <= r.armed && r.stopping == s.stopping
    ensures t == Watchdog || t == Health ==> t in TimedOut(s, t).armed
  {
  }

  lemma EnqueueTicks(s: Snap, k: CmdType, priority: int, up: bool)
    ensures var r := Enqueued(s, k, priority, up);
            s.tasks <= r.tasks && r.state == s.state && r.armed == s.armed && r.stopping == s.stopping
  {
  }

  lemma DeliveredTicks(s: Snap, t: Task, up: bool, ok: bool)
    requires !s.stopping && Ticking(s.(tasks := [t] + s.tasks))
    ensures Ticking(Delivered(s, t, up, ok))
  {
    hide Processed, GotFrame, TimedOut, Enqueued;
    var r := Delivered(s, t, up, ok);
    if t.Post? {
      assert Ticking(s);
      ProcessedTicks(s, t.event, up, ok);
    } else if Connection(s.state) {
      if t.Received? { FrameTicks(s, t.frame); }
      if t.Expired? { TimerTicks(s, t.timer); }
      if t.Enqueue? { EnqueueTicks(s, t.kind, t.priority, up); }
      if t != Expired(Watchdog) { TickMore(s, r, Watchdog); }
      if t != Expired(Health) { TickMore(s, r, Health); }
    } else {
      if t.Received? { FrameTicks(s, t.frame); }
      if t.Expired? { TimerTicks(s, t.timer); }
      if t.Enqueue? { EnqueueTicks(s, t.kind, t.priority, up); }
    }
  }

  lemma NextTicks(s: Snap, a: Action)
    requires Ticking(s)
    ensures Ticking(Next(s, a))
  {
    hide Delivered;
    match a
    case RunTask(up, ok) =>
      if s.tasks != [] {
        var m := s.(tasks := s.tasks[1..]);
        assert s.tasks == [s.tasks[0]] + m.tasks;
        assert m.(tasks := [s.tasks[0]] + m.tasks) == s;
        DeliveredNumbers(m, s.tasks[0], up, ok);
        if !s.stopping { DeliveredTicks(m, s.tasks[0], up, ok); }
      }
    case Expire(t) => if Ticks(s, Watchdog) && Ticks(s, Health) { OtherTicks(s, Next(s, a), t); }
    case Arrive(t) =>
      if Ticks(s, Watchdog) { TickMore(s, s.Posting(t), Watchdog); }
      if Ticks(s, Health) { TickMore(s, s.Posting(t), Health); }
    case Close =>
  }

  lemma OtherTicks(s: Snap, r: Snap, t: Timer)
    requires r == Next(s, Expire(t)) && Ticks(s, Watchdog) && Ticks(s, Health)
    ensures Ticks(r, Watchdog) && Ticks(r, Health)
  {
    if t in s.armed {
      assert r.tasks[|s.tasks|] == Expired(t);
      if t != Watchdog || Watchdog !in s.armed { TickMore(s, r, Watchdog); }
      if t != Health || Health !in s.armed { TickMore(s, r, Health); }
    }
  }

  /** In every reachable state with a connection, watchdog and health check are armed or about to be. */
  lemma {:induction false} AlwaysTicking(actions: seq<Action>)
    ensures Ticking(Run(Start(), actions))
    decreases |actions|
  {
    hide Next;
    if actions != [] {
      AlwaysTicking(actions[..|actions|-1]);
      NextTicks(Run(Start(), actions[..|actions|-1]), actions[|actions|-1]);
    }
  }
}
