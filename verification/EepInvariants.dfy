/** What holds in every reachable state of the EEP session, whatever the environment does. */
module EepInvariants {
  import opened Options
  import opened EepModel

  // ---- one reconnect token ----

  function Bit(b: bool): nat { if b then 1 else 0 }

  predicate IsToken(t: Task) { t == Post(CONNECT) || t == Expired(Reconnect) }

  function TokenTasks(tasks: seq<Task>): nat {
    if tasks == [] then 0 else Bit(IsToken(tasks[0])) + TokenTasks(tasks[1..])
  }

  lemma {:induction false} TokenPosted(tasks: seq<Task>, t: Task)
    ensures TokenTasks(tasks + [t]) == TokenTasks(tasks) + Bit(IsToken(t))
  {
    if tasks == [] {
      assert tasks + [t] == [t] && [t][1..] == [];
    } else {
      assert (tasks + [t])[1..] == tasks[1..] + [t];
      TokenPosted(tasks[1..], t);
    }
  }

  /** The ways in which a connection attempt is under way: timer armed, timer fired, event posted. */
  function Tokens(s: Snap): nat { Bit(Reconnect in s.armed) + TokenTasks(s.tasks) }

  predicate OneToken(s: Snap) { Tokens(s) == Bit(s.state == IDLE) }

  // ---- no wedge ----

  /** The timers whose expiry a state waits for. */
  predicate Wakes(state: State, t: Timer) {
    match state
    case IDLE => t == Reconnect
    case CONNECTING => t == Connect
    case CONNECTED => false
    case WRITING_REQUEST => t == Send
    case WAITING_FOR_RESPONSE => t == Ack || t == Response
  }

  /** The waiting callbacks a state reacts to: a fired timer of its own, or an event its own row
      of the table accepts; in CONNECTED, the ones that look at the queue. */
  predicate Reacts(state: State, x: Task) {
    if state == State.CONNECTED then x == Check || x == Post(WRITE_COMMAND)
    else (x.Expired? && Wakes(state, x.timer)) || (x.Post? && Row(state, x.event).Some?)
  }

  /** Something is on its way that this state will react to, unless it has nothing to do. */
  ghost predicate Live(s: Snap) {
    || (s.state == State.CONNECTED && s.queue == [])
    || (exists t :: t in s.armed && Wakes(s.state, t))
    || (exists x :: x in s.tasks && Reacts(s.state, x))
  }

  // ---- sequence numbers ----

  predicate Correlated(s: Snap) {
    var h := s.hist;
    && s.seqNo == h.prepared % SEQ_MOD
    && (s.expected.Some? ==> h.prepared > 0 && (s.expected.value + 1) % SEQ_MOD == s.seqNo
                             && s.expected.value == (h.prepared - 1) % SEQ_MOD
                             && forall i | 0 <= i < |h.accepts| :: h.accepts[i].request < h.prepared)
    && (forall i | 0 <= i < |h.accepts| ::
          1 <= h.accepts[i].request <= h.prepared &&
          h.accepts[i].seqNo == (h.accepts[i].request - 1) % SEQ_MOD)
    && (forall i, j | 0 <= i < j < |h.accepts| :: h.accepts[i].request < h.accepts[j].request)
  }

  // ---- conservation of commands ----

  predicate Conserved(s: Snap) {
    s.hist.given == s.hist.rejected + multiset(s.queue) + s.hist.dispatched + s.hist.failed + s.hist.discarded
  }

  /** The queue holds each command once, by arrival number. */
  predicate Numbered(s: Snap) {
    && (forall i | 0 <= i < |s.queue| :: s.queue[i].sequence < s.cmdSeq)
    && (forall i, j | 0 <= i < j < |s.queue| :: s.queue[i].sequence != s.queue[j].sequence)
  }

  // ---- handlers that only move the session sideways ----

  /** Everything but tasks and the missed count is as before, and tasks only grew, by no CONNECT
      and no reconnect expiry. */
  predicate Sideways(s: Snap, r: Snap) {
    && s.tasks <= r.tasks && r == s.(tasks := r.tasks, missed := r.missed)
    && TokenTasks(r.tasks) == TokenTasks(s.tasks)
  }

  lemma FailSideways(s: Snap, k: CmdType)
    ensures Sideways(s, Fail(s, k))
  {
    TokenPosted(s.tasks, Post(RECONNECT_REQUEST));
  }

  lemma {:induction false} ClearedEffect(s: Snap)
    ensures var r := Cleared(s);
            && r.queue == [] && r.hist == s.hist.(failed := s.hist.failed + multiset(s.queue))
            && Sideways(s.(queue := [], hist := r.hist), r)
    decreases |s.queue|
  {
    if s.queue != [] {
      var k := Top(s.queue);
      var c := s.queue[k];
      WithoutOne(s.queue, k);
      FailSideways(s.(queue := Without(s.queue, k), hist := s.hist.(failed := s.hist.failed + multiset{c})), c.kind);
      ClearedEffect(FailedTop(s));
    }
  }

  lemma ReconnectingEffect(s: Snap, failActive: bool)
    ensures var r := Reconnecting(s, failActive);
            && r.queue == [] && r.expected == None && r.seqNo == s.seqNo && s.tasks <= r.tasks
            && r.armed == s.armed - {Connect, Send, Ack, Response, Watchdog, Health} + {Reconnect}
            && r.hist == s.hist.(failed := s.hist.failed + multiset(s.queue))
            && TokenTasks(r.tasks) == TokenTasks(s.tasks)
            && r.stopping == s.stopping && r.cmdSeq == s.cmdSeq
  {
    var s1 := s.(armed := s.armed - {Connect, Send, Ack, Response, Watchdog, Health}, expected := None);
    var s2 := if failActive && !IsReply(s1.requested) then Fail(s1, s1.requested) else s1;
    FailSideways(s1, s1.requested);
    ClearedEffect(s2);
  }

  // ---- the token through one callback ----

  lemma PostedToken(s: Snap, t: Task)
    ensures Tokens(s.Posting(t)) == Tokens(s) + Bit(IsToken(t))
  {
    TokenPosted(s.tasks, t);
  }

  lemma ConnectingToken(s: Snap)
    ensures Tokens(WatchdogStarted(HealthStarted(s.Posting(Enqueue(START_REQ, 1)))).Posting(Post(CHECK_COMMAND)))
            == Tokens(s)
  {
    var s1 := s.Posting(Enqueue(START_REQ, 1));
    var s2 := HealthStarted(s1);
    var s3 := WatchdogStarted(s2);
    PostedToken(s, Enqueue(START_REQ, 1));
    PostedToken(s1, Enqueue(HEALTH_STATUS_REQ, 4));
    PostedToken(s2, Enqueue(WATCHDOG_REQ, 2));
    PostedToken(s3, Post(CHECK_COMMAND));
  }

  lemma DispatchedToken(s: Snap, ok: bool)
    ensures Tokens(Dispatched(s, ok)) == Tokens(s)
  {
    TokenPosted(s.tasks, Post(WRITE_TIMEOUT));
  }

  lemma LostToken(s: Snap, up: bool, k: CmdType)
    ensures Tokens(Fail(if up then s else s.Posting(Post(RECONNECT_REQUEST)), k)) == Tokens(s)
  {
    PostedToken(s, Post(RECONNECT_REQUEST));
    FailSideways(if up then s else s.Posting(Post(RECONNECT_REQUEST)), k);
  }

  lemma ConnectedToken(s: Snap, e: Event, up: bool, ok: bool)
    requires s.state == State.CONNECTED && e != RECONNECT_REQUEST && Tokens(s) == 0
    ensures Tokens(Handled(s, e, up, ok)) == 0
  {
    PostedToken(s, Post(RECONNECT_REQUEST));
    PostedToken(s, Post(WRITE_COMMAND));
    DispatchedToken(s, ok);
  }

  lemma WritingToken(s: Snap, e: Event, up: bool, ok: bool)
    requires s.state == WRITING_REQUEST && e != RECONNECT_REQUEST && Tokens(s) == 0
    ensures Tokens(Handled(s, e, up, ok)) == 0
  {
    PostedToken(s, Post(UNSOLICITED_REQUEST_DONE));
    LostToken(s, up, s.requested);
  }

  /** A handler adds a token exactly when it takes the session back to IDLE. */
  lemma HandledToken(s: Snap, e: Event, up: bool, ok: bool)
    requires Row(s.state, e).Some? && Tokens(s) == 0
    ensures Tokens(Handled(s, e, up, ok)) == Bit(Row(s.state, e).value == IDLE)
  {
    hide TokenTasks, Reconnecting, Dispatched, Fail;
    if e == RECONNECT_REQUEST {
      ReconnectingEffect(s, s.state != State.CONNECTED);
    } else {
      match s.state {
        case IDLE =>
        case CONNECTING => ConnectingToken(s);
        case CONNECTED => ConnectedToken(s, e, up, ok);
        case WRITING_REQUEST => WritingToken(s, e, up, ok);
        case WAITING_FOR_RESPONSE => WaitingToken(s, e, up, ok);
      }
    }
  }

  lemma WaitingToken(s: Snap, e: Event, up: bool, ok: bool)
    requires s.state == WAITING_FOR_RESPONSE && e != RECONNECT_REQUEST && Tokens(s) == 0
    ensures Tokens(Handled(s, e, up, ok)) == 0
  {
    LostToken(s.(expected := None), true, s.requested);
    LostToken(s.(expected := None), up, s.requested);
  }

  lemma ProcessedToken(s: Snap, e: Event, up: bool, ok: bool)
    requires Tokens(s) + Bit(e == CONNECT) == Bit(s.state == IDLE)
    ensures OneToken(Processed(s, e, up, ok))
  {
    if Row(s.state, e).Some? {
      HandledToken(s, e, up, ok);
      PostedToken(Handled(s, e, up, ok).(state := Row(s.state, e).value), Check);
    }
  }

  lemma EnqueuedToken(s: Snap, k: CmdType, priority: int, up: bool)
    ensures var r := Enqueued(s, k, priority, up); Tokens(r) == Tokens(s) && r.state == s.state
  {
    TokenPosted(s.tasks, Post(WRITE_COMMAND));
    TokenPosted(s.tasks, Post(RECONNECT_REQUEST));
  }

  lemma GotFrameToken(s: Snap, f: Frame)
    ensures var r := GotFrame(s, f); Tokens(r) == Tokens(s) && r.state == s.state
  {
    hide TokenTasks, Matches, IsNotification, FollowUp;
    TokenPosted(s.tasks, Post(RECONNECT_REQUEST));
    TokenPosted(s.tasks, Enqueue(NAK, 0));
    TokenPosted(s.tasks, Enqueue(ACK, 0));
    TokenPosted(s.tasks, Post(ACK_TIMER_CANCELLED_ACK_RECEIVED));
    TokenPosted(s.tasks, Post(ACK_AS_RSP_RECEIVED));
    TokenPosted(s.tasks, Post(RESPONSE_TIMER_CANCELLED_RSP_RECEIVED));
    TokenPosted(s.tasks + [Post(RESPONSE_TIMER_CANCELLED_RSP_RECEIVED)], Enqueue(ACK, 0));
  }

  lemma TimedOutToken(s: Snap, t: Timer)
    ensures var r := TimedOut(s, t); Tokens(r) == Tokens(s) + Bit(t == Reconnect) && r.state == s.state
  {
    match t {
      case Reconnect => PostedToken(s, Post(CONNECT));
      case Connect => PostedToken(s, Post(CONNECT_FAIL));
      case Send => PostedToken(s, Post(WRITE_TIMEOUT));
      case Response => PostedToken(s, Post(RESPONSE_TIMEOUT));
      case Ack => PostedToken(s, Post(ACK_TIMEOUT));
      case Watchdog => PostedToken(s, Enqueue(WATCHDOG_REQ, 2));
      case Health => PostedToken(s, Enqueue(HEALTH_STATUS_REQ, 4));
    }
  }

  lemma DeliveredToken(s: Snap, t: Task, up: bool, ok: bool)
    requires !s.stopping
    requires Tokens(s) + Bit(IsToken(t)) == Bit(s.state == IDLE)
    ensures OneToken(Delivered(s, t, up, ok))
  {
    match t {
      case Post(e) => ProcessedToken(s, e, up, ok);
      case Check => PostedToken(s, Post(WRITE_COMMAND));
      case Enqueue(k, priority) => EnqueuedToken(s, k, priority, up);
      case Connected(good) => PostedToken(s.Cancelling(Connect), Post(if good then CONNECT_SUCCESS else CONNECT_FAIL));
      case Sent(good) => PostedToken(s.Cancelling(Send), Post(if good then WRITE_COMPLETED else WRITE_TIMEOUT));
      case Received(f) => GotFrameToken(s, f);
      case Closed =>
      case Shutdown =>
      case Expired(timer) => TimedOutToken(s, timer);
      case Failure(k) => FailSideways(s, k);
    }
  }

  // ---- liveness through one callback ----

  lemma LiveByTask(s: Snap, x: Task)
    requires x in s.tasks && Reacts(s.state, x)
    ensures Live(s)
  {
  }

  lemma LiveByTimer(s: Snap, t: Timer)
    requires t in s.armed && Wakes(s.state, t)
    ensures Live(s)
  {
  }

  /** A callback that its state does not react to, and that only adds, keeps the session live. */
  lemma StaysLive(s: Snap, t: Task, r: Snap)
    requires Live(s.(tasks := [t] + s.tasks)) && !Reacts(s.state, t)
    requires r.state == s.state && s.tasks <= r.tasks && (s.state == State.CONNECTED ==> r.queue == s.queue)
    requires forall w | w in s.armed && Wakes(s.state, w) :: w in r.armed
    ensures Live(r)
  {
    if x :| x in [t] + s.tasks && Reacts(s.state, x) {
      assert x in s.tasks;
      LiveByTask(r, x);
    }
  }

  lemma ReconnectingLive(s: Snap, failActive: bool)
    ensures Live(Reconnecting(s, failActive).(state := IDLE))
  {
    ReconnectingEffect(s, failActive);
    LiveByTimer(Reconnecting(s, failActive).(state := IDLE), Reconnect);
  }

  lemma WritingLive(s: Snap, ok: bool)
    ensures Live(Dispatched(s, ok).Arming(Send).(state := WRITING_REQUEST))
  {
    LiveByTimer(Dispatched(s, ok).Arming(Send).(state := WRITING_REQUEST), Send);
  }

  lemma HandledLive(s: Snap, e: Event, up: bool, ok: bool)
    requires Row(s.state, e).Some? && Row(s.state, e).value != State.CONNECTED
    ensures Live(Handled(s, e, up, ok).(state := Row(s.state, e).value))
  {
    hide Live, Dispatched, Reconnecting;
    var r := Handled(s, e, up, ok).(state := Row(s.state, e).value);
    if e == RECONNECT_REQUEST {
      ReconnectingLive(s, s.state != State.CONNECTED);
    } else {
      match s.state {
        case IDLE => LiveByTimer(r, Connect);
        case CONNECTING => LiveByTimer(r, Reconnect);
        case CONNECTED => if up { WritingLive(s, ok); } else { LiveByTask(r, Post(RECONNECT_REQUEST)); }
        case WRITING_REQUEST =>
          if IsReply(s.current) { LiveByTask(r, Post(UNSOLICITED_REQUEST_DONE)); } else { LiveByTimer(r, Ack); }
        case WAITING_FOR_RESPONSE => LiveByTimer(r, Response);
      }
    }
  }

  /** An accepted event makes the session live, whatever it was before. */
  lemma AcceptedLive(s: Snap, e: Event, up: bool, ok: bool)
    requires Row(s.state, e).Some?
    ensures Live(Processed(s, e, up, ok))
  {
    hide Handled;
    if Row(s.state, e).value == State.CONNECTED {
      LiveByTask(Processed(s, e, up, ok), Check);
    } else {
      HandledLive(s, e, up, ok);
    }
  }

  lemma ProcessedLive(s: Snap, e: Event, up: bool, ok: bool)
    requires Live(s.(tasks := [Post(e)] + s.tasks))
    ensures Live(Processed(s, e, up, ok))
  {
    if Row(s.state, e).None? { StaysLive(s, Post(e), s); } else { AcceptedLive(s, e, up, ok); }
  }

  lemma EnqueuedLive(s: Snap, k: CmdType, priority: int, up: bool)
    requires Live(s.(tasks := [Enqueue(k, priority)] + s.tasks))
    ensures Live(Enqueued(s, k, priority, up))
  {
    var r := Enqueued(s, k, priority, up);
    if s.state == State.CONNECTED && up {
      LiveByTask(r, Post(WRITE_COMMAND));
    } else {
      StaysLive(s, Enqueue(k, priority), r);
    }
  }

  lemma AnswerLive(s: Snap, f: Frame)
    requires s.state == WAITING_FOR_RESPONSE && f.Message? && Matches(s.requested, f.code, f.body0)
    requires s.expected == Some(f.seqNo)
    ensures Live(GotFrame(s, f))
  {
    var r := GotFrame(s, f);
    LiveByTask(r, r.tasks[|r.tasks|-1]);
  }

  lemma NotificationLive(s: Snap, f: Frame)
    requires s.state == WAITING_FOR_RESPONSE && f.Message? && !Matches(s.requested, f.code, f.body0)
    requires IsNotification(f.code) && FollowUp(s.requested) == Some(f.code)
    ensures Live(GotFrame(s, f))
  {
    var r := GotFrame(s, f);
    assert r.tasks[|s.tasks|] == Post(RESPONSE_TIMER_CANCELLED_RSP_RECEIVED);
    LiveByTask(r, r.tasks[|s.tasks|]);
  }

  lemma GotFrameLive(s: Snap, f: Frame)
    requires Live(s.(tasks := [Received(f)] + s.tasks))
    ensures Live(GotFrame(s, f))
  {
    if s.state != WAITING_FOR_RESPONSE || GotFrame(s, f).armed == s.armed {
      StaysLive(s, Received(f), GotFrame(s, f));
    } else if Matches(s.requested, f.code, f.body0) {
      AnswerLive(s, f);
    } else {
      NotificationLive(s, f);
    }
  }

  lemma TimedOutLive(s: Snap, t: Timer)
    requires Live(s.(tasks := [Expired(t)] + s.tasks))
    ensures Live(TimedOut(s, t))
  {
    var r := TimedOut(s, t);
    if Wakes(s.state, t) {
      LiveByTask(r, r.tasks[|r.tasks|-1]);
    } else {
      StaysLive(s, Expired(t), r);
    }
  }

  lemma DeliveredLive(s: Snap, t: Task, up: bool, ok: bool)
    requires !s.stopping && Live(s.(tasks := [t] + s.tasks))
    ensures Live(Delivered(s, t, up, ok))
  {
    var r := Delivered(s, t, up, ok);
    match t {
      case Post(e) => ProcessedLive(s, e, up, ok);
      case Check =>
        if s.state == State.CONNECTED && s.queue != [] { LiveByTask(r, Post(WRITE_COMMAND)); }
        else if s.state != State.CONNECTED { StaysLive(s, t, r); }
      case Enqueue(k, priority) => EnqueuedLive(s, k, priority, up);
      case Connected(good) =>
        if s.state == CONNECTING { LiveByTask(r, Post(if good then CONNECT_SUCCESS else CONNECT_FAIL)); }
        else { StaysLive(s, t, r); }
      case Sent(good) =>
        if s.state == WRITING_REQUEST { LiveByTask(r, Post(if good then WRITE_COMPLETED else WRITE_TIMEOUT)); }
        else { StaysLive(s, t, r); }
      case Received(f) => GotFrameLive(s, f);
      case Closed => StaysLive(s, t, r);
      case Shutdown => StaysLive(s, t, r);
      case Expired(timer) => TimedOutLive(s, timer);
      case Failure(k) => StaysLive(s, t, r);
    }
  }

  // ---- sequence numbers through one callback ----

  predicate SameNumbers(s: Snap, r: Snap) {
    && r.seqNo == s.seqNo && (r.expected == s.expected || r.expected == None)
    && r.hist.prepared == s.hist.prepared && r.hist.accepts == s.hist.accepts
  }

  /** A request takes the counter's number, and only a request moves the counter. */
  predicate Sending(s: Snap, r: Snap) {
    && r.expected == Some(s.seqNo) && r.seqNo == (s.seqNo + 1) % SEQ_MOD
    && r.hist.prepared == s.hist.prepared + 1 && r.hist.accepts == s.hist.accepts
  }

  predicate Accepting(s: Snap, r: Snap) {
    && s.expected.Some? && r.expected == None && r.seqNo == s.seqNo && r.hist.prepared == s.hist.prepared
    && r.hist.accepts == s.hist.accepts + [Accept(s.hist.prepared, s.expected.value)]
  }

  predicate NumberStep(s: Snap, r: Snap) { SameNumbers(s, r) || Sending(s, r) || Accepting(s, r) }

  lemma SendingCorrelated(s: Snap, r: Snap)
    requires Correlated(s) && Sending(s, r)
    ensures Correlated(r)
  {
  }

  lemma AcceptingCorrelated(s: Snap, r: Snap)
    requires Correlated(s) && Accepting(s, r)
    ensures Correlated(r)
  {
  }

  lemma NumberStepCorrelated(s: Snap, r: Snap)
    requires Correlated(s) && NumberStep(s, r)
    ensures Correlated(r)
  {
    if Sending(s, r) {
      SendingCorrelated(s, r);
    } else if Accepting(s, r) {
      AcceptingCorrelated(s, r);
    }
  }

  lemma WaitingNumbers(s: Snap, e: Event, up: bool, ok: bool)
    requires s.state == WAITING_FOR_RESPONSE && e != RECONNECT_REQUEST
    ensures SameNumbers(s, Handled(s, e, up, ok))
    ensures Handled(s, e, up, ok).stopping == s.stopping
  {
  }

  lemma ConnectedNumbers(s: Snap, e: Event, up: bool, ok: bool)
    requires s.state == State.CONNECTED && e != RECONNECT_REQUEST
    ensures NumberStep(s, Handled(s, e, up, ok))
    ensures Handled(s, e, up, ok).stopping == s.stopping
  {
  }

  lemma OtherNumbers(s: Snap, e: Event, up: bool, ok: bool)
    requires s.state != State.CONNECTED && s.state != WAITING_FOR_RESPONSE && e != RECONNECT_REQUEST
    ensures SameNumbers(s, Handled(s, e, up, ok))
    ensures Handled(s, e, up, ok).stopping == s.stopping
  {
  }

  lemma HandledNumbers(s: Snap, e: Event, up: bool, ok: bool)
    requires Row(s.state, e).Some?
    ensures NumberStep(s, Handled(s, e, up, ok))
    ensures Handled(s, e, up, ok).stopping == s.stopping
  {
    if e == RECONNECT_REQUEST {
      ReconnectingEffect(s, s.state != State.CONNECTED);
    } else if s.state == WAITING_FOR_RESPONSE {
      WaitingNumbers(s, e, up, ok);
    } else if s.state == State.CONNECTED {
      ConnectedNumbers(s, e, up, ok);
    } else {
      OtherNumbers(s, e, up, ok);
    }
  }

  lemma ProcessedNumbers(s: Snap, e: Event, up: bool, ok: bool)
    ensures NumberStep(s, Processed(s, e, up, ok))
    ensures Processed(s, e, up, ok).stopping == s.stopping
  {
    if Row(s.state, e).Some? { HandledNumbers(s, e, up, ok); }
  }

  lemma GotFrameNumbers(s: Snap, f: Frame)
    ensures NumberStep(s, GotFrame(s, f))
    ensures GotFrame(s, f).stopping == s.stopping
  {
  }

  lemma DeliveredNumbers(s: Snap, t: Task, up: bool, ok: bool)
    ensures NumberStep(s, Delivered(s, t, up, ok))
    ensures Delivered(s, t, up, ok).stopping == s.stopping
  {
    if !s.stopping {
      match t {
        case Post(e) => ProcessedNumbers(s, e, up, ok);
        case Received(f) => GotFrameNumbers(s, f);
        case _ => assert SameNumbers(s, Delivered(s, t, up, ok));
      }
    }
  }

  // ---- commands through one callback ----

  /** How the books of commands may move: not at all, one command arrives (and is queued or
      rejected), one leaves the queue for the network, or the whole queue is failed or thrown away. */
  predicate SameBooks(s: Snap, r: Snap) {
    && r.queue == s.queue && r.cmdSeq == s.cmdSeq && r.hist.given == s.hist.given
    && r.hist.rejected == s.hist.rejected && r.hist.dispatched == s.hist.dispatched
    && r.hist.failed == s.hist.failed && r.hist.discarded == s.hist.discarded
  }

  predicate Arrived(s: Snap, r: Snap, c: Command) {
    && c.sequence == s.cmdSeq && r.cmdSeq == s.cmdSeq + 1 && r.hist.given == s.hist.given + multiset{c}
    && r.hist.dispatched == s.hist.dispatched && r.hist.failed == s.hist.failed && r.hist.discarded == s.hist.discarded
    && ((r.queue == s.queue + [c] && r.hist.rejected == s.hist.rejected) ||
        (r.queue == s.queue && r.hist.rejected == s.hist.rejected + multiset{c}))
  }

  /** The command that leaves is the most urgent one, the oldest among equals. */
  predicate Left(s: Snap, r: Snap) {
    && s.queue != [] && r.queue == Without(s.queue, Top(s.queue)) && r.cmdSeq == s.cmdSeq
    && r.hist.dispatched == s.hist.dispatched + multiset{s.queue[Top(s.queue)]}
    && r.hist.given == s.hist.given && r.hist.rejected == s.hist.rejected
    && r.hist.failed == s.hist.failed && r.hist.discarded == s.hist.discarded
  }

  predicate Emptied(s: Snap, r: Snap) {
    && r.queue == [] && r.cmdSeq == s.cmdSeq && r.hist.given == s.hist.given
    && r.hist.rejected == s.hist.rejected && r.hist.dispatched == s.hist.dispatched
    && ((r.hist.failed == s.hist.failed + multiset(s.queue) && r.hist.discarded == s.hist.discarded) ||
        (r.hist.failed == s.hist.failed && r.hist.discarded == s.hist.discarded + multiset(s.queue)))
  }

  ghost predicate BookStep(s: Snap, r: Snap) {
    SameBooks(s, r) || (exists c :: Arrived(s, r, c)) || Left(s, r) || Emptied(s, r)
  }

  lemma LeftNumbered(q: seq<Command>, k: nat, bound: nat)
    requires k < |q| && (forall i | 0 <= i < |q| :: q[i].sequence < bound)
    requires forall i, j | 0 <= i < j < |q| :: q[i].sequence != q[j].sequence
    ensures var r := Without(q, k);
            && (forall i | 0 <= i < |r| :: r[i].sequence < bound)
            && (forall i, j | 0 <= i < j < |r| :: r[i].sequence != r[j].sequence)
  {
    var r := Without(q, k);
    assert forall i | 0 <= i < |r| :: r[i] == q[if i < k then i else i + 1];
  }

  lemma ArrivedConserved(s: Snap, r: Snap, c: Command)
    requires Conserved(s) && Numbered(s) && Arrived(s, r, c)
    ensures Conserved(r) && Numbered(r)
  {
    assert multiset(s.queue + [c]) == multiset(s.queue) + multiset{c};
  }

  lemma LeftConserved(s: Snap, r: Snap)
    requires Conserved(s) && Numbered(s) && Left(s, r)
    ensures Conserved(r) && Numbered(r)
  {
    WithoutOne(s.queue, Top(s.queue));
    LeftNumbered(s.queue, Top(s.queue), s.cmdSeq);
  }

  lemma BookStepConserved(s: Snap, r: Snap)
    requires Conserved(s) && Numbered(s) && BookStep(s, r)
    ensures Conserved(r) && Numbered(r)
  {
    if c :| Arrived(s, r, c) {
      ArrivedConserved(s, r, c);
    } else if Left(s, r) {
      LeftConserved(s, r);
    }
  }

  lemma ReconnectingBooks(s: Snap, failActive: bool)
    ensures Emptied(s, Reconnecting(s, failActive))
  {
    ReconnectingEffect(s, failActive);
  }

  lemma WaitingBooks(s: Snap, e: Event, up: bool, ok: bool)
    requires s.state == WAITING_FOR_RESPONSE && e != RECONNECT_REQUEST
    ensures SameBooks(s, Handled(s, e, up, ok))
  {
  }

  lemma ConnectedBooks(s: Snap, e: Event, up: bool, ok: bool)
    requires s.state == State.CONNECTED && e != RECONNECT_REQUEST
    ensures SameBooks(s, Handled(s, e, up, ok)) || Left(s, Handled(s, e, up, ok))
  {
  }

  lemma OtherBooks(s: Snap, e: Event, up: bool, ok: bool)
    requires s.state != State.CONNECTED && s.state != WAITING_FOR_RESPONSE && e != RECONNECT_REQUEST
    ensures SameBooks(s, Handled(s, e, up, ok))
  {
  }

  lemma HandledBooks(s: Snap, e: Event, up: bool, ok: bool)
    requires Row(s.state, e).Some?
    ensures var r := Handled(s, e, up, ok); SameBooks(s, r) || Left(s, r) || Emptied(s, r)
  {
    if e == RECONNECT_REQUEST {
      ReconnectingBooks(s, s.state != State.CONNECTED);
    } else if s.state == WAITING_FOR_RESPONSE {
      WaitingBooks(s, e, up, ok);
    } else if s.state == State.CONNECTED {
      ConnectedBooks(s, e, up, ok);
    } else {
      OtherBooks(s, e, up, ok);
    }
  }

  lemma ProcessedBooks(s: Snap, e: Event, up: bool, ok: bool)
    ensures BookStep(s, Processed(s, e, up, ok))
  {
    hide Handled;
    if Row(s.state, e).Some? { HandledBooks(s, e, up, ok); }
  }

  lemma AnsweredBooks(s: Snap, code: int, seqNo: nat)
    ensures SameBooks(s, Answered(s, code, seqNo))
  {
  }

  lemma GotFrameBooks(s: Snap, f: Frame)
    ensures SameBooks(s, GotFrame(s, f))
  {
    hide Matches, IsNotification, FollowUp, Answered;
    if f.Message? {
      AnsweredBooks(s.Cancelling(Ack).(missed := if f.code == 0x15 then 0 else s.missed), f.code, f.seqNo);
    }
  }

  lemma TimedOutBooks(s: Snap, t: Timer)
    ensures SameBooks(s, TimedOut(s, t))
  {
  }

  lemma EnqueuedBooks(s: Snap, k: CmdType, priority: int, up: bool)
    ensures Arrived(s, Enqueued(s, k, priority, up), Command(k, priority, s.cmdSeq))
  {
  }

  lemma DeliveredBooks(s: Snap, t: Task, up: bool, ok: bool)
    ensures BookStep(s, Delivered(s, t, up, ok))
  {
    hide Processed, GotFrame, TimedOut, Enqueued;
    var r := Delivered(s, t, up, ok);
    if s.stopping {
      assert SameBooks(s, r) || Emptied(s, r);
    } else {
      match t {
        case Post(e) => ProcessedBooks(s, e, up, ok);
        case Enqueue(k, priority) => EnqueuedBooks(s, k, priority, up);
        case Received(f) => GotFrameBooks(s, f);
        case Expired(timer) => TimedOutBooks(s, timer);
        case _ => assert SameBooks(s, r);
      }
    }
  }

  predicate Books(s: Snap) { Correlated(s) && Conserved(s) && Numbered(s) }

  lemma StepBooks(s: Snap, r: Snap)
    requires Books(s) && NumberStep(s, r) && BookStep(s, r)
    ensures Books(r)
  {
    NumberStepCorrelated(s, r);
    BookStepConserved(s, r);
  }

  // ---- every reachable state ----

  ghost predicate Inv(s: Snap) {
    Books(s) && (!s.stopping ==> Connectable(s))
  }

  ghost predicate Connectable(s: Snap) {
    OneToken(s) && Live(s)
  }

  /** More callbacks, and fired timers in place of armed ones, keep the session live. */
  lemma LiveGrows(s: Snap, r: Snap)
    requires Live(s) && r.state == s.state && s.tasks <= r.tasks && r.queue == s.queue
    requires forall w | w in s.armed :: w in r.armed || Expired(w) in r.tasks
    ensures Live(r)
  {
    if w :| w in s.armed && Wakes(s.state, w) && w !in r.armed {
      LiveByTask(r, Expired(w));
    } else if x :| x in s.tasks && Reacts(s.state, x) {
      assert x in r.tasks;
      LiveByTask(r, x);
    }
  }

  lemma DeliveredKeepsBooks(s: Snap, t: Task, up: bool, ok: bool)
    requires Books(s)
    ensures Books(Delivered(s, t, up, ok)) && Delivered(s, t, up, ok).stopping == s.stopping
  {
    DeliveredNumbers(s, t, up, ok);
    DeliveredBooks(s, t, up, ok);
    StepBooks(s, Delivered(s, t, up, ok));
  }

  lemma DeliveredConnectable(s: Snap, t: Task, up: bool, ok: bool)
    requires !s.stopping && Connectable(s.(tasks := [t] + s.tasks))
    ensures Connectable(Delivered(s, t, up, ok))
  {
    DeliveredToken(s, t, up, ok);
    DeliveredLive(s, t, up, ok);
  }

  lemma RunTaskInv(s: Snap, up: bool, ok: bool)
    requires Inv(s) && s.tasks != []
    ensures Inv(Next(s, RunTask(up, ok)))
  {
    var s1, t := s.(tasks := s.tasks[1..]), s.tasks[0];
    assert s.tasks == [t] + s1.tasks;
    assert s1.(tasks := [t] + s1.tasks) == s;
    DeliveredKeepsBooks(s1, t, up, ok);
    if !s.stopping { DeliveredConnectable(s1, t, up, ok); }
  }

  lemma NextInv(s: Snap, a: Action)
    requires Inv(s)
    ensures Inv(Next(s, a))
  {
    hide Delivered, Live, TokenTasks, Correlated, Conserved, Numbered;
    var r := Next(s, a);
    match a {
      case RunTask(up, ok) => if s.tasks != [] { RunTaskInv(s, up, ok); }
      case Expire(t) =>
        StepBooks(s, r);
        if t in s.armed && !s.stopping {
          PostedToken(s.Cancelling(t), Expired(t));
          LiveGrows(s, r);
        }
      case Arrive(t) =>
        StepBooks(s, r);
        if External(t) && !s.stopping {
          PostedToken(s, t);
          LiveGrows(s, r);
        }
      case Close => StepBooks(s, r);
    }
  }

  lemma {:induction false} RunInv(actions: seq<Action>)
    ensures Inv(Run(Start(), actions))
    decreases |actions|
  {
    if actions == [] {
      LiveByTask(Start(), Post(CONNECT));
      assert TokenTasks(Start().tasks) == 1;
    } else {
      RunInv(actions[..|actions|-1]);
      NextInv(Run(Start(), actions[..|actions|-1]), actions[|actions|-1]);
    }
  }
}
