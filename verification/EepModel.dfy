/** The EEP session protocol as a state machine: one I/O thread runs posted callbacks in order,
    seven timers expire when they please, and the connection and the peer may do anything. */
module EepModel {
  import opened Options

  datatype State = IDLE | CONNECTING | CONNECTED | WRITING_REQUEST | WAITING_FOR_RESPONSE

  datatype Event =
    | CONNECT | CONNECT_SUCCESS | CONNECT_FAIL | CHECK_COMMAND | WRITE_COMMAND
    | WRITE_COMPLETED | WRITE_TIMEOUT | ACK_TIMER_CANCELLED_ACK_RECEIVED | ACK_AS_RSP_RECEIVED
    | ACK_TIMEOUT | RESPONSE_TIMER_CANCELLED_RSP_RECEIVED | RESPONSE_TIMEOUT
    | RECONNECT_REQUEST | UNSOLICITED_REQUEST_DONE

  datatype Timer = Reconnect | Connect | Send | Response | Ack | Watchdog | Health

  datatype CmdType =
    | UNKNOWN_REQ | ACK | NAK | HEALTH_STATUS_REQ | WATCHDOG_REQ | START_REQ | STOP_REQ | DI_REQ | DO_REQ
    | SET_DI_PORT_CONFIG | GET_OBU_INFO_REQ | GET_OBU_INFO_STOP_REQ | DEDUCT_REQ | DEDUCT_STOP_REQ
    | TRANSACTION_REQ | CPO_INFO_DISPLAY_REQ | CARPARK_PROCESS_COMPLETE_REQ | DSRC_PROCESS_COMPLETE_REQ
    | STOP_RELATED_INFO | DSRC_STATUS_REQ | TIME_CALIBRATION_REQ | SET_CARPARK_AVAIL_REQ
    | CD_DOWNLOAD_REQ | EEP_RESTART_INQUIRY_REQ | EEP_IDLE

  /** A queued command; sequence is its arrival number, lower priority numbers go first. */
  datatype Command = Command(kind: CmdType, priority: int, sequence: nat)

  /** What the receive handler sees of one read: a failed read, a frame rejected before its code is
      looked at (long enough for a NAK or not), or a well-formed message. */
  datatype Frame = ReadFailed | Rejected(hasHeader: bool) | Message(code: int, seqNo: nat, body0: Option<int>)

  /** A callback waiting on the I/O thread. */
  datatype Task =
    | Post(event: Event) | Check | Enqueue(kind: CmdType, priority: int)
    | Connected(ok: bool) | Sent(ok: bool) | Received(frame: Frame) | Closed
    | Expired(timer: Timer) | Failure(kind: CmdType) | Shutdown

  datatype Accept = Accept(request: nat, seqNo: nat)

  /** What has happened so far; no decision of the client depends on it. */
  datatype History = History(given: multiset<Command>, rejected: multiset<Command>, dispatched: multiset<Command>,
                             failed: multiset<Command>, discarded: multiset<Command>,
                             prepared: nat, accepts: seq<Accept>)

  datatype Snap = Snap(state: State, tasks: seq<Task>, armed: set<Timer>, queue: seq<Command>, cmdSeq: nat,
                       current: CmdType, requested: CmdType, seqNo: nat, expected: Option<nat>,
                       missed: nat, stopping: bool, hist: History)
  {
    function Posting(t: Task): Snap { this.(tasks := tasks + [t]) }

    function Arming(t: Timer): Snap { this.(armed := armed + {t}) }

    function Cancelling(t: Timer): Snap { this.(armed := armed - {t}) }
  }

  const SEQ_MOD := 65536

  function Start(): Snap {
    Snap(IDLE, [Post(CONNECT)], {}, [], 0, WATCHDOG_REQ, WATCHDOG_REQ, 0, None, 0, false,
         History(multiset{}, multiset{}, multiset{}, multiset{}, multiset{}, 0, []))
  }

  // ---- the transition table ----

  function Row(state: State, e: Event): Option<State> {
    match state
    case IDLE => if e == CONNECT then Some(CONNECTING) else None
    case CONNECTING =>
      if e == CONNECT_SUCCESS then Some(State.CONNECTED) else if e == CONNECT_FAIL then Some(IDLE) else None
    case CONNECTED =>
      if e == CHECK_COMMAND then Some(State.CONNECTED)
      else if e == WRITE_COMMAND then Some(WRITING_REQUEST)
      else if e == RECONNECT_REQUEST then Some(IDLE) else None
    case WRITING_REQUEST =>
      if e == WRITE_COMPLETED then Some(WAITING_FOR_RESPONSE)
      else if e == WRITE_TIMEOUT then Some(State.CONNECTED)
      else if e == RECONNECT_REQUEST then Some(IDLE) else None
    case WAITING_FOR_RESPONSE =>
      match e
      case ACK_TIMER_CANCELLED_ACK_RECEIVED => Some(WAITING_FOR_RESPONSE)
      case ACK_AS_RSP_RECEIVED => Some(State.CONNECTED)
      case ACK_TIMEOUT => Some(State.CONNECTED)
      case RESPONSE_TIMER_CANCELLED_RSP_RECEIVED => Some(State.CONNECTED)
      case RESPONSE_TIMEOUT => Some(State.CONNECTED)
      case RECONNECT_REQUEST => Some(IDLE)
      case UNSOLICITED_REQUEST_DONE => Some(State.CONNECTED)
      case _ => None
  }

  // ---- message codes ----

  const ACK_CODE := 0x10
  const NAK_CODE := 0x11

  /** The code of the message that answers a request, other than NAK. */
  function ResponseCode(k: CmdType): Option<int> {
    match k
    case UNKNOWN_REQ => None case ACK => None case NAK => None case EEP_IDLE => None
    case HEALTH_STATUS_REQ => Some(0x13) case WATCHDOG_REQ => Some(0x15)
    case START_REQ => Some(0x41) case STOP_REQ => Some(0x43) case DI_REQ => Some(0x62)
    case DSRC_STATUS_REQ => Some(0x36) case TIME_CALIBRATION_REQ => Some(0x51)
    case _ => Some(ACK_CODE)
  }

  /** The code a request is sent with, which its ACK or NAK must name. */
  function RequestCode(k: CmdType): int {
    match k
    case HEALTH_STATUS_REQ => 0x72 case WATCHDOG_REQ => 0x73 case START_REQ => 0x40 case STOP_REQ => 0x42
    case DI_REQ => 0x61 case DO_REQ => 0x63 case SET_DI_PORT_CONFIG => 0x64 case GET_OBU_INFO_REQ => 0x20
    case GET_OBU_INFO_STOP_REQ => 0x22 case DEDUCT_REQ => 0x82 case DEDUCT_STOP_REQ => 0x83
    case TRANSACTION_REQ => 0x76 case CPO_INFO_DISPLAY_REQ => 0x30 case CARPARK_PROCESS_COMPLETE_REQ => 0x32
    case DSRC_PROCESS_COMPLETE_REQ => 0x33 case STOP_RELATED_INFO => 0x34 case DSRC_STATUS_REQ => 0x35
    case TIME_CALIBRATION_REQ => 0x50 case SET_CARPARK_AVAIL_REQ => 0x55 case CD_DOWNLOAD_REQ => 0x93
    case EEP_RESTART_INQUIRY_REQ => 0x54 case _ => -1
  }

  predicate Matches(k: CmdType, code: int, body0: Option<int>) {
    && ResponseCode(k).Some? && (code == ResponseCode(k).value || code == NAK_CODE)
    && (code == ACK_CODE || code == NAK_CODE ==> body0 == Some(RequestCode(k)))
  }

  /** The notification that completes a request after its ACK. */
  function FollowUp(k: CmdType): Option<int> {
    match k
    case GET_OBU_INFO_REQ => Some(0x21) case DEDUCT_REQ => Some(0xF4) case TRANSACTION_REQ => Some(0xF4)
    case CPO_INFO_DISPLAY_REQ => Some(0x31) case CARPARK_PROCESS_COMPLETE_REQ => Some(0x37)
    case _ => None
  }

  predicate IsNotification(code: int) {
    code in {0x60, 0x21, 0xF4, 0x31, 0x37, 0x53, 0xF2}
  }

  predicate IsReply(k: CmdType) { k == ACK || k == NAK }

  // ---- the command queue ----

  /** Whether a leaves the queue before b. */
  predicate Before(a: Command, b: Command) {
    a.priority < b.priority || (a.priority == b.priority && a.sequence < b.sequence)
  }

  function TopFrom(q: seq<Command>, best: nat, k: nat): (r: nat)
    requires best < k <= |q|
    requires forall j | 0 <= j < k :: !Before(q[j], q[best])
    ensures r < |q| && forall j | 0 <= j < |q| :: !Before(q[j], q[r])
    decreases |q| - k
  {
    if k == |q| then best
    else if Before(q[k], q[best]) then
      assert forall j | 0 <= j < k :: Before(q[j], q[k]) ==> Before(q[j], q[best]);
      TopFrom(q, k, k + 1)
    else TopFrom(q, best, k + 1)
  }

  /** The position of the command to send next. */
  function Top(q: seq<Command>): (r: nat)
    requires q != []
    ensures r < |q| && forall j | 0 <= j < |q| :: !Before(q[j], q[r])
  {
    TopFrom(q, 0, 1)
  }

  function Without(q: seq<Command>, k: nat): (r: seq<Command>)
    requires k < |q|
    ensures |r| == |q| - 1
  {
    q[..k] + q[k+1..]
  }

  lemma WithoutOne(q: seq<Command>, k: nat)
    requires k < |q|
    ensures multiset(q) == multiset(Without(q, k)) + multiset{q[k]}
  {
    assert q == q[..k] + [q[k]] + q[k+1..];
  }

  // ---- handlers ----

  /** A command has failed: only a missed watchdog changes the session. */
  function Fail(s: Snap, k: CmdType): Snap {
    if k != WATCHDOG_REQ then s
    else if s.missed + 1 >= 4 then s.(missed := 0).Posting(Post(RECONNECT_REQUEST))
    else s.(missed := s.missed + 1)
  }

  function CheckQueue(s: Snap): Snap {
    if s.state == State.CONNECTED && s.queue != [] then s.Posting(Post(WRITE_COMMAND)) else s
  }

  function Enqueued(s: Snap, k: CmdType, priority: int, up: bool): Snap {
    var c := Command(k, priority, s.cmdSeq);
    var s1 := s.(cmdSeq := s.cmdSeq + 1, hist := s.hist.(given := s.hist.given + multiset{c}));
    if up then CheckQueue(s1.(queue := s1.queue + [c]))
    else Fail(s1.(hist := s1.hist.(rejected := s1.hist.rejected + multiset{c})), k)
  }

  /** The next command leaves the queue for the network; a reply does not become the request
      whose answer is awaited. */
  function Taken(s: Snap): Snap
    requires s.queue != []
  {
    var c := s.queue[Top(s.queue)];
    s.(queue := Without(s.queue, Top(s.queue)), current := c.kind,
       requested := if IsReply(c.kind) then s.requested else c.kind,
       hist := s.hist.(dispatched := s.hist.dispatched + multiset{c}))
  }

  /** Builds the packet of the current command; ok says whether that succeeds. */
  function Prepared(s: Snap, ok: bool): Snap {
    if !ok then s.Posting(Post(WRITE_TIMEOUT))
    else if IsReply(s.current) then s
    else s.(expected := Some(s.seqNo), seqNo := (s.seqNo + 1) % SEQ_MOD,
            hist := s.hist.(prepared := s.hist.prepared + 1))
  }

  function Dispatched(s: Snap, ok: bool): Snap {
    if s.queue == [] then s else Prepared(Taken(s), ok)
  }

  function FailedTop(s: Snap): (r: Snap)
    requires s.queue != []
    ensures |r.queue| == |s.queue| - 1
  {
    var c := s.queue[Top(s.queue)];
    Fail(s.(queue := Without(s.queue, Top(s.queue)), hist := s.hist.(failed := s.hist.failed + multiset{c})), c.kind)
  }

  /** Empties the queue in order, failing every command. */
  function Cleared(s: Snap): Snap
    decreases |s.queue|
  {
    if s.queue == [] then s else Cleared(FailedTop(s))
  }

  function Reconnecting(s: Snap, failActive: bool): Snap {
    var s1 := s.(armed := s.armed - {Connect, Send, Ack, Response, Watchdog, Health}, expected := None);
    var s2 := if failActive && !IsReply(s1.requested) then Fail(s1, s1.requested) else s1;
    Cleared(s2).Arming(Reconnect)
  }

  function WatchdogStarted(s: Snap): Snap { s.Posting(Enqueue(WATCHDOG_REQ, 2)).Arming(Watchdog) }

  function HealthStarted(s: Snap): Snap { s.Posting(Enqueue(HEALTH_STATUS_REQ, 4)).Arming(Health) }

  /** What the handler of an accepted event does, before the state changes. */
  function Handled(s: Snap, e: Event, up: bool, ok: bool): Snap {
    match s.state
    case IDLE => s.Arming(Connect)
    case CONNECTING =>
      if e == CONNECT_SUCCESS
      then WatchdogStarted(HealthStarted(s.Posting(Enqueue(START_REQ, 1)))).Posting(Post(CHECK_COMMAND))
      else s.Arming(Reconnect)
    case CONNECTED =>
      if e == RECONNECT_REQUEST then Reconnecting(s, false)
      else if !up then s.Posting(Post(RECONNECT_REQUEST))
      else if e == CHECK_COMMAND then CheckQueue(s)
      else Dispatched(s, ok).Arming(Send)
    case WRITING_REQUEST =>
      if e == RECONNECT_REQUEST then Reconnecting(s, true)
      else if e == WRITE_COMPLETED then
        if IsReply(s.current) then s.Posting(Post(UNSOLICITED_REQUEST_DONE)) else s.Arming(Ack)
      else Fail(if up then s else s.Posting(Post(RECONNECT_REQUEST)), s.requested)
    case WAITING_FOR_RESPONSE =>
      match e
      case ACK_TIMER_CANCELLED_ACK_RECEIVED => s.Arming(Response)
      case ACK_TIMEOUT => Fail(s.(expected := None), s.requested)
      case RESPONSE_TIMEOUT =>
        var s1 := s.(expected := None);
        Fail(if up then s1 else s1.Posting(Post(RECONNECT_REQUEST)), s.requested)
      case RECONNECT_REQUEST => Reconnecting(s, true)
      case _ => s
  }

  function Processed(s: Snap, e: Event, up: bool, ok: bool): Snap {
    match Row(s.state, e)
    case None => s
    case Some(next) =>
      var s1 := Handled(s, e, up, ok).(state := next);
      if next == State.CONNECTED then s1.Posting(Check) else s1
  }

  /** A timer callback that was not cancelled in time. */
  function TimedOut(s: Snap, t: Timer): Snap {
    match t
    case Reconnect => s.Posting(Post(CONNECT))
    case Connect => s.Posting(Post(CONNECT_FAIL))
    case Send => s.Posting(Post(WRITE_TIMEOUT))
    case Response => s.Posting(Post(RESPONSE_TIMEOUT))
    case Ack => s.Posting(Post(ACK_TIMEOUT))
    case Watchdog => WatchdogStarted(s)
    case Health => HealthStarted(s)
  }

  /** A well-formed message. */
  function GotMessage(s: Snap, code: int, seqNo: nat, body0: Option<int>): Snap {
    if Matches(s.requested, code, body0) then
      if s.expected != Some(seqNo) then s
      else Answered(s.Cancelling(Ack).(missed := if code == 0x15 then 0 else s.missed), code, seqNo)
    else if IsNotification(code) then
      var s1 := if FollowUp(s.requested) == Some(code)
                then s.Cancelling(Response).Posting(Post(RESPONSE_TIMER_CANCELLED_RSP_RECEIVED)) else s;
      s1.Posting(Enqueue(ACK, 0))
    else s.Posting(Enqueue(NAK, 0))
  }

  function Answered(s: Snap, code: int, seqNo: nat): Snap {
    var s1 := s.(expected := None, hist := s.hist.(accepts := s.hist.accepts + [Accept(s.hist.prepared, seqNo)]));
    if code == ACK_CODE && FollowUp(s.requested).Some?
    then s1.Posting(Post(ACK_TIMER_CANCELLED_ACK_RECEIVED))
    else s1.Posting(Post(ACK_AS_RSP_RECEIVED))
  }

  function GotFrame(s: Snap, f: Frame): Snap {
    match f
    case ReadFailed => s.Posting(Post(RECONNECT_REQUEST))
    case Rejected(hasHeader) => if hasHeader then s.Posting(Enqueue(NAK, 0)) else s
    case Message(code, seqNo, body0) => GotMessage(s, code, seqNo, body0)
  }

  /** Closing down on the I/O thread: timers are cancelled and the queue is thrown away. */
  function ShutDown(s: Snap): Snap {
    s.(armed := {}, queue := [], hist := s.hist.(discarded := s.hist.discarded + multiset(s.queue)))
  }

  /** One callback; up is whether the client is connected, ok whether a packet can be built.
      Once the client is stopping, only the shutdown itself still does anything. */
  function Delivered(s: Snap, t: Task, up: bool, ok: bool): Snap {
    if s.stopping then (if t == Shutdown then ShutDown(s) else s)
    else
      match t
      case Shutdown => s
      case Post(e) => Processed(s, e, up, ok)
      case Check => CheckQueue(s)
      case Enqueue(k, priority) => Enqueued(s, k, priority, up)
      case Connected(good) => s.Cancelling(Connect).Posting(Post(if good then CONNECT_SUCCESS else CONNECT_FAIL))
      case Sent(good) => s.Cancelling(Send).Posting(Post(if good then WRITE_COMPLETED else WRITE_TIMEOUT))
      case Received(f) => GotFrame(s, f)
      case Closed => s
      case Expired(timer) => TimedOut(s, timer)
      case Failure(k) => Fail(s, k)
  }

  // ---- runs ----

  /** What can happen next: the I/O thread runs its oldest callback, a timer expires, something
      arrives from the network or from another thread, or another thread closes the client. */
  datatype Action = RunTask(up: bool, ok: bool) | Expire(timer: Timer) | Arrive(task: Task) | Close

  predicate External(t: Task) {
    t.Connected? || t.Sent? || t.Received? || t.Closed? || t.Enqueue? || t.Failure?
  }

  function Next(s: Snap, a: Action): Snap {
    match a
    case RunTask(up, ok) => if s.tasks == [] then s else Delivered(s.(tasks := s.tasks[1..]), s.tasks[0], up, ok)
    case Expire(t) => if t in s.armed then s.Cancelling(t).Posting(Expired(t)) else s
    case Arrive(t) => if External(t) then s.Posting(t) else s
    case Close => s.(stopping := true).Posting(Shutdown)
  }

  function Run(s: Snap, actions: seq<Action>): Snap
    decreases |actions|
  {
    if actions == [] then s else Next(Run(s, actions[..|actions|-1]), actions[|actions|-1])
  }
}
