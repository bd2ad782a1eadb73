/** The EEP session together with the TCP link under it: which established connections the session uses. */
module EepLink {
  import opened Options
  import opened EepModel
  import opened EepInvariants

  datatype Link = Down | Dialling | Up

  datatype Joint = Joint(s: Snap, link: Link)

  /** The I/O thread runs a callback, a timer expires, the dialling ends, the link breaks (noticed by a
      read or by a write), or something else arrives. */
  datatype Move = Work(ok: bool) | Fire(timer: Timer) | Settle(good: bool) | Break(byRead: bool) | Other(task: Task)

  /** The next callback makes the client dial, or close its connection. */
  predicate Dials(s: Snap) { !s.stopping && s.tasks != [] && s.tasks[0] == Post(CONNECT) && s.state == IDLE }

  predicate Closes(s: Snap) {
    !s.stopping && s.tasks != [] && s.tasks[0] == Post(RECONNECT_REQUEST) && Row(s.state, RECONNECT_REQUEST).Some?
  }

  /** Dialling does nothing, and reports nothing, while the link is up or being dialled. */
  function Dialled(link: Link): Link { if link == Down then Dialling else link }

  function Step(j: Joint, m: Move): Joint {
    match m
    case Work(ok) =>
      Joint(Next(j.s, RunTask(j.link == Up, ok)),
            if Dials(j.s) then Dialled(j.link) else if Closes(j.s) then Down else j.link)
    case Fire(t) => j.(s := Next(j.s, Expire(t)))
    case Settle(good) =>
      if j.link == Dialling then Joint(Next(j.s, Arrive(Connected(good))), if good then Up else Down) else j
    case Break(byRead) =>
      if j.link == Up then Joint(Next(j.s, Arrive(if byRead then Received(ReadFailed) else Sent(false))), Down) else j
    case Other(t) =>
      if External(t) && !t.Connected? && t != Received(ReadFailed) then j.(s := Next(j.s, Arrive(t))) else j
  }

  function Steps(j: Joint, moves: seq<Move>): Joint {
    if moves == [] then j else Step(Steps(j, moves[..|moves|-1]), moves[|moves|-1])
  }

  predicate Unbroken(moves: seq<Move>) { forall i | 0 <= i < |moves| :: !moves[i].Break? }

  function Works(moves: seq<Move>): (n: nat)
    ensures n <= |moves|
  {
    if moves == [] then 0 else Works(moves[..|moves|-1]) + Bit(moves[|moves|-1].Work?)
  }

  // ---- announcements ----

  /** What tells the session of a connection: the dialler's callback, and the event it posts. */
  predicate Announces(t: Task) { t == Connected(true) || t == Post(CONNECT_SUCCESS) }

  predicate Unannounced(tasks: seq<Task>) { forall i :: 0 <= i < |tasks| ==> !Announces(tasks[i]) }

  /** The link is up and the session is not connected. */
  predicate Unused(j: Joint) {
    !j.s.stopping && j.link == Up && (j.s.state == IDLE || j.s.state == CONNECTING)
  }

  /** Nothing will tell the session of the connection either. */
  predicate Missed(j: Joint) { Unused(j) && Unannounced(j.s.tasks) }

  // ---- what a session that is not connected does by itself ----

  /** The events that take such a session from IDLE to CONNECTING and back. */
  predicate IsDirect(t: Task) { t == Post(CONNECT) || t == Post(CONNECT_FAIL) }

  function DirectOf(t: Task): seq<Task> { if IsDirect(t) then [t] else [] }

  function Direct(tasks: seq<Task>): seq<Task> {
    if tasks == [] then [] else Direct(tasks[..|tasks|-1]) + DirectOf(tasks[|tasks|-1])
  }

  /** The events that a callback posts in turn: a failed or timed-out attempt, or a new one. */
  function Relay(t: Task): seq<Task> {
    if t == Expired(Connect) || t == Connected(false) then [Post(CONNECT_FAIL)]
    else if t == Expired(Reconnect) then [Post(CONNECT)] else []
  }

  function Relays(tasks: seq<Task>): seq<Task> {
    if tasks == [] then [] else Relay(tasks[0]) + Relays(tasks[1..])
  }

  function After(state: State, t: Task): State {
    if t == Post(CONNECT) && state == IDLE then CONNECTING
    else if t == Post(CONNECT_FAIL) && state == CONNECTING then IDLE else state
  }

  /** The state after these events. */
  function Passing(state: State, events: seq<Task>): State
    decreases |events|
  {
    if events == [] then state else Passing(After(state, events[0]), events[1..])
  }

  /** The state of the session once it has handled the callbacks ahead, those behind, and the events that
      those ahead post in turn. */
  function Forecast(state: State, ahead: seq<Task>, behind: seq<Task>): State {
    Passing(state, Direct(ahead) + Direct(behind) + Relays(ahead))
  }

  /** Whether the session will be CONNECTING when it learns of a connection that stands now. */
  predicate InTime(s: Snap) { Forecast(s.state, s.tasks, []) == CONNECTING }

  lemma {:induction false} DirectJoin(a: seq<Task>, b: seq<Task>)
    ensures Direct(a + b) == Direct(a) + Direct(b)
    decreases |b|
  {
    if b == [] {
      assert a + b == a;
    } else {
      assert (a + b)[..|a + b| - 1] == a + b[..|b|-1] && (a + b)[|a + b| - 1] == b[|b|-1];
      DirectJoin(a, b[..|b|-1]);
    }
  }

  lemma DirectOne(t: Task)
    ensures Direct([t]) == DirectOf(t)
  {
    assert [t][..0] == [];
  }

  // ---- one callback ----

  /** The tasks grew by no announcement and by just these direct events. */
  predicate Adds(s: Snap, r: Snap, events: seq<Task>) {
    && s.tasks <= r.tasks && r.stopping == s.stopping
    && Unannounced(r.tasks[|s.tasks|..]) && Direct(r.tasks[|s.tasks|..]) == events
  }

  lemma AddsNothing(s: Snap, r: Snap)
    requires r.tasks == s.tasks && r.stopping == s.stopping
    ensures Adds(s, r, [])
  {
  }

  lemma AddsOne(s: Snap, r: Snap, t: Task)
    requires r.tasks == s.tasks + [t] && r.stopping == s.stopping && !Announces(t)
    ensures Adds(s, r, DirectOf(t))
  {
    assert r.tasks[|s.tasks|..] == [t];
    DirectOne(t);
  }

  lemma AddsMore(s: Snap, m: Snap, r: Snap, a: seq<Task>, b: seq<Task>)
    requires Adds(s, m, a) && Adds(m, r, b)
    ensures Adds(s, r, a + b)
  {
    assert r.tasks[|s.tasks|..] == m.tasks[|s.tasks|..] + r.tasks[|m.tasks|..];
    DirectJoin(m.tasks[|s.tasks|..], r.tasks[|m.tasks|..]);
  }

  lemma FailAdds(s: Snap, k: CmdType)
    ensures Adds(s, Fail(s, k), []) && Fail(s, k).state == s.state
  {
    hide Direct;
    AddsNothing(s, s);
    AddsNothing(s, Fail(s, k).(tasks := s.tasks));
    AddsOne(s, s.Posting(Post(RECONNECT_REQUEST)), Post(RECONNECT_REQUEST));
  }

  lemma EnqueueAdds(s: Snap, k: CmdType, priority: int)
    requires s.state != State.CONNECTED
    ensures var r := Enqueued(s, k, priority, true); Adds(s, r, []) && r.state == s.state
  {
    hide Direct;
    AddsNothing(s, Enqueued(s, k, priority, true));
  }

  lemma TimerAdds(s: Snap, t: Timer)
    ensures Adds(s, TimedOut(s, t), Relay(Expired(t))) && TimedOut(s, t).state == s.state
  {
    hide Direct;
    var r := TimedOut(s, t);
    AddsOne(s, r, r.tasks[|s.tasks|]);
  }

  lemma AnswerAdds(s: Snap, code: int, seqNo: nat)
    ensures var r := Answered(s, code, seqNo); Adds(s, r, []) && r.state == s.state
  {
    hide Direct;
    var r := Answered(s, code, seqNo);
    AddsOne(s, r, r.tasks[|s.tasks|]);
  }

  lemma NotificationAdds(s: Snap)
    ensures Adds(s, s.Posting(Enqueue(ACK, 0)), []) && Adds(s, s.Posting(Enqueue(NAK, 0)), [])
    ensures var r := s.Cancelling(Response).Posting(Post(RESPONSE_TIMER_CANCELLED_RSP_RECEIVED));
            Adds(s, r.Posting(Enqueue(ACK, 0)), [])
  {
    hide Direct;
    AddsOne(s, s.Posting(Enqueue(ACK, 0)), Enqueue(ACK, 0));
    AddsOne(s, s.Posting(Enqueue(NAK, 0)), Enqueue(NAK, 0));
    var r := s.Cancelling(Response).Posting(Post(RESPONSE_TIMER_CANCELLED_RSP_RECEIVED));
    AddsOne(s, r, Post(RESPONSE_TIMER_CANCELLED_RSP_RECEIVED));
    AddsOne(r, r.Posting(Enqueue(ACK, 0)), Enqueue(ACK, 0));
    AddsMore(s, r, r.Posting(Enqueue(ACK, 0)), [], []);
  }

  lemma FrameAdds(s: Snap, f: Frame)
    ensures var r := GotFrame(s, f); Adds(s, r, []) && r.state == s.state
  {
    hide Direct, Adds, Matches, IsNotification, FollowUp, Answered;
    NotificationAdds(s);
    AddsNothing(s, s);
    if f.ReadFailed? {
      AddsOne(s, s.Posting(Post(RECONNECT_REQUEST)), Post(RECONNECT_REQUEST));
    } else if f.Message? {
      var m := s.Cancelling(Ack).(missed := if f.code == 0x15 then 0 else s.missed);
      AddsNothing(s, m);
      AnswerAdds(m, f.code, f.seqNo);
      AddsMore(s, m, Answered(m, f.code, f.seqNo), [], []);
    }
  }

  lemma EventAdds(s: Snap, e: Event, ok: bool)
    requires (s.state == IDLE || s.state == CONNECTING) && e != CONNECT_SUCCESS
    ensures var r := Processed(s, e, true, ok); Adds(s, r, []) && r.state == After(s.state, Post(e))
  {
    hide Direct;
    AddsNothing(s, Processed(s, e, true, ok));
  }

  /** A callback that announces nothing takes such a session where its event leads, and posts its relay
      and otherwise only what does not matter here. */
  lemma DeliveryAdds(s: Snap, t: Task, ok: bool)
    requires !s.stopping && (s.state == IDLE || s.state == CONNECTING) && !Announces(t)
    ensures var r := Delivered(s, t, true, ok); Adds(s, r, Relay(t)) && r.state == After(s.state, t)
  {
    hide Direct, Adds, Processed, Enqueued, GotFrame, TimedOut, Fail;
    AddsNothing(s, s);
    match t {
      case Post(e) => EventAdds(s, e, ok);
      case Enqueue(k, priority) => EnqueueAdds(s, k, priority);
      case Connected(good) => AddsOne(s, s.Cancelling(Connect).Posting(Post(CONNECT_FAIL)), Post(CONNECT_FAIL));
      case Sent(good) =>
        var e := if good then WRITE_COMPLETED else WRITE_TIMEOUT;
        AddsOne(s, s.Cancelling(Send).Posting(Post(e)), Post(e));
      case Received(f) => FrameAdds(s, f);
      case Expired(timer) => TimerAdds(s, timer);
      case Failure(k) => FailAdds(s, k);
      case _ =>
    }
  }

  // ---- one move ----

  /** A move other than the oldest callback only adds tasks. */
  lemma OtherMoveAdds(j: Joint, m: Move)
    requires Unused(j) && !m.Work? && !m.Break?
    ensures var r := Step(j, m); Unused(r) && Adds(j.s, r.s, []) && r.s.state == j.s.state
  {
    hide Direct;
    AddsNothing(j.s, j.s);
    match m {
      case Fire(t) => if t in j.s.armed { AddsOne(j.s, Step(j, m).s, Expired(t)); }
      case Other(t) => if External(t) && !t.Connected? { AddsOne(j.s, j.s.Posting(t), t); }
      case _ =>
    }
  }

  function Popped(s: Snap): Snap
    requires s.tasks != []
  {
    s.(tasks := s.tasks[1..])
  }

  /** The oldest callback, when it announces nothing: the link stays up. */
  lemma WorkAdds(j: Joint, ok: bool)
    requires Unused(j) && j.s.tasks != [] && !Announces(j.s.tasks[0])
    ensures var r := Step(j, Work(ok));
            Unused(r) && Adds(Popped(j.s), r.s, Relay(j.s.tasks[0])) && r.s.state == After(j.s.state, j.s.tasks[0])
  {
    hide Direct, Delivered;
    DeliveryAdds(Popped(j.s), j.s.tasks[0], ok);
  }

  // ---- from the end of the dialling to its use ----

  /** One announcement waits, at place k. */
  predicate Alone(tasks: seq<Task>, k: nat, t: Task) {
    k < |tasks| && tasks[k] == t && Unannounced(tasks[..k]) && Unannounced(tasks[k+1..])
  }

  /** The dialler's callback waits behind k others; will it be in time? */
  predicate Told(j: Joint, k: nat, inTime: bool) {
    && Unused(j) && Alone(j.s.tasks, k, Connected(true))
    && inTime == (Forecast(j.s.state, j.s.tasks[..k], j.s.tasks[k+1..]) == CONNECTING)
  }

  /** The event it has posted waits behind k others. */
  predicate Posted(j: Joint, k: nat, inTime: bool) {
    && Unused(j) && Alone(j.s.tasks, k, Post(CONNECT_SUCCESS))
    && inTime == (Passing(j.s.state, Direct(j.s.tasks[..k])) == CONNECTING)
  }

  lemma AloneGrows(tasks: seq<Task>, more: seq<Task>, k: nat, t: Task)
    requires Alone(tasks, k, t) && Unannounced(more)
    ensures Alone(tasks + more, k, t)
    ensures (tasks + more)[..k] == tasks[..k] && (tasks + more)[k+1..] == tasks[k+1..] + more
  {
  }

  lemma AloneShrinks(tasks: seq<Task>, k: nat, t: Task)
    requires Alone(tasks, k, t) && k > 0
    ensures Alone(tasks[1..], k - 1, t) && !Announces(tasks[0])
    ensures tasks[..k] == [tasks[0]] + tasks[1..][..k-1] && tasks[1..][k..] == tasks[k+1..]
  {
    assert tasks[..k][0] == tasks[0];
    assert tasks[1..][..k-1] == tasks[..k][1..];
  }

  lemma PassingFirst(state: State, t: Task, events: seq<Task>)
    ensures Passing(state, DirectOf(t) + events) == Passing(After(state, t), events)
  {
    if IsDirect(t) {
      assert (DirectOf(t) + events)[1..] == events;
    } else {
      assert DirectOf(t) + events == events;
    }
  }

  lemma DirectFirst(t: Task, rest: seq<Task>)
    ensures Direct([t] + rest) == DirectOf(t) + Direct(rest)
  {
    DirectOne(t);
    DirectJoin([t], rest);
  }

  lemma TasksAdded(s: Snap, r: Snap, events: seq<Task>)
    requires Adds(s, r, events)
    ensures exists more :: r.tasks == s.tasks + more && Unannounced(more) && Direct(more) == events
  {
    assert r.tasks == s.tasks + r.tasks[|s.tasks|..];
  }

  lemma ForecastKept(state: State, t: Task, ahead: seq<Task>, behind: seq<Task>, more: seq<Task>)
    requires Direct(more) == Relay(t)
    ensures Forecast(After(state, t), ahead, behind + more) == Forecast(state, [t] + ahead, behind)
  {
    hide Direct, After, Relay;
    DirectFirst(t, ahead);
    DirectJoin(behind, more);
    assert ([t] + ahead)[1..] == ahead;
    var events := Direct(ahead) + Direct(behind) + Relay(t) + Relays(ahead);
    PassingFirst(state, t, events);
    assert DirectOf(t) + Direct(ahead) + Direct(behind) + (Relay(t) + Relays(ahead)) == DirectOf(t) + events;
    assert Direct(ahead) + (Direct(behind) + Relay(t)) + Relays(ahead) == events;
  }

  lemma ForecastSame(state: State, ahead: seq<Task>, behind: seq<Task>, more: seq<Task>)
    requires Direct(more) == []
    ensures Forecast(state, ahead, behind + more) == Forecast(state, ahead, behind)
  {
    DirectJoin(behind, more);
    assert Direct(behind) + [] == Direct(behind);
  }

  lemma ToldOther(j: Joint, k: nat, inTime: bool, m: Move)
    requires Told(j, k, inTime) && !m.Work? && !m.Break?
    ensures Told(Step(j, m), k, inTime)
  {
    hide Step, Direct, Forecast;
    var r := Step(j, m);
    OtherMoveAdds(j, m);
    TasksAdded(j.s, r.s, []);
    var more :| r.s.tasks == j.s.tasks + more && Unannounced(more) && Direct(more) == [];
    AloneGrows(j.s.tasks, more, k, Connected(true));
    ForecastSame(j.s.state, j.s.tasks[..k], j.s.tasks[k+1..], more);
  }

  lemma ToldWork(j: Joint, k: nat, inTime: bool, ok: bool)
    requires Told(j, k, inTime) && k > 0
    ensures Told(Step(j, Work(ok)), k - 1, inTime)
  {
    hide Step, Direct, Forecast, After, Relay;
    var r := Step(j, Work(ok));
    var t, tasks := j.s.tasks[0], j.s.tasks[1..];
    AloneShrinks(j.s.tasks, k, Connected(true));
    hide Alone;
    WorkAdds(j, ok);
    TasksAdded(Popped(j.s), r.s, Relay(t));
    var more :| r.s.tasks == tasks + more && Unannounced(more) && Direct(more) == Relay(t);
    AloneGrows(tasks, more, k - 1, Connected(true));
    ForecastKept(j.s.state, t, tasks[..k-1], tasks[k..], more);
  }

  /** The dialler's callback posts its event at the end of the queue. */
  lemma ToldNow(j: Joint, inTime: bool, ok: bool)
    requires Told(j, 0, inTime)
    ensures j.s.tasks != [] && Posted(Step(j, Work(ok)), |j.s.tasks| - 1, inTime)
  {
    var r := Step(j, Work(ok));
    assert r.s.tasks == j.s.tasks[1..] + [Post(CONNECT_SUCCESS)];
    assert r.s.tasks[..|j.s.tasks| - 1] == j.s.tasks[1..];
    assert j.s.tasks[..0] == [] && [] + Direct(j.s.tasks[1..]) + [] == Direct(j.s.tasks[1..]);
  }

  lemma PostedOther(j: Joint, k: nat, inTime: bool, m: Move)
    requires Posted(j, k, inTime) && !m.Work? && !m.Break?
    ensures Posted(Step(j, m), k, inTime)
  {
    hide Step, Direct;
    var r := Step(j, m);
    OtherMoveAdds(j, m);
    TasksAdded(j.s, r.s, []);
    var more :| r.s.tasks == j.s.tasks + more && Unannounced(more) && Direct(more) == [];
    AloneGrows(j.s.tasks, more, k, Post(CONNECT_SUCCESS));
  }

  lemma PostedWork(j: Joint, k: nat, inTime: bool, ok: bool)
    requires Posted(j, k, inTime) && k > 0
    ensures Posted(Step(j, Work(ok)), k - 1, inTime)
  {
    hide Step, Direct, After;
    var r := Step(j, Work(ok));
    var t, tasks := j.s.tasks[0], j.s.tasks[1..];
    AloneShrinks(j.s.tasks, k, Post(CONNECT_SUCCESS));
    hide Alone;
    WorkAdds(j, ok);
    TasksAdded(Popped(j.s), r.s, Relay(t));
    var more :| r.s.tasks == tasks + more && Unannounced(more) && Direct(more) == Relay(t);
    AloneGrows(tasks, more, k - 1, Post(CONNECT_SUCCESS));
    DirectFirst(t, tasks[..k-1]);
    PassingFirst(j.s.state, t, Direct(tasks[..k-1]));
  }

  /** The event is accepted by a session that is CONNECTING, and lost on one that is IDLE. */
  lemma PostedNow(j: Joint, inTime: bool, ok: bool)
    requires Posted(j, 0, inTime)
    ensures var r := Step(j, Work(ok)); if inTime then r.s.state == State.CONNECTED && r.link == Up else Missed(r)
  {
    assert Direct([]) == [];
    assert j.s.tasks[..0] == [];
  }

  lemma StaysMissed(j: Joint, m: Move)
    requires Missed(j) && !m.Break?
    ensures Missed(Step(j, m))
  {
    hide Step, Direct;
    if m.Work? {
      if j.s.tasks != [] {
        WorkAdds(j, m.ok);
        TasksAdded(Popped(j.s), Step(j, m).s, Relay(j.s.tasks[0]));
      } else {
        NothingToDo(j, m.ok);
      }
    } else {
      OtherMoveAdds(j, m);
      TasksAdded(j.s, Step(j, m).s, []);
    }
  }

  lemma NothingToDo(j: Joint, ok: bool)
    requires j.s.tasks == []
    ensures Step(j, Work(ok)) == j
  {
  }

  // ---- runs ----

  lemma StepMore(j: Joint, moves: seq<Move>, m: Move)
    ensures Steps(j, moves + [m]) == Step(Steps(j, moves), m)
  {
    assert (moves + [m])[..|moves|] == moves;
  }

  lemma {:induction false} StepsSplit(j: Joint, a: seq<Move>, b: seq<Move>)
    ensures Steps(j, a + b) == Steps(Steps(j, a), b)
    decreases |b|
  {
    if b == [] {
      assert a + b == a;
    } else {
      assert (a + b)[..|a + b| - 1] == a + b[..|b|-1] && (a + b)[|a + b| - 1] == b[|b|-1];
      StepsSplit(j, a, b[..|b|-1]);
    }
  }

  /** A missed connection stays missed: the session goes on dialling in vain until the link breaks. */
  lemma {:induction false} MissedUntilBroken(j: Joint, moves: seq<Move>)
    requires Missed(j) && Unbroken(moves)
    ensures Missed(Steps(j, moves))
    decreases |moves|
  {
    if moves != [] {
      MissedUntilBroken(j, moves[..|moves|-1]);
      StaysMissed(Steps(j, moves[..|moves|-1]), moves[|moves|-1]);
    }
  }

  lemma {:induction false} ToldRun(j: Joint, k: nat, inTime: bool, moves: seq<Move>)
    requires Told(j, k, inTime) && Unbroken(moves) && Works(moves) <= k
    ensures Told(Steps(j, moves), k - Works(moves), inTime)
    decreases |moves|
  {
    hide Step, Told;
    if moves != [] {
      var front, m := moves[..|moves|-1], moves[|moves|-1];
      ToldRun(j, k, inTime, front);
      if m.Work? { ToldWork(Steps(j, front), k - Works(front), inTime, m.ok); }
      else { ToldOther(Steps(j, front), k - Works(front), inTime, m); }
    }
  }

  /** One more callback, and the event is posted. */
  lemma {:induction false} ToldToPosted(j: Joint, k: nat, inTime: bool, moves: seq<Move>) returns (k': nat)
    requires Told(j, k, inTime) && Unbroken(moves) && Works(moves) == k + 1
    ensures Posted(Steps(j, moves), k', inTime)
    decreases |moves|
  {
    hide Step, Told, Posted;
    var front, m := moves[..|moves|-1], moves[|moves|-1];
    if m.Work? {
      ToldRun(j, k, inTime, front);
      ToldNow(Steps(j, front), inTime, m.ok);
      k' := |Steps(j, front).s.tasks| - 1;
    } else {
      k' := ToldToPosted(j, k, inTime, front);
      PostedOther(Steps(j, front), k', inTime, m);
    }
  }

  lemma {:induction false} PostedRun(j: Joint, k: nat, inTime: bool, moves: seq<Move>)
    requires Posted(j, k, inTime) && Unbroken(moves) && Works(moves) <= k
    ensures Posted(Steps(j, moves), k - Works(moves), inTime)
    decreases |moves|
  {
    hide Step, Posted;
    if moves != [] {
      var front, m := moves[..|moves|-1], moves[|moves|-1];
      PostedRun(j, k, inTime, front);
      if m.Work? { PostedWork(Steps(j, front), k - Works(front), inTime, m.ok); }
      else { PostedOther(Steps(j, front), k - Works(front), inTime, m); }
    }
  }

  /** Some moment of the run finds the session connected. */
  ghost predicate Connects(j: Joint, moves: seq<Move>) {
    exists i :: 0 <= i <= |moves| && ConnectedAfter(j, moves[..i])
  }

  predicate ConnectedAfter(j: Joint, moves: seq<Move>) { Steps(j, moves).s.state == State.CONNECTED }

  /** Once the event has been handled, the connection is used or missed. */
  lemma {:induction false} PostedToEnd(j: Joint, k: nat, inTime: bool, moves: seq<Move>)
    requires Posted(j, k, inTime) && Unbroken(moves) && Works(moves) > k
    ensures if inTime then Connects(j, moves) else Missed(Steps(j, moves))
    decreases |moves|
  {
    hide Step, Posted, Missed;
    var n := |moves| - 1;
    var front, m := moves[..n], moves[n];
    if Works(front) > k {
      PostedToEnd(j, k, inTime, front);
      if inTime {
        var i :| 0 <= i <= n && ConnectedAfter(j, front[..i]);
        assert front[..i] == moves[..i];
      } else {
        StaysMissed(Steps(j, front), m);
      }
    } else {
      PostedRun(j, k, inTime, front);
      PostedNow(Steps(j, front), inTime, m.ok);
      assert moves[..|moves|] == moves;
    }
  }

  // ---- a connection is used exactly when it stands in time ----

  /** The dialling is under way for a session that is not connected, and no earlier connection is about to
      be announced. */
  predicate Awaited(j: Joint) {
    !j.s.stopping && j.link == Dialling && (j.s.state == IDLE || j.s.state == CONNECTING) && Unannounced(j.s.tasks)
  }

  lemma Established(j: Joint)
    requires Awaited(j)
    ensures Told(Step(j, Settle(true)), |j.s.tasks|, InTime(j.s))
  {
    var r := Step(j, Settle(true));
    assert r.s.tasks == j.s.tasks + [Connected(true)];
    assert r.s.tasks[..|j.s.tasks|] == j.s.tasks && r.s.tasks[|j.s.tasks|+1..] == [];
  }

  /** A connection too late: not announced yet, or announced in vain, or missed. */
  ghost predicate Vain(j: Joint) {
    (exists k :: Told(j, k, false)) || (exists k :: Posted(j, k, false)) || Missed(j)
  }

  lemma StaysVain(j: Joint, m: Move)
    requires Vain(j) && !m.Break?
    ensures Vain(Step(j, m))
  {
    hide Step, Told, Posted, Missed;
    if k :| Told(j, k, false) {
      if !m.Work? { ToldOther(j, k, false, m); }
      else if k > 0 { ToldWork(j, k, false, m.ok); }
      else {
        ToldNow(j, false, m.ok);
        assert Posted(Step(j, m), |j.s.tasks| - 1, false);
      }
    } else if k :| Posted(j, k, false) {
      if !m.Work? { PostedOther(j, k, false, m); }
      else if k > 0 { PostedWork(j, k, false, m.ok); }
      else { PostedNow(j, false, m.ok); }
    } else {
      StaysMissed(j, m);
    }
  }

  lemma {:induction false} VainRun(j: Joint, moves: seq<Move>)
    requires Vain(j) && Unbroken(moves)
    ensures Vain(Steps(j, moves)) && Unused(Steps(j, moves))
    decreases |moves|
  {
    hide Step;
    if moves != [] {
      VainRun(j, moves[..|moves|-1]);
      StaysVain(Steps(j, moves[..|moves|-1]), moves[|moves|-1]);
    }
  }

  /** A connection that stands too late is never used, in any run in which the link does not break. */
  lemma TooLateIsNeverUsed(j: Joint, moves: seq<Move>)
    requires Awaited(j) && !InTime(j.s) && Unbroken(moves)
    ensures Unused(Steps(Step(j, Settle(true)), moves))
  {
    hide Step, InTime, Told;
    Established(j);
    VainRun(Step(j, Settle(true)), moves);
  }

  /** Once the callbacks that wait as the connection stands, its announcement, and then the callbacks that
      wait after these have been handled, the session has been connected if the connection stood in
      time, and has missed it if not. */
  lemma UsedExactlyInTime(j: Joint, first: seq<Move>, second: seq<Move>)
    requires Awaited(j) && Unbroken(first) && Unbroken(second) && Works(first) == |j.s.tasks| + 1
    requires Works(second) >= |Steps(Step(j, Settle(true)), first).s.tasks|
    ensures var m := Steps(Step(j, Settle(true)), first);
            && (Connects(m, second) <==> InTime(j.s))
            && (!InTime(j.s) ==> Missed(Steps(m, second)))
  {
    hide Step, InTime, Told, Missed;
    Established(j);
    var k := ToldToPosted(Step(j, Settle(true)), |j.s.tasks|, InTime(j.s), first);
    var m := Steps(Step(j, Settle(true)), first);
    PostedToEnd(m, k, InTime(j.s), second);
    if !InTime(j.s) && Connects(m, second) {
      var i :| 0 <= i <= |second| && ConnectedAfter(m, second[..i]);
      VainRun(m, second[..i]);
    }
  }

  // ---- a reconnect ----

  function ReconnectRun(): seq<Move> { [Work(true), Fire(Reconnect), Work(true), Work(true)] }

  /** A connected session asked to reconnect closes its link, waits for its timer and dials again, whatever the
      link was doing. */
  lemma ReconnectDialsAgain(j: Joint)
    requires !j.s.stopping && j.s.tasks == [Post(RECONNECT_REQUEST)] && j.s.state != IDLE && j.s.state != CONNECTING
    requires j.s.queue == [] && j.s.requested != WATCHDOG_REQ
    ensures var r := Steps(j, ReconnectRun()); r.link == Dialling && r.s.state == CONNECTING && Connect in r.s.armed
  {
    hide Steps;
    var m := Step(j, Work(true));
    assert m.s.tasks == [] && m.s.state == IDLE && m.link == Down && Reconnect in m.s.armed;
    assert ReconnectRun() == [Work(true)] + [Fire(Reconnect), Work(true), Work(true)];
    OneStep(j, Work(true));
    StepsSplit(j, [Work(true)], [Fire(Reconnect), Work(true), Work(true)]);
    DialsWhenAsked(m);
  }

  lemma OneStep(j: Joint, m: Move)
    ensures Steps(j, [m]) == Step(j, m)
  {
    assert [m] == [] + [m];
    StepMore(j, [], m);
  }

  lemma DialsWhenAsked(m: Joint)
    requires !m.s.stopping && m.s.tasks == [] && m.s.state == IDLE && m.link == Down && Reconnect in m.s.armed
    ensures var r := Steps(m, [Fire(Reconnect), Work(true), Work(true)]);
            r.link == Dialling && r.s.state == CONNECTING && Connect in r.s.armed
  {
    hide Steps;
    assert [Fire(Reconnect), Work(true), Work(true)] == [Fire(Reconnect), Work(true)] + [Work(true)];
    TwoSteps(m, Fire(Reconnect), Work(true));
    StepMore(m, [Fire(Reconnect), Work(true)], Work(true));
    assert Step(m, Fire(Reconnect)).s.tasks == [Expired(Reconnect)];
    assert Step(Step(m, Fire(Reconnect)), Work(true)).s.tasks == [Post(CONNECT)];
  }

  // ---- what in time means for a reachable session ----

  /** The failure of an attempt is still to be handled. */
  predicate FailureWaits(tasks: seq<Task>) {
    Post(CONNECT_FAIL) in tasks || Expired(Connect) in tasks || Connected(false) in tasks
  }

  predicate AttemptWaits(tasks: seq<Task>) { Post(CONNECT) in tasks || Expired(Reconnect) in tasks }

  lemma {:induction false} DirectHas(tasks: seq<Task>, t: Task)
    ensures t in Direct(tasks) <==> t in tasks && IsDirect(t)
    decreases |tasks|
  {
    if tasks != [] { DirectHas(tasks[..|tasks|-1], t); }
  }

  lemma {:induction false} RelaysHave(tasks: seq<Task>, t: Task)
    ensures t in Relays(tasks) <==>
            (t == Post(CONNECT_FAIL) && (Expired(Connect) in tasks || Connected(false) in tasks)) ||
            (t == Post(CONNECT) && Expired(Reconnect) in tasks)
    decreases |tasks|
  {
    if tasks != [] { RelaysHave(tasks[1..], t); }
  }

  lemma {:induction false} NoToken(tasks: seq<Task>)
    ensures TokenTasks(tasks) == 0 <==> !AttemptWaits(tasks)
    decreases |tasks|
  {
    if tasks != [] { NoToken(tasks[1..]); }
  }

  /** Events of one kind alone: the first decides. */
  lemma {:induction false} PassingAlike(state: State, events: seq<Task>, t: Task)
    requires IsDirect(t) && forall e :: e in events ==> e == t
    ensures Passing(state, events) == if events == [] then state else After(state, t)
    decreases |events|
  {
    if events != [] {
      assert events[0] in events;
      forall e | e in events[1..] ensures e == t { assert e in events; }
      PassingAlike(After(state, events[0]), events[1..], t);
    }
  }

  /** In any reachable session: while it is CONNECTING a connection stands in time exactly when no failure of
      the attempt waits; while it is IDLE with none waiting, exactly when a new attempt waits, which is
      when the reconnect timer has expired. */
  lemma InTimeExactly(s: Snap)
    requires OneToken(s)
    ensures s.state == CONNECTING ==> (InTime(s) <==> !FailureWaits(s.tasks))
    ensures s.state == IDLE && !FailureWaits(s.tasks) ==> (InTime(s) <==> AttemptWaits(s.tasks))
    ensures s.state == IDLE ==> (AttemptWaits(s.tasks) <==> Reconnect !in s.armed)
  {
    hide Direct, Relays, TokenTasks;
    var events := Direct(s.tasks) + Direct([]) + Relays(s.tasks);
    EventsHave(s.tasks);
    NoToken(s.tasks);
    assert events != [] ==> events[0] in events;
    if s.state == CONNECTING {
      PassingAlike(CONNECTING, events, Post(CONNECT_FAIL));
      if FailureWaits(s.tasks) { assert Post(CONNECT_FAIL) in events; }
    } else if s.state == IDLE && !FailureWaits(s.tasks) {
      PassingAlike(IDLE, events, Post(CONNECT));
      if AttemptWaits(s.tasks) { assert Post(CONNECT) in events; }
    }
  }

  lemma EventsHave(tasks: seq<Task>)
    ensures var events := Direct(tasks) + Direct([]) + Relays(tasks);
            && (forall e :: e in events ==> IsDirect(e))
            && (Post(CONNECT_FAIL) in events <==> FailureWaits(tasks))
            && (Post(CONNECT) in events <==> AttemptWaits(tasks))
  {
    hide Direct, Relays;
    var events := Direct(tasks) + Direct([]) + Relays(tasks);
    forall e ensures e in events <==> (e in tasks && IsDirect(e)) || e in Relays(tasks) {
      DirectHas(tasks, e);
      DirectHas([], e);
    }
    forall e ensures e in Relays(tasks) ==> IsDirect(e) { RelaysHave(tasks, e); }
    RelaysHave(tasks, Post(CONNECT_FAIL));
    RelaysHave(tasks, Post(CONNECT));
  }

  /** Every session over a link keeps what every session keeps. */
  lemma {:induction false} ReachableInv(moves: seq<Move>)
    ensures var s := Steps(Joint(Start(), Down), moves).s; Inv(s) && !s.stopping && OneToken(s)
    decreases |moves|
  {
    hide Next, Live, OneToken, Correlated, Conserved, Numbered;
    var j := Joint(Start(), Down);
    if moves == [] {
      RunInv([]);
    } else {
      var front, m := moves[..|moves|-1], moves[|moves|-1];
      ReachableInv(front);
      MoveInv(Steps(j, front), m);
    }
  }

  lemma MoveInv(j: Joint, m: Move)
    requires Inv(j.s) && !j.s.stopping
    ensures var s := Step(j, m).s; Inv(s) && !s.stopping
  {
    hide Inv, Delivered;
    match m {
      case Work(ok) =>
        NextInv(j.s, RunTask(j.link == Up, ok));
        if j.s.tasks != [] { DeliveredNumbers(Popped(j.s), j.s.tasks[0], j.link == Up, ok); }
      case Fire(t) => NextInv(j.s, Expire(t));
      case Settle(good) => NextInv(j.s, Arrive(Connected(good)));
      case Break(byRead) => NextInv(j.s, Arrive(if byRead then Received(ReadFailed) else Sent(false)));
      case Other(t) => NextInv(j.s, Arrive(t));
    }
  }

  // ---- how it comes about ----

  lemma TwoSteps(j: Joint, a: Move, b: Move)
    ensures Steps(j, [a, b]) == Step(Step(j, a), b)
  {
    assert [a, b] == [] + [a] + [b];
    StepMore(j, [], a);
    StepMore(j, [] + [a], b);
  }

  lemma ThreeSteps(j: Joint, a: Move, b: Move, c: Move)
    ensures Steps(j, [a, b, c]) == Step(Step(Step(j, a), b), c)
  {
    assert [a, b, c] == [a, b] + [c];
    TwoSteps(j, a, b);
    StepMore(j, [a, b], c);
  }

  /** Dialling begins, and the connect timer takes the session back to IDLE while it goes on. */
  function TimedOutRun(): seq<Move> { [Work(true), Fire(Connect)] + [Work(true), Work(true)] }

  function StandsRun(): seq<Move> { [Settle(true), Work(true), Work(true)] }

  function AgainRun(): seq<Move> { [Fire(Reconnect), Work(true), Work(true)] }

  lemma TimedOutDialling()
    ensures var j := Steps(Joint(Start(), Down), TimedOutRun());
            Awaited(j) && j.s.tasks == [] && j.s.state == IDLE && j.s.armed == {Reconnect}
  {
    hide Steps;
    var j := Joint(Start(), Down);
    TwoSteps(j, Work(true), Fire(Connect));
    var m := Steps(j, [Work(true), Fire(Connect)]);
    assert Step(j, Work(true)).s.tasks == [];
    assert m.s.tasks == [Expired(Connect)];
    TwoSteps(m, Work(true), Work(true));
    assert Step(m, Work(true)).s.tasks == [Post(CONNECT_FAIL)];
    StepsSplit(j, [Work(true), Fire(Connect)], [Work(true), Work(true)]);
  }

  /** The connect timer expires, and the connection that stands a moment later is missed. */
  lemma LateConnectionIsMissed()
    ensures Missed(Steps(Joint(Start(), Down), TimedOutRun() + StandsRun()))
  {
    TimedOutDialling();
    var j := Steps(Joint(Start(), Down), TimedOutRun());
    ThreeSteps(j, Settle(true), Work(true), Work(true));
    assert Step(j, Settle(true)).s.tasks == [Connected(true)];
    assert Step(Step(j, Settle(true)), Work(true)).s.tasks == [Post(CONNECT_SUCCESS)];
    StepsSplit(Joint(Start(), Down), TimedOutRun(), StandsRun());
  }

  /** When it stands only after the next attempt has begun, it is used. */
  lemma LaterConnectionIsUsed()
    ensures var j := Steps(Joint(Start(), Down), TimedOutRun() + AgainRun() + StandsRun());
            j.s.state == State.CONNECTED && j.link == Up
  {
    TimedOutDialling();
    var j := Steps(Joint(Start(), Down), TimedOutRun());
    ThreeSteps(j, Fire(Reconnect), Work(true), Work(true));
    assert Step(j, Fire(Reconnect)).s.tasks == [Expired(Reconnect)];
    assert Step(Step(j, Fire(Reconnect)), Work(true)).s.tasks == [Post(CONNECT)];
    StepsSplit(Joint(Start(), Down), TimedOutRun(), AgainRun());
    LaterStands(Steps(Joint(Start(), Down), TimedOutRun() + AgainRun()));
    StepsSplit(Joint(Start(), Down), TimedOutRun() + AgainRun(), StandsRun());
  }

  lemma LaterStands(j: Joint)
    requires Awaited(j) && j.s.tasks == [] && j.s.state == CONNECTING
    ensures var r := Steps(j, StandsRun()); r.s.state == State.CONNECTED && r.link == Up
  {
    ThreeSteps(j, Settle(true), Work(true), Work(true));
    assert Step(j, Settle(true)).s.tasks == [Connected(true)];
    assert Step(Step(j, Settle(true)), Work(true)).s.tasks == [Post(CONNECT_SUCCESS)];
  }
}
