/** Which request of the EEP session an answer is awaited for, and how a request ends. */
module EepRequests {
  import opened Options
  import opened EepModel
  import opened EepInvariants

  // ---- the log of requests ----

  /** A request taken from the queue: whether its packet could be built, and the number the packet carries. */
  datatype Dispatch = Dispatch(kind: CmdType, built: bool, number: nat)

  /** The request that an action takes from the queue, if it takes one; replies do not count. */
  function DispatchOf(s: Snap, a: Action): Option<Dispatch> {
    if a.RunTask? && a.up && !s.stopping && s.tasks != [] && s.tasks[0] == Post(WRITE_COMMAND)
       && s.state == State.CONNECTED && s.queue != [] && s.queue[Top(s.queue)].kind !in {ACK, NAK}
    then Some(Dispatch(s.queue[Top(s.queue)].kind, a.ok, s.seqNo)) else None
  }

  /** The requests taken in a run from the start, in order. */
  function Log(actions: seq<Action>): seq<Dispatch>
    decreases |actions|
  {
    if actions == [] then []
    else
      var n := |actions| - 1;
      var d := DispatchOf(Run(Start(), actions[..n]), actions[n]);
      Log(actions[..n]) + if d.Some? then [d.value] else []
  }

  /** The requests of a log whose packets were built. */
  function Built(log: seq<Dispatch>): seq<Dispatch> {
    if log == [] then []
    else Built(log[..|log|-1]) + if log[|log|-1].built then [log[|log|-1]] else []
  }

  /** The session awaits an answer to the latest request, and the awaited number is that of the latest request
      that could be built. */
  predicate AwaitsLatest(s: Snap, log: seq<Dispatch>) {
    && s.requested == (if log == [] then WATCHDOG_REQ else log[|log|-1].kind)
    && (s.expected.Some? ==> Built(log) != [] && s.expected.value == Built(log)[|Built(log)|-1].number)
  }

  /** How one action moves the awaited request. */
  predicate Advances(s: Snap, r: Snap, d: Option<Dispatch>) {
    match d
    case None => r.requested == s.requested && (r.expected == s.expected || r.expected == None)
    case Some(x) => r.requested == x.kind && r.expected == (if x.built then Some(x.number) else s.expected)
  }

  lemma ReconnectingAdvances(s: Snap, failActive: bool)
    ensures var r := Reconnecting(s, failActive); r.requested == s.requested && r.expected == None
  {
    var s1 := s.(armed := s.armed - {Connect, Send, Ack, Response, Watchdog, Health}, expected := None);
    ClearedEffect(if failActive && !IsReply(s1.requested) then Fail(s1, s1.requested) else s1);
  }

  lemma ConnectedAdvances(s: Snap, e: Event, up: bool, ok: bool)
    requires s.state == State.CONNECTED && e != RECONNECT_REQUEST && Row(s.state, e).Some?
    ensures Advances(s, Handled(s, e, up, ok),
                     if up && e == WRITE_COMMAND && s.queue != [] && s.queue[Top(s.queue)].kind !in {ACK, NAK}
                     then Some(Dispatch(s.queue[Top(s.queue)].kind, ok, s.seqNo)) else None)
  {
    hide Top, Without;
  }

  lemma OtherAdvances(s: Snap, e: Event, up: bool, ok: bool)
    requires s.state != State.CONNECTED && e != RECONNECT_REQUEST
    ensures Advances(s, Handled(s, e, up, ok), None)
  {
  }

  lemma FrameAdvances(s: Snap, f: Frame)
    ensures Advances(s, GotFrame(s, f), None)
  {
    hide Matches, IsNotification, FollowUp;
  }

  lemma DeliveredAdvances(s: Snap, t: Task, up: bool, ok: bool)
    ensures Advances(s, Delivered(s, t, up, ok), DispatchOf(s.(tasks := [t]), RunTask(up, ok)))
  {
    hide Handled, Top, GotFrame;
    if t.Received? { FrameAdvances(s, t.frame); }
    if t.Post? && Row(s.state, t.event).Some? {
      if t.event == RECONNECT_REQUEST { HandledReconnect(s, up, ok); ReconnectingAdvances(s, s.state != State.CONNECTED); }
      else if s.state == State.CONNECTED { ConnectedAdvances(s, t.event, up, ok); }
      else { OtherAdvances(s, t.event, up, ok); }
    }
  }

  lemma HandledReconnect(s: Snap, up: bool, ok: bool)
    requires Row(s.state, RECONNECT_REQUEST).Some?
    ensures Handled(s, RECONNECT_REQUEST, up, ok) == Reconnecting(s, s.state != State.CONNECTED)
  {
  }

  lemma NextAdvances(s: Snap, a: Action)
    ensures Advances(s, Next(s, a), DispatchOf(s, a))
  {
    hide Delivered;
    if a.RunTask? && s.tasks != [] {
      DeliveredAdvances(s.(tasks := s.tasks[1..]), s.tasks[0], a.up, a.ok);
      assert [s.tasks[0]][0] == s.tasks[0];
    }
  }

  lemma BuiltMore(log: seq<Dispatch>, d: Dispatch)
    ensures Built(log + [d]) == Built(log) + if d.built then [d] else []
  {
    assert (log + [d])[..|log|] == log;
  }

  /** In every reachable state the request awaited is the latest one taken from the queue, replies aside, and
      the number awaited is that of the latest one that could be built. */
  lemma {:induction false} LatestIsAwaited(actions: seq<Action>)
    ensures AwaitsLatest(Run(Start(), actions), Log(actions))
    decreases |actions|
  {
    hide Next, DispatchOf;
    if actions != [] {
      var n := |actions| - 1;
      LatestIsAwaited(actions[..n]);
      var s := Run(Start(), actions[..n]);
      var d := DispatchOf(s, actions[n]);
      NextAdvances(s, actions[n]);
      if d.Some? { BuiltMore(Log(actions[..n]), d.value); } else { assert Log(actions[..n]) + [] == Log(actions[..n]); }
    }
  }

  /** So where the latest request could be built, awaited request and awaited number belong together. */
  lemma AwaitedBelongTogether(actions: seq<Action>)
    requires var log := Log(actions); log != [] && log[|log|-1].built
    ensures var s, log := Run(Start(), actions), Log(actions);
            s.requested == log[|log|-1].kind && (s.expected.Some? ==> s.expected.value == log[|log|-1].number)
  {
    LatestIsAwaited(actions);
  }

  /** Numbers count the requests built, in two bytes. */
  lemma NumbersCountRequests(actions: seq<Action>)
    ensures var s := Run(Start(), actions); s.seqNo == s.hist.prepared % 0x1_0000
  {
    RunInv(actions);
  }

  // ---- what answers a request ----

  /** Once a request has been sent, a message is accepted if and only if it carries the request's number and
      its code answers the request. */
  lemma AnswerIsForTheRequest(s: Snap, code: int, seqNo: nat, body0: Option<int>)
    requires s.queue != [] && s.queue[Top(s.queue)].kind !in {ACK, NAK}
    ensures var m := Dispatched(s, true);
            GotMessage(m, code, seqNo, body0).hist.accepts != m.hist.accepts
            <==> seqNo == s.seqNo && Matches(s.queue[Top(s.queue)].kind, code, body0)
  {
    hide Top, Matches;
    var m := Dispatched(s, true);
    assert |m.hist.accepts + [Accept(m.hist.prepared, seqNo)]| != |m.hist.accepts|;
  }

  // ---- after a request has ended ----

  /** While nothing is awaited nothing is accepted, until another request is built. */
  lemma {:induction false} NothingIsAccepted(s: Snap, actions: seq<Action>)
    requires s.expected == None && Run(s, actions).hist.prepared == s.hist.prepared
    ensures Run(s, actions).expected == None && Run(s, actions).hist.accepts == s.hist.accepts
    decreases |actions|
  {
    hide Next;
    if actions != [] {
      var n := |actions| - 1;
      PreparedGrows(s, actions[..n]);
      var m := Run(s, actions[..n]);
      NextNumbers(m, actions[n]);
      NothingIsAccepted(s, actions[..n]);
    }
  }

  lemma NextNumbers(s: Snap, a: Action)
    ensures NumberStep(s, Next(s, a))
  {
    hide Delivered;
    if a.RunTask? && s.tasks != [] {
      DeliveredNumbers(s.(tasks := s.tasks[1..]), s.tasks[0], a.up, a.ok);
    }
  }

  lemma {:induction false} PreparedGrows(s: Snap, actions: seq<Action>)
    ensures Run(s, actions).hist.prepared >= s.hist.prepared
    decreases |actions|
  {
    hide Next;
    if actions != [] {
      PreparedGrows(s, actions[..|actions|-1]);
      NextNumbers(Run(s, actions[..|actions|-1]), actions[|actions|-1]);
    }
  }

  /** The events that end a request without its answer. */
  predicate GivesUp(e: Event) { e == ACK_TIMEOUT || e == RESPONSE_TIMEOUT || e == RECONNECT_REQUEST }

  lemma GivenUp(s: Snap, e: Event, up: bool, ok: bool)
    requires GivesUp(e) && Row(s.state, e).Some?
    ensures var m := Processed(s, e, up, ok); m.expected == None && m.hist.accepts == s.hist.accepts
  {
    hide Reconnecting;
    if e == RECONNECT_REQUEST { ReconnectingEffect(s, s.state != State.CONNECTED); }
  }

  /** A request that has been given up is not answered any more: in no run from there is any message
      accepted before the next request is built. */
  lemma GivenUpIsNotAnswered(s: Snap, e: Event, up: bool, ok: bool, actions: seq<Action>)
    requires GivesUp(e) && Row(s.state, e).Some?
    requires var m := Processed(s, e, up, ok); Run(m, actions).hist.prepared == m.hist.prepared
    ensures var m := Processed(s, e, up, ok); m.expected == None && Run(m, actions).hist.accepts == s.hist.accepts
  {
    hide Processed;
    GivenUp(s, e, up, ok);
    NothingIsAccepted(Processed(s, e, up, ok), actions);
  }
}
