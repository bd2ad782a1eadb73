/** The EEP session over whole runs: safety in every reachable state, and progress from it. */
module EepTheorems {
  import opened Options
  import opened EepModel
  import opened EepInvariants

  // ---- safety ----

  /** No wedge: before shutdown, every state has an armed or fired timer of its own, or a posted
      event its own row accepts; CONNECTED with waiting commands has a queue check or a
      WRITE_COMMAND on its way. */
  lemma NoWedge(actions: seq<Action>)
    ensures var s := Run(Start(), actions);
            !s.stopping ==> Live(s)
  {
    RunInv(actions);
  }

  /** One connection attempt is under way in IDLE, and none anywhere else. */
  lemma SingleReconnectToken(actions: seq<Action>)
    ensures var s := Run(Start(), actions);
            !s.stopping ==> Tokens(s) == (if s.state == IDLE then 1 else 0)
  {
    RunInv(actions);
  }

  /** An awaited number is always that of the latest request built, one behind the counter, and
      still unanswered; an accepted answer carries its request's number; no request is answered twice. */
  lemma AnswersMatchRequests(actions: seq<Action>)
    ensures Correlated(Run(Start(), actions))
  {
    RunInv(actions);
  }

  lemma AnswerTakesTheExpectedNumber(s: Snap, code: int, seqNo: nat, body0: Option<int>)
    ensures var r := GotMessage(s, code, seqNo, body0);
            r.hist.accepts == s.hist.accepts ||
            (&& r.hist.accepts == s.hist.accepts + [Accept(s.hist.prepared, seqNo)]
             && Matches(s.requested, code, body0) && s.expected == Some(seqNo) && r.expected == None)
  {
  }

  /** Only the latest request can be answered, only once, and only with its own number. */
  lemma OnlyLatestIsAnswered(s: Snap, code: int, seqNo: nat, body0: Option<int>)
    requires Correlated(s)
    ensures var r := GotMessage(s, code, seqNo, body0);
            r.hist.accepts != s.hist.accepts ==>
              && r.hist.accepts == s.hist.accepts + [Accept(s.hist.prepared, seqNo)]
              && Matches(s.requested, code, body0) && seqNo == (s.hist.prepared - 1) % SEQ_MOD
              && (forall i | 0 <= i < |s.hist.accepts| :: s.hist.accepts[i].request < s.hist.prepared)
              && r.expected == None
  {
    AnswerTakesTheExpectedNumber(s, code, seqNo, body0);
  }

  /** Sending an ACK or NAK leaves the counter, the awaited number and the awaited request alone. */
  lemma RepliesLeaveTheSession(s: Snap, ok: bool)
    requires s.queue != [] && s.queue[Top(s.queue)].kind in {ACK, NAK}
    ensures var r := Dispatched(s, ok);
            r.seqNo == s.seqNo && r.expected == s.expected && r.requested == s.requested
  {
  }

  /** Every command given is rejected, waiting, sent, failed or thrown away, exactly once. */
  lemma CommandsAreConserved(actions: seq<Action>)
    ensures var s := Run(Start(), actions);
            s.hist.given == s.hist.rejected + multiset(s.queue) + s.hist.dispatched + s.hist.failed + s.hist.discarded
  {
    RunInv(actions);
  }

  /** A reconnect leaves no command waiting and no answer awaited, and fails every waiting command. */
  lemma ReconnectStartsAfresh(s: Snap, up: bool, ok: bool)
    requires Row(s.state, RECONNECT_REQUEST).Some?
    ensures var r := Processed(s, RECONNECT_REQUEST, up, ok);
            && r.state == IDLE && r.queue == [] && r.expected == None && r.seqNo == s.seqNo
            && r.armed * {Connect, Send, Ack, Response, Watchdog, Health} == {}
            && r.hist.failed == s.hist.failed + multiset(s.queue)
  {
    hide Reconnecting;
    ReconnectingEffect(s, s.state != State.CONNECTED);
  }

  /** Commands leave by urgency, the smallest priority number first, and first come first served among equals. */
  lemma MostUrgentFirst(actions: seq<Action>, c: Command)
    ensures var s := Run(Start(), actions);
            c in s.queue && c != s.queue[Top(s.queue)] ==>
              var top := s.queue[Top(s.queue)];
              top.priority < c.priority || (top.priority == c.priority && top.sequence < c.sequence)
  {
    RunInv(actions);
    var s := Run(Start(), actions);
    if c in s.queue && c != s.queue[Top(s.queue)] {
      var i :| 0 <= i < |s.queue| && s.queue[i] == c;
      var t := Top(s.queue);
      assert s.queue[i].sequence != s.queue[t].sequence by { if i < t { } else { assert t < i; } }
    }
  }

  // ---- progress ----

  /** The I/O thread is about to handle an event its state accepts. */
  predicate Reacting(s: Snap, a: Action) {
    a.RunTask? && s.tasks != [] && s.tasks[0].Post? && Row(s.state, s.tasks[0].event).Some?
  }

  ghost predicate Moves(s: Snap, actions: seq<Action>) {
    exists k :: 0 <= k < |actions| && Reacting(Run(s, actions[..k]), actions[k])
  }

  predicate AllRuns(actions: seq<Action>) { forall i | 0 <= i < |actions| :: actions[i].RunTask? }

  /** Running exactly the callbacks now posted, whatever connection and packet building do meanwhile. */
  predicate Round(s: Snap, actions: seq<Action>) { AllRuns(actions) && |actions| == |s.tasks| }

  lemma {:induction false} RunSplit(s: Snap, a: seq<Action>, b: seq<Action>)
    ensures Run(s, a + b) == Run(Run(s, a), b)
    decreases |b|
  {
    if b == [] {
      assert a + b == a;
    } else {
      var n := |b| - 1;
      assert (a + b)[..|a + b| - 1] == a + b[..n] && (a + b)[|a + b| - 1] == b[n];
      RunSplit(s, a, b[..n]);
    }
  }

  lemma WaitingPosts(s: Snap, e: Event, up: bool, ok: bool)
    requires s.state == WAITING_FOR_RESPONSE && e != RECONNECT_REQUEST
    ensures s.tasks <= Handled(s, e, up, ok).tasks
  {
  }

  lemma ConnectedPosts(s: Snap, e: Event, up: bool, ok: bool)
    requires s.state == State.CONNECTED && e != RECONNECT_REQUEST
    ensures s.tasks <= Handled(s, e, up, ok).tasks
  {
  }

  lemma HandledPosts(s: Snap, e: Event, up: bool, ok: bool)
    requires Row(s.state, e).Some?
    ensures s.tasks <= Handled(s, e, up, ok).tasks
  {
    if e == RECONNECT_REQUEST {
      ReconnectingEffect(s, s.state != State.CONNECTED);
    } else if s.state == WAITING_FOR_RESPONSE {
      WaitingPosts(s, e, up, ok);
    } else if s.state == State.CONNECTED {
      ConnectedPosts(s, e, up, ok);
    }
  }

  lemma DeliveredOnlyPosts(s: Snap, t: Task, up: bool, ok: bool)
    ensures s.tasks <= Delivered(s, t, up, ok).tasks
  {
    if t.Post? && !s.stopping && Row(s.state, t.event).Some? {
      HandledPosts(s, t.event, up, ok);
    }
  }

  /** Callbacks are run in the order in which they were posted. */
  lemma {:induction false} FirstInFirstOut(s: Snap, actions: seq<Action>)
    requires AllRuns(actions) && |actions| <= |s.tasks|
    ensures s.tasks[|actions|..] <= Run(s, actions).tasks
    decreases |actions|
  {
    if actions != [] {
      var n := |actions| - 1;
      FirstInFirstOut(s, actions[..n]);
      var m := Run(s, actions[..n]);
      assert m.tasks[0] == s.tasks[n..][0];
      DeliveredOnlyPosts(m.(tasks := m.tasks[1..]), m.tasks[0], actions[n].up, actions[n].ok);
      assert s.tasks[n+1..] == s.tasks[n..][1..];
    }
  }

  /** A callback that is not an accepted event leaves the state, and never empties the queue. */
  lemma StaysPut(s: Snap, a: Action)
    requires a.RunTask? && !Reacting(s, a) && !s.stopping
    ensures var r := Next(s, a);
            r.state == s.state && !r.stopping && (s.queue != [] ==> r.queue != [])
  {
    hide Handled;
  }

  lemma {:induction false} UnmovedStays(s: Snap, actions: seq<Action>)
    requires AllRuns(actions) && !Moves(s, actions) && !s.stopping
    ensures var r := Run(s, actions);
            r.state == s.state && !r.stopping && (s.queue != [] ==> r.queue != [])
    decreases |actions|
  {
    if actions != [] {
      var n := |actions| - 1;
      UnmovedPrefix(s, actions, n);
      UnmovedStays(s, actions[..n]);
      StaysPut(Run(s, actions[..n]), actions[n]);
    }
  }

  lemma UnmovedPrefix(s: Snap, actions: seq<Action>, n: nat)
    requires n <= |actions| && !Moves(s, actions)
    ensures !Moves(s, actions[..n])
  {
    forall k | 0 <= k < n ensures !Reacting(Run(s, actions[..n][..k]), actions[..n][k]) {
      assert actions[..n][..k] == actions[..k];
    }
  }

  lemma MovesOnward(s: Snap, actions: seq<Action>, n: nat)
    requires n <= |actions| && Moves(s, actions[..n])
    ensures Moves(s, actions)
  {
    var k :| 0 <= k < n && Reacting(Run(s, actions[..n][..k]), actions[..n][k]);
    assert actions[..n][..k] == actions[..k];
  }

  /** If nothing has moved before, the callback at place i is run next after i others. */
  lemma RunsInTurn(s: Snap, i: nat, actions: seq<Action>)
    requires !s.stopping && i < |s.tasks| && AllRuns(actions) && i <= |actions| && !Moves(s, actions[..i])
    ensures var m := Run(s, actions[..i]);
            && m.tasks != [] && m.tasks[0] == s.tasks[i] && m.state == s.state && !m.stopping
            && |m.tasks| >= |s.tasks| - i && (s.queue != [] ==> m.queue != [])
  {
    UnmovedStays(s, actions[..i]);
    FirstInFirstOut(s, actions[..i]);
    assert Run(s, actions[..i]).tasks[0] == s.tasks[i..][0];
  }

  /** A posted event its state accepts is handled within one round. */
  lemma PostedMoves(s: Snap, i: nat, actions: seq<Action>)
    requires !s.stopping && i < |s.tasks| && s.tasks[i].Post? && Row(s.state, s.tasks[i].event).Some?
    requires Round(s, actions)
    ensures Moves(s, actions)
  {
    if Moves(s, actions[..i]) {
      MovesOnward(s, actions, i);
    } else {
      RunsInTurn(s, i, actions);
      assert Reacting(Run(s, actions[..i]), actions[i]);
    }
  }

  /** A fired timer of the state, or a queue check with work to do, posts an accepted event. */
  lemma RelayStep(m: Snap, a: Action)
    requires a.RunTask? && m.tasks != [] && !m.stopping
    requires Reacts(m.state, m.tasks[0]) && !m.tasks[0].Post? && (m.state == State.CONNECTED ==> m.queue != [])
    ensures var r := Next(m, a);
            && r.state == m.state && |r.tasks| == |m.tasks|
            && r.tasks[|r.tasks|-1].Post? && Row(m.state, r.tasks[|r.tasks|-1].event).Some?
  {
  }

  lemma RelayPosts(s: Snap, i: nat, actions: seq<Action>) returns (j: nat)
    requires !s.stopping && i < |s.tasks| && Round(s, actions) && !Moves(s, actions)
    requires Reacts(s.state, s.tasks[i]) && !s.tasks[i].Post? && (s.state == State.CONNECTED ==> s.queue != [])
    ensures var r := Run(s, actions);
            j < |r.tasks| && r.tasks[j].Post? && Row(s.state, r.tasks[j].event).Some?
  {
    hide Next, Reacts, Row;
    UnmovedPrefix(s, actions, i);
    RunsInTurn(s, i, actions);
    var m := Run(s, actions[..i]);
    RelayStep(m, actions[i]);
    var after := Next(m, actions[i]);
    assert actions[..i+1][..i] == actions[..i];
    assert Run(s, actions[..i+1]) == after;
    assert actions == actions[..i+1] + actions[i+1..];
    RunSplit(s, actions[..i+1], actions[i+1..]);
    var rest := |actions| - (i + 1);
    FirstInFirstOut(after, actions[i+1..]);
    j := |after.tasks| - 1 - rest;
    assert after.tasks[rest..][j] == after.tasks[|after.tasks|-1];
  }

  /** The timer a stuck session waits for, if that is what it waits for. */
  ghost predicate Unstuck(s: Snap, pre: seq<Action>) {
    pre == [] || (|pre| == 1 && pre[0].Expire? && pre[0].timer in s.armed && Wakes(s.state, pre[0].timer))
  }

  lemma TwoRounds(s: Snap, i: nat, first: seq<Action>, second: seq<Action>)
    requires !s.stopping && i < |s.tasks| && Reacts(s.state, s.tasks[i])
    requires s.state == State.CONNECTED ==> s.queue != []
    requires Round(s, first) && Round(Run(s, first), second)
    ensures Moves(s, first + second)
  {
    var both := first + second;
    assert both[..|first|] == first;
    if Moves(s, first) {
      MovesOnward(s, both, |first|);
    } else if s.tasks[i].Post? {
      PostedMoves(s, i, first);
    } else {
      var j := RelayPosts(s, i, first);
      var m := Run(s, first);
      UnmovedStays(s, first);
      PostedMoves(m, j, second);
      var k :| 0 <= k < |second| && Reacting(Run(m, second[..k]), second[k]);
      RunSplit(s, first, second[..k]);
      assert both[..|first| + k] == first + second[..k];
      assert Reacting(Run(s, both[..|first| + k]), both[|first| + k]);
    }
  }

  /** From every live state with something to do, at most one expiry of a timer of that state and
      two rounds of the callbacks then posted bring the session to handle an event its state
      accepts, whatever the connection and the packets do: no reachable state is stuck, not even
      if the network never answers again. */
  lemma Progress(s: Snap) returns (pre: seq<Action>)
    requires Live(s) && !s.stopping && (s.state == State.CONNECTED ==> s.queue != [])
    ensures Unstuck(s, pre)
    ensures forall first, second ::
              Round(Run(s, pre), first) && Round(Run(Run(s, pre), first), second)
              ==> Moves(Run(s, pre), first + second)
  {
    if x :| x in s.tasks && Reacts(s.state, x) {
      pre := [];
      var i :| 0 <= i < |s.tasks| && s.tasks[i] == x;
      RoundsMove(s, i);
    } else {
      var t :| t in s.armed && Wakes(s.state, t);
      pre := [Expire(t)];
      var m := Run(s, pre);
      assert pre[..0] == [] && Run(s, []) == s;
      assert m == Next(s, Expire(t));
      RoundsMove(m, |m.tasks| - 1);
    }
  }

  lemma RoundsMove(s: Snap, i: nat)
    requires !s.stopping && i < |s.tasks| && Reacts(s.state, s.tasks[i])
    requires s.state == State.CONNECTED ==> s.queue != []
    ensures forall first, second ::
              Round(s, first) && Round(Run(s, first), second) ==> Moves(s, first + second)
  {
    forall first, second | Round(s, first) && Round(Run(s, first), second)
      ensures Moves(s, first + second)
    {
      TwoRounds(s, i, first, second);
    }
  }

  /** Hence every reachable state with something to do makes progress. */
  lemma ReachableStatesProgress(actions: seq<Action>) returns (pre: seq<Action>)
    ensures var s := Run(Start(), actions);
            !s.stopping && (s.state == State.CONNECTED ==> s.queue != []) ==>
              && Unstuck(s, pre)
              && forall first, second ::
                   Round(Run(s, pre), first) && Round(Run(Run(s, pre), first), second)
                   ==> Moves(Run(s, pre), first + second)
  {
    RunInv(actions);
    var s := Run(Start(), actions);
    pre := [];
    if !s.stopping && (s.state == State.CONNECTED ==> s.queue != []) { pre := Progress(s); }
  }
}
