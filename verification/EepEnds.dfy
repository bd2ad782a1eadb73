/** How a connection begins, how it ends, and how the session ends. */
module EepEnds {
  import opened Options
  import opened EepModel
  import opened EepInvariants
  import opened EepTheorems
  import opened EepExchange

  // ---- the first command ----

  /** From initialisation: connecting, connected, and the callbacks posted then. */
  function OpeningRun(): seq<Action> {
    [GO, Arrive(Connected(true))] + [GO, GO] + [GO, GO, GO]
  }

  lemma Opened()
    ensures var s := Run(Start(), [GO, Arrive(Connected(true))] + [GO, GO]);
            && !s.stopping && s.state == State.CONNECTED && s.queue == [] && s.cmdSeq == 0 && s.seqNo == 0
            && s.armed == {Watchdog, Health}
            && s.tasks == [Enqueue(START_REQ, 1), Enqueue(HEALTH_STATUS_REQ, 4), Enqueue(WATCHDOG_REQ, 2), Post(CHECK_COMMAND), Check]
  {
    hide Run;
    var s := Start();
    var m := Next(Next(s, GO), Arrive(Connected(true)));
    RunTwo(s, GO, Arrive(Connected(true)));
    assert Next(s, GO).tasks == [] && Next(s, GO).state == CONNECTING;
    assert m.tasks == [Connected(true)];
    RunTwo(m, GO, GO);
    assert Next(m, GO).tasks == [Post(CONNECT_SUCCESS)];
    RunJoins(s, [GO, Arrive(Connected(true))], [GO, GO]);
  }

  lemma Queued(s: Snap, k: CmdType, priority: int, rest: seq<Task>)
    requires !s.stopping && s.state == State.CONNECTED && s.tasks == [Enqueue(k, priority)] + rest
    ensures var r := Next(s, GO);
            && !r.stopping && r.state == State.CONNECTED && r.armed == s.armed && r.seqNo == s.seqNo
            && r.queue == s.queue + [Command(k, priority, s.cmdSeq)] && r.cmdSeq == s.cmdSeq + 1
            && r.tasks == rest + [Post(WRITE_COMMAND)]
  {
    assert s.tasks[1..] == rest;
  }

  /** Once a connection stands, the first command sent is START_REQ, with number 0, and the watchdog and the
      health check are queued and armed. */
  lemma StartsWithStart()
    ensures var s := Run(Start(), OpeningRun());
            && s.state == State.CONNECTED && s.armed == {Watchdog, Health} && s.seqNo == 0
            && |s.queue| == 3 && s.queue[Top(s.queue)] == Command(START_REQ, 1, 0)
            && Command(WATCHDOG_REQ, 2, 2) in s.queue && Command(HEALTH_STATUS_REQ, 4, 1) in s.queue
            && Post(WRITE_COMMAND) in s.tasks
  {
    hide Run, Next;
    Opened();
    var a := [GO, Arrive(Connected(true))] + [GO, GO];
    var s := Run(Start(), a);
    Queued(s, START_REQ, 1, s.tasks[1..]);
    var s1 := Next(s, GO);
    Queued(s1, HEALTH_STATUS_REQ, 4, s1.tasks[1..]);
    var s2 := Next(s1, GO);
    Queued(s2, WATCHDOG_REQ, 2, s2.tasks[1..]);
    var s3 := Next(s2, GO);
    RunThree(s, GO, GO, GO);
    RunJoins(Start(), a, [GO, GO, GO]);
    TopOfThree(s3.queue);
    assert s3.queue[2] in s3.queue && s3.queue[1] in s3.queue;
  }

  lemma TopOfThree(q: seq<Command>)
    requires q == [Command(START_REQ, 1, 0), Command(HEALTH_STATUS_REQ, 4, 1), Command(WATCHDOG_REQ, 2, 2)]
    ensures Top(q) == 0
  {
    assert Before(q[0], q[1]) && Before(q[0], q[2]);
  }

  // ---- a lost connection ----

  /** Some moment of the run finds the session in IDLE. */
  ghost predicate Idles(s: Snap, actions: seq<Action>) { exists k :: 0 <= k <= |actions| && IdleAfter(s, actions[..k]) }

  predicate IdleAfter(s: Snap, actions: seq<Action>) { Run(s, actions).state == IDLE }

  lemma ConnectionOrIdle(s: Snap, a: Action)
    requires a.RunTask? && !s.stopping && Connection(s.state)
    ensures var r := Next(s, a); !r.stopping && (Connection(r.state) || r.state == IDLE)
  {
    hide Handled;
    if s.tasks != [] { DeliveredNumbers(s.(tasks := s.tasks[1..]), s.tasks[0], a.up, a.ok); }
  }

  lemma IdlesOnward(s: Snap, actions: seq<Action>, n: nat)
    requires n <= |actions| && Idles(s, actions[..n])
    ensures Idles(s, actions)
  {
    var k :| 0 <= k <= n && IdleAfter(s, actions[..n][..k]);
    assert actions[..n][..k] == actions[..k];
  }

  lemma {:induction false} StaysConnected(s: Snap, actions: seq<Action>)
    requires AllRuns(actions) && !s.stopping && Connection(s.state) && !Idles(s, actions)
    ensures var r := Run(s, actions); !r.stopping && Connection(r.state)
    decreases |actions|
  {
    hide Next;
    if actions != [] {
      var n := |actions| - 1;
      if Idles(s, actions[..n]) { IdlesOnward(s, actions, n); }
      StaysConnected(s, actions[..n]);
      ConnectionOrIdle(Run(s, actions[..n]), actions[n]);
      assert actions[..|actions|] == actions;
      assert !IdleAfter(s, actions[..|actions|]);
    }
  }

  /** A callback that is run in its turn, the session still being connected. */
  lemma Turn(s: Snap, i: nat, actions: seq<Action>)
    requires AllRuns(actions) && !s.stopping && Connection(s.state) && i < |s.tasks| && i < |actions|
    requires !Idles(s, actions[..i])
    ensures var m := Run(s, actions[..i]);
            && !m.stopping && Connection(m.state) && m.tasks != [] && m.tasks[0] == s.tasks[i] && |m.tasks| >= |s.tasks| - i
            && Run(s, actions[..i+1]) == Next(m, actions[i])
  {
    StaysConnected(s, actions[..i]);
    FirstInFirstOut(s, actions[..i]);
    assert Run(s, actions[..i]).tasks[0] == s.tasks[i..][0];
    assert actions[..i+1][..i] == actions[..i];
  }

  lemma ReconnectIdles(m: Snap, a: Action)
    requires a.RunTask? && !m.stopping && Connection(m.state) && m.tasks != [] && m.tasks[0] == Post(RECONNECT_REQUEST)
    ensures Next(m, a).state == IDLE
  {
    hide Handled;
  }

  lemma {:induction false} RequestIdles(s: Snap, i: nat, actions: seq<Action>)
    requires AllRuns(actions) && !s.stopping && Connection(s.state) && i < |s.tasks| && i < |actions|
    requires s.tasks[i] == Post(RECONNECT_REQUEST)
    ensures Idles(s, actions)
  {
    hide Next;
    if Idles(s, actions[..i]) {
      IdlesOnward(s, actions, i);
    } else {
      Turn(s, i, actions);
      ReconnectIdles(Run(s, actions[..i]), actions[i]);
      assert IdleAfter(s, actions[..i+1]);
    }
  }

  lemma ReadFailurePosts(m: Snap, a: Action)
    requires a.RunTask? && !m.stopping && m.tasks != [] && m.tasks[0] == Received(ReadFailed)
    ensures var r := Next(m, a);
            r.tasks == m.tasks[1..] + [Post(RECONNECT_REQUEST)] && r.state == m.state && !r.stopping
  {
  }

  /** A failed read takes the session to IDLE within two rounds of its callbacks, whatever it was doing. */
  lemma LossIsNoticed(s: Snap, i: nat, first: seq<Action>, second: seq<Action>)
    requires !s.stopping && Connection(s.state) && i < |s.tasks| && s.tasks[i] == Received(ReadFailed)
    requires Round(s, first) && Round(Run(s, first), second)
    ensures Idles(s, first + second)
  {
    hide Next;
    var both := first + second;
    assert both[..|first|] == first;
    if Idles(s, first) {
      IdlesOnward(s, both, |first|);
    } else {
      if Idles(s, first[..i]) { IdlesOnward(s, first, i); }
      Turn(s, i, first);
      var m, after := Run(s, first[..i]), Run(s, first[..i+1]);
      ReadFailurePosts(m, first[i]);
      var rest := first[i+1..];
      assert first == first[..i+1] + rest;
      RunSplit(s, first[..i+1], rest);
      FirstInFirstOut(after, rest);
      StaysConnected(s, first);
      var j := |after.tasks| - 1 - |rest|;
      assert after.tasks[|rest|..][j] == after.tasks[|after.tasks| - 1];
      RequestIdles(Run(s, first), j, second);
      var k :| 0 <= k <= |second| && IdleAfter(Run(s, first), second[..k]);
      RunSplit(s, first, second[..k]);
      assert both[..|first| + k] == first + second[..k];
      assert IdleAfter(s, both[..|first| + k]);
    }
  }

  // ---- a closed session ----

  /** Nothing waits and nothing is armed. */
  predicate Quiet(s: Snap) { s.stopping && s.queue == [] && s.armed == {} }

  lemma StaysQuiet(s: Snap, a: Action)
    requires Quiet(s)
    ensures var r := Next(s, a);
            && Quiet(r) && r.state == s.state
            && r.hist.dispatched == s.hist.dispatched && r.hist.accepts == s.hist.accepts
  {
    assert s.hist.discarded + multiset([]) == s.hist.discarded;
  }

  /** Once the shutdown has been handled no command is sent, no timer runs and the state stays, for ever. */
  lemma {:induction false} ClosedForEver(s: Snap, actions: seq<Action>)
    requires Quiet(s)
    ensures var r := Run(s, actions);
            && Quiet(r) && r.state == s.state
            && r.hist.dispatched == s.hist.dispatched && r.hist.accepts == s.hist.accepts
    decreases |actions|
  {
    hide Next;
    if actions != [] {
      ClosedForEver(s, actions[..|actions|-1]);
      StaysQuiet(Run(s, actions[..|actions|-1]), actions[|actions|-1]);
    }
  }

  lemma StoppingStays(s: Snap, a: Action)
    requires s.stopping && a.RunTask?
    ensures var r := Next(s, a);
            && r.stopping && r.state == s.state && r.hist.failed == s.hist.failed
            && (s.tasks != [] ==> r.tasks == s.tasks[1..])
            && (s.tasks != [] && s.tasks[0] == Shutdown ==> Quiet(r))
  {
  }

  lemma {:induction false} StoppingRuns(s: Snap, n: nat, actions: seq<Action>)
    requires s.stopping && n == |actions| <= |s.tasks| && AllRuns(actions)
    ensures var r := Run(s, actions); r.stopping && r.tasks == s.tasks[n..] && r.state == s.state && r.hist.failed == s.hist.failed
    decreases n
  {
    hide Next;
    if n > 0 {
      StoppingRuns(s, n - 1, actions[..n-1]);
      StoppingStays(Run(s, actions[..n-1]), actions[n-1]);
      assert s.tasks[n-1..][1..] == s.tasks[n..];
    }
  }

  /** Closing lets the callbacks already posted pass without effect, fails no command, and is then done. */
  lemma CloseIsFinal(s: Snap, actions: seq<Action>)
    requires AllRuns(actions) && |actions| == |s.tasks| + 1
    ensures var r := Run(Next(s, Close), actions); Quiet(r) && r.state == s.state && r.tasks == [] && r.hist.failed == s.hist.failed
  {
    hide Next;
    var m, n := Next(s, Close), |s.tasks|;
    Closes(s);
    StoppingRuns(m, n, actions[..n]);
    assert m.tasks[n..][0] == Shutdown;
    StoppingStays(Run(m, actions[..n]), actions[n]);
  }

  lemma Closes(s: Snap)
    ensures Next(s, Close) == s.(stopping := true, tasks := s.tasks + [Shutdown])
  {
  }
}
