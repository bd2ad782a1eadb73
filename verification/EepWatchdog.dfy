/** The watchdog count of the EEP session. */
module EepWatchdog {
  import opened Options
  import opened EepModel
  import opened EepInvariants

  const LIMIT := 4

  /** Asking for a reconnect n times. */
  function Reconnects(n: nat): seq<Task> {
    if n == 0 then [] else Reconnects(n - 1) + [Post(RECONNECT_REQUEST)]
  }

  /** n watchdog requests that fail with no answer between them. */
  function Missing(s: Snap, n: nat): Snap {
    if n == 0 then s else Fail(Missing(s, n - 1), WATCHDOG_REQ)
  }

  /** Every fourth failure in a row asks for a reconnect, and nothing else happens. */
  lemma {:induction false} EveryFourthReconnects(s: Snap, n: nat)
    requires s.missed == 0
    ensures Missing(s, n) == s.(missed := n % LIMIT, tasks := s.tasks + Reconnects(n / LIMIT))
  {
    if n == 0 {
      assert s.tasks + [] == s.tasks;
    } else {
      EveryFourthReconnects(s, n - 1);
      assert (n - 1) % LIMIT == LIMIT - 1 <==> n % LIMIT == 0;
      if n % LIMIT == 0 {
        assert s.tasks + Reconnects(n / LIMIT - 1) + [Post(RECONNECT_REQUEST)]
            == s.tasks + (Reconnects(n / LIMIT - 1) + [Post(RECONNECT_REQUEST)]);
      }
    }
  }

  /** An accepted watchdog answer starts the count again, and no other message touches it. */
  lemma AnswerResets(s: Snap, code: int, seqNo: nat, body0: Option<int>)
    ensures GotMessage(s, code, seqNo, body0).missed ==
            if s.requested == WATCHDOG_REQ && s.expected == Some(seqNo) && code == 0x15 then 0 else s.missed
  {
  }

  predicate Below(s: Snap) { s.missed < LIMIT }

  lemma {:induction false} ClearedBelow(s: Snap)
    requires Below(s)
    ensures Below(Cleared(s))
    decreases |s.queue|
  {
    if s.queue != [] { ClearedBelow(FailedTop(s)); }
  }

  lemma ReconnectingBelow(s: Snap, failActive: bool)
    requires Below(s)
    ensures Below(Reconnecting(s, failActive))
  {
    var s1 := s.(armed := s.armed - {Connect, Send, Ack, Response, Watchdog, Health}, expected := None);
    ClearedBelow(if failActive && !IsReply(s1.requested) then Fail(s1, s1.requested) else s1);
  }

  lemma ConnectedBelow(s: Snap, e: Event, up: bool, ok: bool)
    requires Below(s) && s.state == State.CONNECTED && e != RECONNECT_REQUEST
    ensures Handled(s, e, up, ok).missed == s.missed
  {
  }

  lemma OtherBelow(s: Snap, e: Event, up: bool, ok: bool)
    requires Below(s) && s.state != State.CONNECTED && e != RECONNECT_REQUEST
    ensures Below(Handled(s, e, up, ok))
  {
  }

  lemma HandledBelow(s: Snap, e: Event, up: bool, ok: bool)
    requires Below(s) && Row(s.state, e).Some?
    ensures Below(Handled(s, e, up, ok))
  {
    if e == RECONNECT_REQUEST {
      ReconnectingBelow(s, s.state != State.CONNECTED);
    } else if s.state == State.CONNECTED {
      ConnectedBelow(s, e, up, ok);
    } else {
      OtherBelow(s, e, up, ok);
    }
  }

  lemma NextBelow(s: Snap, a: Action)
    requires Below(s)
    ensures Below(Next(s, a))
  {
    if a.RunTask? && s.tasks != [] && s.tasks[0].Post? && Row(s.state, s.tasks[0].event).Some? {
      HandledBelow(s.(tasks := s.tasks[1..]), s.tasks[0].event, a.up, a.ok);
    }
  }

  /** In every reachable state fewer than four failures have gone unanswered. */
  lemma {:induction false} MissedBelowLimit(actions: seq<Action>)
    ensures Below(Run(Start(), actions))
    decreases |actions|
  {
    if actions != [] {
      MissedBelowLimit(actions[..|actions|-1]);
      NextBelow(Run(Start(), actions[..|actions|-1]), actions[|actions|-1]);
    }
  }

  // ---- the failures of a reconnect ----

  /** The watchdog requests in a queue. */
  function Watchdogs(q: seq<Command>): nat {
    if q == [] then 0 else Watchdogs(q[..|q|-1]) + Bit(q[|q|-1].kind == WATCHDOG_REQ)
  }

  lemma {:induction false} WatchdogsJoin(a: seq<Command>, b: seq<Command>)
    ensures Watchdogs(a + b) == Watchdogs(a) + Watchdogs(b)
    decreases |b|
  {
    if b == [] {
      assert a + b == a;
    } else {
      assert (a + b)[..|a + b| - 1] == a + b[..|b|-1] && (a + b)[|a + b| - 1] == b[|b|-1];
      WatchdogsJoin(a, b[..|b|-1]);
    }
  }

  lemma WatchdogsWithout(q: seq<Command>, k: nat)
    requires k < |q|
    ensures Watchdogs(q) == Watchdogs(Without(q, k)) + Bit(q[k].kind == WATCHDOG_REQ)
  {
    hide *;
    var a, x, b := q[..k], [q[k]], q[k+1..];
    assert q == a + x + b;
    WatchdogsOne(q[k]);
    WatchdogsJoin(a + x, b);
    WatchdogsJoin(a, x);
    WatchdogsJoin(a, b);
    WithoutIs(q, k);
  }

  lemma WatchdogsOne(c: Command)
    ensures Watchdogs([c]) == Bit(c.kind == WATCHDOG_REQ)
  {
    assert [c][..0] == [];
  }

  lemma WithoutIs(q: seq<Command>, k: nat)
    requires k < |q|
    ensures Without(q, k) == q[..k] + q[k+1..]
  {
  }

  /** n more failures on the count. */
  function Counted(s: Snap, n: nat): Snap {
    s.(missed := (s.missed + n) % LIMIT, tasks := s.tasks + Reconnects((s.missed + n) / LIMIT))
  }

  lemma {:induction false} ReconnectsJoin(a: nat, b: nat)
    ensures Reconnects(a) + Reconnects(b) == Reconnects(a + b)
    decreases b
  {
    if b > 0 {
      ReconnectsJoin(a, b - 1);
      assert Reconnects(a) + (Reconnects(b - 1) + [Post(RECONNECT_REQUEST)])
          == Reconnects(a) + Reconnects(b - 1) + [Post(RECONNECT_REQUEST)];
    }
  }

  lemma CountedTwice(s: Snap, a: nat, b: nat)
    ensures Counted(Counted(s, a), b) == Counted(s, a + b)
  {
    var m := s.missed + a;
    assert m == LIMIT * (m / LIMIT) + m % LIMIT;
    assert (m % LIMIT + b) / LIMIT + m / LIMIT == (m + b) / LIMIT;
    ReconnectsJoin(m / LIMIT, (m % LIMIT + b) / LIMIT);
    assert s.tasks + Reconnects(m / LIMIT) + Reconnects((m % LIMIT + b) / LIMIT)
        == s.tasks + (Reconnects(m / LIMIT) + Reconnects((m % LIMIT + b) / LIMIT));
  }

  lemma FailCounts(s: Snap, k: CmdType)
    requires Below(s)
    ensures Fail(s, k) == Counted(s, Bit(k == WATCHDOG_REQ))
  {
    assert Reconnects(1) == [] + [Post(RECONNECT_REQUEST)];
    assert s.tasks + [] == s.tasks;
  }

  /** The queue emptied, its commands failed. */
  function Emptied(s: Snap): Snap { s.(queue := [], hist := s.hist.(failed := s.hist.failed + multiset(s.queue))) }

  lemma CountedAside(s: Snap, n: nat)
    requires Below(s)
    ensures var r := Counted(s, n); Below(r) && r.queue == s.queue && Emptied(r) == Counted(Emptied(s), n)
  {
  }

  /** Without the command that fails first. */
  function LessTop(s: Snap): Snap
    requires s.queue != []
  {
    var k := Top(s.queue);
    s.(queue := Without(s.queue, k), hist := s.hist.(failed := s.hist.failed + multiset{s.queue[k]}))
  }

  function TopCount(s: Snap): nat
    requires s.queue != []
  {
    Bit(s.queue[Top(s.queue)].kind == WATCHDOG_REQ)
  }

  lemma TopFails(s: Snap)
    requires Below(s) && s.queue != []
    ensures FailedTop(s) == Counted(LessTop(s), TopCount(s)) && Emptied(LessTop(s)) == Emptied(s) && Below(LessTop(s))
    ensures Watchdogs(s.queue) == TopCount(s) + Watchdogs(LessTop(s).queue)
  {
    hide Counted, Top, Watchdogs, Without;
    var k := Top(s.queue);
    var m := s.(queue := Without(s.queue, k), hist := s.hist.(failed := s.hist.failed + multiset{s.queue[k]}));
    WithoutOne(s.queue, k);
    WatchdogsWithout(s.queue, k);
    FailCounts(m, s.queue[k].kind);
    assert s.hist.failed + multiset{s.queue[k]} + multiset(m.queue) == s.hist.failed + multiset(s.queue);
  }

  lemma ClearedUnfolds(s: Snap)
    requires s.queue != []
    ensures Cleared(s) == Cleared(FailedTop(s))
  {
  }

  lemma NothingToClear(s: Snap)
    requires s.queue == [] && Below(s)
    ensures Cleared(s) == s == Emptied(s) && Watchdogs(s.queue) == 0
  {
    assert s.hist.failed + multiset([]) == s.hist.failed;
  }

  lemma {:induction false} ClearedCounts(s: Snap)
    requires Below(s)
    ensures Cleared(s) == Counted(Emptied(s), Watchdogs(s.queue))
    decreases |s.queue|
  {
    hide *;
    if s.queue == [] {
      NothingToClear(s);
      NoneCounted(s);
    } else {
      ClearedUnfolds(s);
      TopFails(s);
      CountedAside(LessTop(s), TopCount(s));
      ClearedCounts(FailedTop(s));
      CountedTwice(Emptied(s), TopCount(s), Watchdogs(LessTop(s).queue));
    }
  }

  /** The session as a reconnect begins to fail its commands. */
  function Dropped(s: Snap): Snap {
    s.(armed := s.armed - {Connect, Send, Ack, Response, Watchdog, Health}, expected := None)
  }

  lemma ReconnectingIs(s: Snap, failActive: bool)
    ensures var d := Dropped(s);
            Reconnecting(s, failActive) ==
            Cleared(if failActive && !IsReply(s.requested) then Fail(d, s.requested) else d).Arming(Reconnect)
    ensures Dropped(s).missed == s.missed && Dropped(s).tasks == s.tasks && Dropped(s).queue == s.queue
    ensures Below(s) ==> Below(Dropped(s))
  {
  }

  lemma CountedIs(s: Snap, n: nat)
    ensures var r := Counted(Emptied(s), n);
            r.missed == (s.missed + n) % LIMIT && r.tasks == s.tasks + Reconnects((s.missed + n) / LIMIT)
  {
  }

  lemma ActiveFails(d: Snap, failActive: bool)
    requires Below(d)
    ensures (if failActive && !IsReply(d.requested) then Fail(d, d.requested) else d)
         == Counted(d, Bit(failActive && d.requested == WATCHDOG_REQ))
  {
    hide Counted;
    NoneCounted(d);
    FailCounts(d, d.requested);
  }

  /** A reconnect counts every watchdog request it fails, waiting or under way, and no other command: the count
      goes on modulo four, and each fourth failure asks for one more reconnect. */
  lemma ReconnectCounts(s: Snap, failActive: bool)
    requires Below(s)
    ensures var n := Bit(failActive && s.requested == WATCHDOG_REQ) + Watchdogs(s.queue);
            && Reconnecting(s, failActive).missed == (s.missed + n) % LIMIT
            && Reconnecting(s, failActive).tasks == s.tasks + Reconnects((s.missed + n) / LIMIT)
  {
    hide *;
    var active := Bit(failActive && s.requested == WATCHDOG_REQ);
    ReconnectingIs(s, failActive);
    DroppedKeeps(s);
    ActiveFails(Dropped(s), failActive);
    CountedAside(Dropped(s), active);
    ClearedCounts(Counted(Dropped(s), active));
    CountedTwice(Emptied(Dropped(s)), active, Watchdogs(s.queue));
    CountedIs(Dropped(s), active + Watchdogs(s.queue));
    ArmedAside(Counted(Emptied(Dropped(s)), active + Watchdogs(s.queue)));
  }

  lemma DroppedKeeps(s: Snap)
    ensures Dropped(s).requested == s.requested
  {
  }

  lemma ArmedAside(s: Snap)
    ensures s.Arming(Reconnect).missed == s.missed && s.Arming(Reconnect).tasks == s.tasks
  {
  }

  lemma NoneCounted(s: Snap)
    requires Below(s)
    ensures Counted(s, 0) == s
  {
    assert s.tasks + [] == s.tasks;
  }
}
