/** The EEP client: one method per callback, changing the client's fields as the state machine says. */
module EepClient {
  import opened Options
  import opened EepModel
  import opened EepInvariants

  class Client {
    var currentState: State
    var tasks: seq<Task>
    var armed: set<Timer>
    var commandQueue: seq<Command>
    var commandSequence: nat
    var currentCmd: CmdType
    var currentCmdRequested: CmdType
    var sequenceNo: nat
    var expectedResponseSeqNo: Option<nat>
    var watchdogMissedRspCount: nat
    var stopping: bool
    ghost var hist: History

    ghost function View(): Snap
      reads this
    {
      Snap(currentState, tasks, armed, commandQueue, commandSequence, currentCmd, currentCmdRequested,
           sequenceNo, expectedResponseSeqNo, watchdogMissedRspCount, stopping, hist)
    }

    constructor ()
      ensures View() == Start() && Inv(View())
    {
      currentState, tasks, armed := IDLE, [Post(CONNECT)], {};
      commandQueue, commandSequence := [], 0;
      currentCmd, currentCmdRequested := WATCHDOG_REQ, WATCHDOG_REQ;
      sequenceNo, expectedResponseSeqNo, watchdogMissedRspCount, stopping := 0, None, 0, false;
      hist := Start().hist;
      new;
      RunInv([]);
    }

    // ---- what the I/O thread and the rest of the world do ----

    method RunOne(up: bool, ok: bool)
      requires Inv(View())
      modifies this
      ensures View() == Next(old(View()), RunTask(up, ok)) && Inv(View())
    {
      NextInv(View(), RunTask(up, ok));
      if tasks != [] {
        var t := tasks[0];
        tasks := tasks[1..];
        Deliver(t, up, ok);
      }
    }

    method ExpireTimer(t: Timer)
      requires Inv(View())
      modifies this
      ensures View() == Next(old(View()), Expire(t)) && Inv(View())
    {
      NextInv(View(), Expire(t));
      if t in armed {
        armed := armed - {t};
        PostTask(Expired(t));
      }
    }

    method ArriveTask(t: Task)
      requires Inv(View()) && External(t)
      modifies this
      ensures View() == Next(old(View()), Arrive(t)) && Inv(View())
    {
      NextInv(View(), Arrive(t));
      PostTask(t);
    }

    method CloseClient()
      requires Inv(View())
      modifies this
      ensures View() == Next(old(View()), Close) && Inv(View())
    {
      NextInv(View(), Close);
      stopping := true;
      PostTask(Shutdown);
    }

    // ---- callbacks ----

    method PostTask(t: Task)
      modifies this
      ensures View() == old(View()).Posting(t)
    {
      tasks := tasks + [t];
    }

    method Deliver(t: Task, up: bool, ok: bool)
      modifies this
      ensures View() == Delivered(old(View()), t, up, ok)
    {
      if stopping {
        if t == Shutdown { ShutdownOnIoThread(); }
        return;
      }
      match t {
        case Shutdown =>
        case Post(e) => ProcessEvent(e, up, ok);
        case Check => CheckCommandQueue();
        case Enqueue(k, priority) => EnqueueCommand(k, priority, up);
        case Connected(good) => HandleConnect(good);
        case Sent(good) => HandleSend(good);
        case Received(f) => HandleReceivedData(f);
        case Closed =>
        case Expired(timer) => HandleTimeout(timer);
        case Failure(k) => HandleCommandErrorOrTimeout(k);
      }
    }

    method ShutdownOnIoThread()
      modifies this
      ensures View() == ShutDown(old(View()))
    {
      armed := {};
      hist := hist.(discarded := hist.discarded + multiset(commandQueue));
      commandQueue := [];
    }

    method HandleConnect(success: bool)
      modifies this
      ensures View() == old(View()).Cancelling(Connect).Posting(Post(if success then CONNECT_SUCCESS else CONNECT_FAIL))
    {
      armed := armed - {Connect};
      if success { PostTask(Post(CONNECT_SUCCESS)); } else { PostTask(Post(CONNECT_FAIL)); }
    }

    method HandleSend(success: bool)
      modifies this
      ensures View() == old(View()).Cancelling(Send).Posting(Post(if success then WRITE_COMPLETED else WRITE_TIMEOUT))
    {
      armed := armed - {Send};
      if success { PostTask(Post(WRITE_COMPLETED)); } else { PostTask(Post(WRITE_TIMEOUT)); }
    }

    method HandleTimeout(t: Timer)
      modifies this
      ensures View() == TimedOut(old(View()), t)
    {
      match t {
        case Reconnect => PostTask(Post(CONNECT));
        case Connect => PostTask(Post(CONNECT_FAIL));
        case Send => PostTask(Post(WRITE_TIMEOUT));
        case Response => PostTask(Post(RESPONSE_TIMEOUT));
        case Ack => PostTask(Post(ACK_TIMEOUT));
        case Watchdog => StartWatchdogTimer();
        case Health => StartHealthStatusTimer();
      }
    }

    method StartWatchdogTimer()
      modifies this
      ensures View() == WatchdogStarted(old(View()))
    {
      armed := armed - {Watchdog};
      PostTask(Enqueue(WATCHDOG_REQ, 2));
      armed := armed + {Watchdog};
    }

    method StartHealthStatusTimer()
      modifies this
      ensures View() == HealthStarted(old(View()))
    {
      armed := armed - {Health};
      PostTask(Enqueue(HEALTH_STATUS_REQ, 4));
      armed := armed + {Health};
    }

    // ---- the command queue ----

    method CheckCommandQueue()
      modifies this
      ensures View() == CheckQueue(old(View()))
    {
      if currentState != State.CONNECTED { return; }
      if commandQueue != [] { PostTask(Post(WRITE_COMMAND)); }
    }

    method EnqueueCommand(k: CmdType, priority: int, up: bool)
      modifies this
      ensures View() == Enqueued(old(View()), k, priority, up)
    {
      hide Fail, CheckQueue;
      var command := Command(k, priority, commandSequence);
      commandSequence := commandSequence + 1;
      hist := hist.(given := hist.given + multiset{command});
      if up {
        commandQueue := commandQueue + [command];
        CheckCommandQueue();
      } else {
        hist := hist.(rejected := hist.rejected + multiset{command});
        HandleCommandErrorOrTimeout(k);
      }
    }

    /** Takes the most urgent command out of the queue. */
    method PopTop() returns (c: Command)
      requires commandQueue != []
      modifies this`commandQueue
      ensures c == old(commandQueue)[Top(old(commandQueue))]
      ensures commandQueue == Without(old(commandQueue), Top(old(commandQueue)))
    {
      var best, k := 0, 1;
      while k < |commandQueue|
        invariant best < k <= |commandQueue| && commandQueue == old(commandQueue)
        invariant forall j | 0 <= j < k :: !Before(commandQueue[j], commandQueue[best])
        invariant Top(commandQueue) == TopFrom(commandQueue, best, k)
      {
        if Before(commandQueue[k], commandQueue[best]) {
          assert forall j | 0 <= j < k ::
              Before(commandQueue[j], commandQueue[k]) ==> Before(commandQueue[j], commandQueue[best]);
          best := k;
        }
        k := k + 1;
      }
      c := commandQueue[best];
      commandQueue := commandQueue[..best] + commandQueue[best+1..];
    }

    method TakeCommand()
      requires commandQueue != []
      modifies this
      ensures View() == Taken(old(View()))
    {
      hide Top, Without;
      var cmd := PopTop();
      currentCmd := cmd.kind;
      if cmd.kind != ACK && cmd.kind != NAK { currentCmdRequested := cmd.kind; }
      hist := hist.(dispatched := hist.dispatched + multiset{cmd});
    }

    method PrepareCmd(ok: bool)
      modifies this
      ensures View() == Prepared(old(View()), ok)
    {
      if !ok {
        PostTask(Post(WRITE_TIMEOUT));
      } else if currentCmd != ACK && currentCmd != NAK {
        expectedResponseSeqNo := Some(sequenceNo);
        sequenceNo := (sequenceNo + 1) % SEQ_MOD;
        hist := hist.(prepared := hist.prepared + 1);
      }
    }

    method PopFromCommandQueueAndEnqueueWrite(ok: bool)
      modifies this
      ensures View() == Dispatched(old(View()), ok)
    {
      if commandQueue == [] { return; }
      TakeCommand();
      PrepareCmd(ok);
    }

    method FailTopCommand()
      requires commandQueue != []
      modifies this
      ensures View() == FailedTop(old(View()))
    {
      var cmd := PopTop();
      hist := hist.(failed := hist.failed + multiset{cmd});
      HandleCommandErrorOrTimeout(cmd.kind);
    }

    method ClearCommandQueue()
      modifies this
      ensures View() == Cleared(old(View()))
    {
      while commandQueue != []
        invariant Cleared(View()) == Cleared(old(View()))
        decreases |commandQueue|
      {
        ghost var s := View();
        FailTopCommand();
        assert |View().queue| == |s.queue| - 1;
      }
    }

    method HandleCommandErrorOrTimeout(k: CmdType)
      modifies this
      ensures View() == Fail(old(View()), k)
    {
      if k == WATCHDOG_REQ {
        watchdogMissedRspCount := watchdogMissedRspCount + 1;
        if watchdogMissedRspCount >= 4 {
          watchdogMissedRspCount := 0;
          PostTask(Post(RECONNECT_REQUEST));
        }
      }
    }

    // ---- events ----

    method ProcessEvent(e: Event, up: bool, ok: bool)
      modifies this
      ensures View() == Processed(old(View()), e, up, ok)
    {
      var next := Row(currentState, e);
      if next.None? { return; }
      Handle(e, up, ok);
      currentState := next.value;
      if currentState == State.CONNECTED { PostTask(Check); }
    }

    method Handle(e: Event, up: bool, ok: bool)
      requires Row(currentState, e).Some?
      modifies this
      ensures View() == Handled(old(View()), e, up, ok)
    {
      match currentState {
        case IDLE => armed := armed + {Connect};
        case CONNECTING => HandleConnectingState(e, up, ok);
        case CONNECTED => HandleConnectedState(e, up, ok);
        case WRITING_REQUEST => HandleWritingRequestState(e, up, ok);
        case WAITING_FOR_RESPONSE => HandleWaitingForResponseState(e, up, ok);
      }
    }

    method HandleConnectingState(e: Event, up: bool, ok: bool)
      requires currentState == CONNECTING && Row(currentState, e).Some?
      modifies this
      ensures View() == Handled(old(View()), e, up, ok)
    {
      if e == CONNECT_SUCCESS {
        PostTask(Enqueue(START_REQ, 1));
        StartHealthStatusTimer();
        StartWatchdogTimer();
        PostTask(Post(CHECK_COMMAND));
      } else {
        armed := armed + {Reconnect};
      }
    }

    method HandleConnectedState(e: Event, up: bool, ok: bool)
      requires currentState == State.CONNECTED && Row(currentState, e).Some?
      modifies this
      ensures View() == Handled(old(View()), e, up, ok)
    {
      if e == RECONNECT_REQUEST {
        BeginReconnect(false);
      } else if !up {
        PostTask(Post(RECONNECT_REQUEST));
      } else if e == CHECK_COMMAND {
        CheckCommandQueue();
      } else {
        PopFromCommandQueueAndEnqueueWrite(ok);
        armed := armed + {Send};
      }
    }

    method HandleWritingRequestState(e: Event, up: bool, ok: bool)
      requires currentState == WRITING_REQUEST && Row(currentState, e).Some?
      modifies this
      ensures View() == Handled(old(View()), e, up, ok)
    {
      if e == WRITE_COMPLETED {
        if currentCmd == ACK || currentCmd == NAK {
          PostTask(Post(UNSOLICITED_REQUEST_DONE));
        } else {
          armed := armed + {Ack};
        }
      } else if e == WRITE_TIMEOUT {
        if !up { PostTask(Post(RECONNECT_REQUEST)); }
        HandleCommandErrorOrTimeout(currentCmdRequested);
      } else {
        BeginReconnect(true);
      }
    }

    method HandleWaitingForResponseState(e: Event, up: bool, ok: bool)
      requires currentState == WAITING_FOR_RESPONSE && Row(currentState, e).Some?
      modifies this
      ensures View() == Handled(old(View()), e, up, ok)
    {
      match e {
        case ACK_TIMER_CANCELLED_ACK_RECEIVED => armed := armed + {Response};
        case ACK_TIMEOUT =>
          expectedResponseSeqNo := None;
          HandleCommandErrorOrTimeout(currentCmdRequested);
        case RESPONSE_TIMEOUT =>
          expectedResponseSeqNo := None;
          if !up { PostTask(Post(RECONNECT_REQUEST)); }
          HandleCommandErrorOrTimeout(currentCmdRequested);
        case RECONNECT_REQUEST => BeginReconnect(true);
        case _ =>
      }
    }

    method BeginReconnect(failActiveRequest: bool)
      modifies this
      ensures View() == Reconnecting(old(View()), failActiveRequest)
    {
      armed := armed - {Connect, Send, Ack, Response, Watchdog, Health};
      expectedResponseSeqNo := None;
      if failActiveRequest && currentCmdRequested != ACK && currentCmdRequested != NAK {
        HandleCommandErrorOrTimeout(currentCmdRequested);
      }
      ClearCommandQueue();
      armed := armed + {Reconnect};
    }

    // ---- what the peer sends ----

    method HandleReceivedData(f: Frame)
      modifies this
      ensures View() == GotFrame(old(View()), f)
    {
      match f {
        case ReadFailed => PostTask(Post(RECONNECT_REQUEST));
        case Rejected(hasHeader) => if hasHeader { PostTask(Enqueue(NAK, 0)); }
        case Message(code, seqNo, body0) => HandleMessage(code, seqNo, body0);
      }
    }

    method HandleMessage(code: int, seqNo: nat, body0: Option<int>)
      modifies this
      ensures View() == GotMessage(old(View()), code, seqNo, body0)
    {
      if Matches(currentCmdRequested, code, body0) {
        if expectedResponseSeqNo != Some(seqNo) { return; }
        armed := armed - {Ack};
        if code == 0x15 { watchdogMissedRspCount := 0; }
        hist := hist.(accepts := hist.accepts + [Accept(hist.prepared, seqNo)]);
        expectedResponseSeqNo := None;
        if code == ACK_CODE && FollowUp(currentCmdRequested).Some? {
          PostTask(Post(ACK_TIMER_CANCELLED_ACK_RECEIVED));
        } else {
          PostTask(Post(ACK_AS_RSP_RECEIVED));
        }
      } else if IsNotification(code) {
        if FollowUp(currentCmdRequested) == Some(code) {
          armed := armed - {Response};
          PostTask(Post(RESPONSE_TIMER_CANCELLED_RSP_RECEIVED));
        }
        PostTask(Enqueue(ACK, 0));
      } else {
        PostTask(Enqueue(NAK, 0));
      }
    }
  }
}
