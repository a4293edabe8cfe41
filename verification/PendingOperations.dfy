/**
  Operations that wait for events, and are then put in the work queue of the thread that
  triggered the last of them, or run on the stack of the thread that created them.
  */
module PendingOperations {
  import opened CounterNet
  import opened Dispatches
  import opened UseProtocol
  import opened JoinCounters
  import opened Turns
  import opened Waiting

  /** The action that dispatches an operation once its prerequisites are ready. */
  function DispatchOf(op: Operation): ActionRef {
    match op
    case CallableOperation(c) => EnqueueDecrementOf(c)
    case ReadyTaskOperation(t) => EnqueueTask(t)
  }

  ghost function Ids(counters: seq<JoinCounter>): seq<Id> {
    seq(|counters|, i requires 0 <= i < |counters| => counters[i].id)
  }

  /** The runtime as Turns sees it. */
  ghost function DeskOf(rt: Runtime): Desk
    reads rt, rt.counters
  {
    Desk(rt.Books(), rt.tasksRun)
  }

  class PendingOperation {
    const readyEvent: JoinCounter

    constructor (rt: Runtime)
      requires rt.Good()
      modifies rt`counters, rt`held
      ensures rt.Good() && fresh(readyEvent) && rt.counters == old(rt.counters) + [readyEvent]
      ensures rt.Owns(readyEvent) && readyEvent.id == |old(rt.counters)|
      ensures rt.Books() == Fresh(old(rt.Books()), true) && rt.held == old(rt.held) + [1]
    {
      var c := rt.NewCounter(1);
      readyEvent := c;
      new;
      FreshGrows(old(rt.Books()), true);
    }

    method AddDependencyOn(rt: Runtime, prereq: JoinCounter)
      requires rt.Good() && rt.Owns(readyEvent) && rt.Owns(prereq) && rt.held[readyEvent.id] > 0
      modifies rt`ready, rt`pendingTasks, rt`dispatching, rt`held, rt.counters
      ensures rt.dispatching == old(rt.dispatching)
      ensures rt.Good() && rt.held == old(rt.held)
      ensures rt.Books() == DependOn(old(rt.Books()), readyEvent.id, [prereq.id], true)
    {
      ghost var b := rt.Books();
      DependOnBalances(b, readyEvent.id, [prereq.id], true);
      HeldIsLive(b, readyEvent.id);
      readyEvent.IncrementCount(rt);
      ThenBalances(b, Raise(readyEvent.id), true);
      prereq.AttachAction(rt, DecrementOf(readyEvent));
    }

    method MakeReady(rt: Runtime)
      requires rt.Good() && rt.Owns(readyEvent) && rt.held[readyEvent.id] > 0
      modifies rt`ready, rt`pendingTasks, rt`dispatching, rt`held, rt.counters
      ensures rt.dispatching == old(rt.dispatching)
      ensures rt.Good() && rt.Books() == Then(old(rt.Books()), Drop(readyEvent.id), true)
    {
      readyEvent.LetGo(rt);
    }

    /** Dispatch the operation once its counter triggers.  Only an operation that is ready
        already may run in place, and only while the stack is not too deep. */
    method EnqueueOrRun(rt: Runtime, op: Operation, workerId: int, allowRunOnStack: bool) returns (ran: bool)
      requires rt.Good() && rt.Owns(readyEvent) && rt.MayRun(op)
      modifies rt`ready, rt`pendingTasks, rt`dispatching, rt`held, rt`tasksRun, rt`threadStackDepth, rt.counters
      ensures rt.dispatching == old(rt.dispatching)
      ensures rt.Good() && rt.threadStackDepth == old(rt.threadStackDepth)
      ensures ran <==> allowRunOnStack && workerId == rt.thisWorkerId && rt.threadStackDepth < rt.maxTaskDepth &&
                       old(readyEvent.triggered)
      ensures Dispatched(old(rt.Books()), rt.Books(), readyEvent.id, op, ran)
      ensures ran && op.ReadyTaskOperation? ==> rt.tasksRun == old(rt.tasksRun) + [op.task]
      ensures !ran || op.CallableOperation? ==> rt.tasksRun == old(rt.tasksRun)
    {
      hide Balanced, Settled, Then, DispatchesIn, Runtime.Valid, Runtime.Abs;
      rt.BeginDispatch();
      ran := allowRunOnStack && rt.threadStackDepth < rt.maxTaskDepth && workerId == rt.thisWorkerId &&
             readyEvent.triggered;
      if ran {
        rt.threadStackDepth := rt.threadStackDepth + 1;
        assert rt.threadStackDepth <= rt.maxTaskDepth;
        RunOperation(rt, op);
        rt.threadStackDepth := rt.threadStackDepth - 1;
        rt.EndDispatch();
      } else {
        readyEvent.AttachAction(rt, DispatchOf(op));
      }
    }
  }

  /** An operation that runs on the spot has its effect now; one that is dispatched leaves
      a pending action behind, on the counter or in the queue.  Never both. */
  ghost predicate Dispatched(before: Books, after: Books, ready: Id, op: Operation, ran: bool) {
    after ==
      if !ran then Then(before, Attach(ready, AbsOperation(op)), true)
      else if op.CallableOperation? then Then(before, Drop(op.counter.id), true)
      else before
  }

  /** A worker runs an operation.  What a task does is not modelled; that it was run, once, is. */
  method RunOperation(rt: Runtime, op: Operation)
    requires rt.Good() && rt.MayRun(op)
    modifies rt`ready, rt`pendingTasks, rt`dispatching, rt`held, rt`tasksRun, rt.counters
    ensures rt.dispatching == old(rt.dispatching)
    ensures rt.Good()
    ensures op.ReadyTaskOperation? ==> rt.tasksRun == old(rt.tasksRun) + [op.task]
    ensures op.CallableOperation? ==> rt.tasksRun == old(rt.tasksRun)
    ensures forall r :: Dispatched(old(rt.Books()), rt.Books(), r, op, true)
  {
    hide Balanced, Settled, Then;
    match op
    case CallableOperation(c) => c.LetGo(rt);
    case ReadyTaskOperation(t) => rt.tasksRun := rt.tasksRun + [t];
  }

  /** What a worker finds in its queue: something to run, or the message that all is done. */
  datatype Received = Runnable(op: Operation) | AllTasksDone

  /** The worker leaves its loop exactly when it got the message; otherwise the operation has
      its effect. */
  method RunReceived(rt: Runtime, received: Received) returns (leave: bool)
    requires rt.Good() && (received.Runnable? ==> rt.MayRun(received.op))
    modifies rt`ready, rt`pendingTasks, rt`dispatching, rt`held, rt`tasksRun, rt.counters
    ensures rt.Good() && rt.dispatching == old(rt.dispatching)
    ensures leave <==> received == AllTasksDone
    ensures leave ==> rt.Books() == old(rt.Books()) && rt.tasksRun == old(rt.tasksRun)
    ensures !leave && received.op.ReadyTaskOperation? ==> rt.tasksRun == old(rt.tasksRun) + [received.op.task]
    ensures !leave && received.op.CallableOperation? ==> rt.tasksRun == old(rt.tasksRun)
    ensures !leave ==> forall r :: Dispatched(old(rt.Books()), rt.Books(), r, received.op, true)
  {
    match received
    case Runnable(op) =>
      RunOperation(rt, op);
      leave := false;
    case AllTasksDone =>
      leave := true;
  }

  /** A worker takes the next operation out of its queue, if there is one, and runs it. */
  method TakeTurn(rt: Runtime) returns (worked: bool)
    requires rt.Good()
    modifies rt, rt.counters
    ensures rt.Good() && rt.dispatching == old(rt.dispatching)
    ensures worked <==> old(rt.ready) != []
    ensures !worked ==> DeskOf(rt) == old(DeskOf(rt))
    ensures worked ==>
              var front := old(rt.ready)[0];
              if front.ReadyTaskOperation? then DeskOf(rt) == After(old(DeskOf(rt)), TakeTask(front.task))
              else DeskOf(rt) == After(old(DeskOf(rt)), TakeDecrement(front.counter.id))
  {
    hide Balanced, Settled, Then, TakenOut, Runtime.Good, Runtime.Valid, Runtime.Abs;
    worked := rt.ready != [];
    if worked {
      var op := rt.TakeReady();
      ghost var taken := rt.Books();
      var leave := RunReceived(rt, Runnable(op));
      assert Dispatched(taken, rt.Books(), 0, op, true);
    }
  }

  method AddAll(rt: Runtime, pending: PendingOperation, triggers: seq<JoinCounter>)
    requires rt.Good() && rt.Owns(pending.readyEvent) && forall c :: c in triggers ==> rt.Owns(c)
    requires pending.readyEvent.id < |rt.held| && rt.held[pending.readyEvent.id] > 0
    modifies rt`ready, rt`pendingTasks, rt`dispatching, rt`held, rt.counters
    ensures rt.dispatching == old(rt.dispatching) && rt.Good() && rt.held == old(rt.held)
    ensures rt.Books() == DependOn(old(rt.Books()), pending.readyEvent.id, Ids(triggers), true)
  {
    hide Balanced, Settled, Then, DependOn, DispatchesIn, Runtime.Good, Runtime.Valid, Runtime.Abs;
    ghost var b, r := rt.Books(), pending.readyEvent.id;
    assert Ids(triggers[0..]) == Ids(triggers);
    for i := 0 to |triggers|
      invariant rt.Good() && rt.held == b.held && rt.dispatching == old(rt.dispatching)
      invariant DependOn(rt.Books(), r, Ids(triggers[i..]), true) == DependOn(b, r, Ids(triggers), true)
    {
      FirstId(triggers, i);
      DependOnSplits(rt.Books(), r, triggers[i].id, Ids(triggers[i + 1..]));
      assert triggers[i] in triggers;
      pending.AddDependencyOn(rt, triggers[i]);
    }
    assert Ids(triggers[|triggers|..]) == [];
    NothingToAdd(rt.Books(), r);
  }

  /** Add the triggers, and let go of the setup count. */
  method SetUp(rt: Runtime, pending: PendingOperation, triggers: seq<JoinCounter>)
    requires rt.Good() && rt.Owns(pending.readyEvent) && forall c :: c in triggers ==> rt.Owns(c)
    requires pending.readyEvent.id < |rt.held| && rt.held[pending.readyEvent.id] > 0
    modifies rt`ready, rt`pendingTasks, rt`dispatching, rt`held, rt.counters
    ensures rt.dispatching == old(rt.dispatching) && rt.Good()
    ensures var r := pending.readyEvent.id;
      rt.Books() == Then(DependOn(old(rt.Books()), r, Ids(triggers), true), Drop(r), true)
  {
    hide Balanced, Settled, Then, DependOn, DispatchesIn, Runtime.Good, Runtime.Valid, Runtime.Abs;
    AddAll(rt, pending, triggers);
    pending.MakeReady(rt);
  }

  /** A new pending operation that waits for all the triggers. */
  method AwaitAll(rt: Runtime, triggers: seq<JoinCounter>) returns (pending: PendingOperation)
    requires rt.Good() && forall c :: c in triggers ==> rt.Owns(c)
    modifies rt, rt.counters
    ensures rt.dispatching == old(rt.dispatching)
    ensures rt.Good() && rt.Owns(pending.readyEvent) && rt.counters == old(rt.counters) + [pending.readyEvent]
    ensures fresh(pending.readyEvent) && pending.readyEvent.id == |old(rt.counters)|
    ensures rt.Books() == Awaiting(old(rt.Books()), Ids(triggers), true)
    ensures rt.threadStackDepth == old(rt.threadStackDepth) && rt.tasksRun == old(rt.tasksRun)
  {
    hide Balanced, Settled, Then, Fresh, DependOn, DispatchesIn;
    assert |rt.held| == |rt.counters|;
    hide Runtime.Good, Runtime.Valid, Runtime.Abs;
    pending := new PendingOperation(rt);
    SetUp(rt, pending, triggers);
  }

  method WhenAllReadyDo(rt: Runtime, triggers: seq<JoinCounter>, op: Operation, workerId: int, allowRunOnStack: bool)
    returns (ran: bool)
    requires rt.Good() && rt.MayRun(op) && forall c :: c in triggers ==> rt.Owns(c)
    modifies rt, rt.counters
    ensures rt.dispatching == old(rt.dispatching)
    ensures rt.Good() && rt.threadStackDepth == old(rt.threadStackDepth)
    ensures |rt.counters| == |old(rt.counters)| + 1 && rt.counters[..|old(rt.counters)|] == old(rt.counters)
    ensures fresh(rt.counters[|old(rt.counters)|])
    ensures ran <==> allowRunOnStack && workerId == rt.thisWorkerId && rt.threadStackDepth < rt.maxTaskDepth &&
                     forall c :: c in triggers ==> old(c.triggered)
    ensures Dispatched(Awaiting(old(rt.Books()), Ids(triggers), true), rt.Books(), |old(rt.counters)|, op, ran)
    ensures ran && op.ReadyTaskOperation? ==> rt.tasksRun == old(rt.tasksRun) + [op.task]
    ensures !ran || op.CallableOperation? ==> rt.tasksRun == old(rt.tasksRun)
    ensures op.ReadyTaskOperation? ==>
              var inPlace := allowRunOnStack && workerId == rt.thisWorkerId && rt.threadStackDepth < rt.maxTaskDepth;
              DeskOf(rt) == After(old(DeskOf(rt)), SubmitTask(Ids(triggers), op.task, inPlace))
  {
    hide Balanced, Settled, Then, Awaiting;
    ghost var b := rt.Books();
    forall d | d in Ids(triggers) ensures d < |b.held| {
      var i :| 0 <= i < |triggers| && d == Ids(triggers)[i];
      assert triggers[i] in triggers;
    }
    ReadyWhenAllWere(b, Ids(triggers));
    TriggersHaveFired(rt, triggers);
    var pending := AwaitAll(rt, triggers);
    AwaitingGrows(b, Ids(triggers), true);
    assert rt.Abs().net[|b.held|] == pending.readyEvent.Abs();
    ran := pending.EnqueueOrRun(rt, op, workerId, allowRunOnStack);
  }

  /** What the heap says about the triggers, and what the network does. */
  lemma TriggersHaveFired(rt: Runtime, triggers: seq<JoinCounter>)
    requires rt.Valid() && forall c :: c in triggers ==> rt.Owns(c)
    ensures (forall c: Id :: c in Ids(triggers) ==> Fired(rt.Abs(), c)) <==> (forall c :: c in triggers ==> c.triggered)
  {
    forall i | 0 <= i < |triggers| ensures Fired(rt.Abs(), Ids(triggers)[i]) <==> triggers[i].triggered {
      assert triggers[i] in triggers;
      assert rt.Abs().net[triggers[i].id] == triggers[i].Abs();
    }
    if forall c: Id :: c in Ids(triggers) ==> Fired(rt.Abs(), c) {
      forall c | c in triggers ensures c.triggered {
        var i :| 0 <= i < |triggers| && triggers[i] == c;
        assert Ids(triggers)[i] in Ids(triggers);
      }
    }
    if forall c :: c in triggers ==> c.triggered {
      forall c: Id | c in Ids(triggers) ensures Fired(rt.Abs(), c) {
        var i :| 0 <= i < |triggers| && Ids(triggers)[i] == c;
        assert triggers[i] in triggers;
      }
    }
  }

  lemma FirstId(counters: seq<JoinCounter>, i: nat)
    requires i < |counters|
    ensures Ids(counters[i..]) == [counters[i].id] + Ids(counters[i + 1..])
  {
  }

  lemma NothingToAdd(b: Books, ready: Id)
    ensures DependOn(b, ready, [], true) == b
  {
  }

  lemma DependOnSplits(b: Books, ready: Id, first: Id, more: seq<Id>)
    ensures DependOn(b, ready, [first] + more, true) == DependOn(DependOn(b, ready, [first], true), ready, more, true)
  {
    assert ([first] + more)[1..] == more;
    assert [first][1..] == [];
  }
}
