/**
  Join counters as the runtime keeps them: heap objects that are updated in place and
  point at one another through the actions attached to them.  Decrementing a counter
  to zero runs a depth-first cascade through the object graph.

  Each method is tied to the machine of module CounterNet: a cascade leaves the heap in
  the one state in which every order of running the actions would have left it.
  */
module JoinCounters {
  import opened Cascades
  import opened CounterNet
  import opened Dispatches
  import opened Turns
  import opened UseProtocol

  datatype ActionRef =
    | DecrementOf(counter: JoinCounter)
    | EnqueueDecrementOf(counter: JoinCounter)
    | EnqueueTask(task: nat)

  lemma FirstAction(actions: seq<ActionRef>, i: nat)
    requires i < |actions|
    ensures AbsActions(actions[i..]) == [AbsAction(actions[i])] + AbsActions(actions[i + 1..])
  {
  }

  /** What sits in a worker's queue. */
  datatype Operation =
    | CallableOperation(counter: JoinCounter)  // runs a deferred decrement
    | ReadyTaskOperation(task: nat)

  ghost function AbsAction(a: ActionRef): Action {
    match a
    case DecrementOf(c) => Decrement(c.id)
    case EnqueueDecrementOf(c) => Alias(c.id)
    case EnqueueTask(t) => Launch(t)
  }

  ghost function AbsActions(actions: seq<ActionRef>): seq<Action> {
    seq(|actions|, i requires 0 <= i < |actions| => AbsAction(actions[i]))
  }

  ghost function AbsOperation(op: Operation): Action {
    match op
    case CallableOperation(c) => Alias(c.id)
    case ReadyTaskOperation(t) => Launch(t)
  }

  lemma FrontIsWork(ops: seq<Operation>)
    requires ops != []
    ensures AbsOperation(ops[0]) in multiset(AbsOperations(ops)) && !AbsOperation(ops[0]).Decrement?
    ensures multiset(AbsOperations(ops[1..])) == multiset(AbsOperations(ops)) - multiset{AbsOperation(ops[0])}
  {
    assert AbsOperations(ops) == [AbsOperation(ops[0])] + AbsOperations(ops[1..]);
  }

  lemma TakingKeeps(b: Books, op: Operation)
    requires Settled(b.state, false)
    ensures var a := AbsOperation(op); var t := TakenOut(b, a);
      && t.state == State(b.state.net, b.state.work - multiset{a}) && Settled(t.state, false)
      && (op.CallableOperation? ==> a == Alias(op.counter.id))
  {
    var t := TakenOut(b, AbsOperation(op)).state;
    forall m ensures !Enabled(t, m, false) {
      assert !Enabled(b.state, m, false);
    }
  }

  ghost function AbsOperations(ops: seq<Operation>): seq<Action> {
    seq(|ops|, i requires 0 <= i < |ops| => AbsOperation(ops[i]))
  }

  /** The operations these actions put into the queue themselves, in order. */
  function OperationsOf(actions: seq<ActionRef>): seq<Operation> {
    if actions == [] then []
    else
      OperationsOf(actions[..|actions| - 1]) +
      match actions[|actions| - 1]
      case DecrementOf(_) => []
      case EnqueueDecrementOf(c) => [CallableOperation(c)]
      case EnqueueTask(t) => [ReadyTaskOperation(t)]
  }

  /** `part` is in `whole`, in this order, perhaps with others in between. */
  predicate InThisOrder(part: seq<Operation>, whole: seq<Operation>) {
    part == [] ||
    (whole != [] &&
     (InThisOrder(part, whole[..|whole| - 1]) ||
      (part[|part| - 1] == whole[|whole| - 1] && InThisOrder(part[..|part| - 1], whole[..|whole| - 1]))))
  }

  /** What came into the queue since it was `before`. */
  function Since(before: seq<Operation>, queue: seq<Operation>): seq<Operation> {
    if |before| <= |queue| then queue[|before|..] else []
  }

  lemma {:induction false} MoreInBetween(part: seq<Operation>, whole: seq<Operation>, more: seq<Operation>)
    requires InThisOrder(part, whole)
    ensures InThisOrder(part, whole + more)
  {
    if more == [] {
      assert whole + more == whole;
    } else {
      var all := whole + more;
      MoreInBetween(part, whole, more[..|more| - 1]);
      assert all[..|all| - 1] == whole + more[..|more| - 1];
    }
  }

  /** One more action: what it enqueues itself comes behind what the ones before enqueued. */
  lemma OneMoreInOrder(actions: seq<ActionRef>, i: nat,
                       before: seq<Operation>, mid: seq<Operation>, now: seq<Operation>)
    requires i < |actions| && before <= mid <= now
    requires InThisOrder(OperationsOf(actions[..i]), Since(before, mid))
    requires match actions[i]
             case DecrementOf(_) => true
             case EnqueueDecrementOf(c) => now == mid + [CallableOperation(c)]
             case EnqueueTask(t) => now == mid + [ReadyTaskOperation(t)]
    ensures InThisOrder(OperationsOf(actions[..i + 1]), Since(before, now))
  {
    var first, part, whole := actions[..i + 1], OperationsOf(actions[..i]), Since(before, mid);
    assert first[..i] == actions[..i] && first[i] == actions[i];
    if actions[i].DecrementOf? {
      assert OperationsOf(first) == part;
      assert Since(before, now) == whole + now[|mid|..];
      MoreInBetween(part, whole, now[|mid|..]);
    } else {
      var op := now[|mid|];
      assert OperationsOf(first) == part + [op];
      assert Since(before, now) == whole + [op];
      OneMoreInBoth(part, whole, op);
    }
  }

  lemma NothingInOrder(actions: seq<ActionRef>, before: seq<Operation>)
    ensures InThisOrder(OperationsOf(actions[..0]), Since(before, before))
  {
  }

  lemma OneMoreInBoth(part: seq<Operation>, whole: seq<Operation>, op: Operation)
    requires InThisOrder(part, whole)
    ensures InThisOrder(part + [op], whole + [op])
  {
    assert (part + [op])[..|part|] == part && (whole + [op])[..|whole|] == whole;
  }

  /** The part of the runtime the counters share: the counters created so far and the
      queue that finished cascades add operations to.  `dispatching` counts the operations
      that are handed over or run in place at this moment. */
  class Runtime {
    ghost var counters: seq<JoinCounter>
    ghost var held: seq<nat>
    var ready: seq<Operation>
    var tasksRun: seq<nat>
    var pendingTasks: int
    ghost var dispatching: nat
    var threadStackDepth: nat
    const maxTaskDepth: nat
    const thisWorkerId: int

    ghost predicate Owns(c: JoinCounter)
      reads `counters
    {
      c.id < |counters| && counters[c.id] == c
    }

    ghost predicate OwnsTarget(a: ActionRef)
      reads `counters
    {
      !a.EnqueueTask? ==> Owns(a.counter)
    }

    ghost predicate OwnsTargets(actions: seq<ActionRef>)
      reads `counters
    {
      forall a :: a in actions ==> OwnsTarget(a)
    }

    ghost predicate Valid()
      reads `counters, `held, `ready, counters
    {
      && (forall i :: 0 <= i < |counters| ==> counters[i].id == i)
      && (forall i :: 0 <= i < |counters| ==> OwnsTargets(counters[i].actions))
      && (forall op :: op in ready && op.CallableOperation? ==> Owns(op.counter))
    }

    ghost function Abs(): (s: State)
      reads `counters, `held, `ready, counters
      ensures |s.net| == |counters|
    {
      var cs := counters;
      State(seq(|cs|, i requires 0 <= i < |cs| reads cs => cs[i].Abs()), multiset(AbsOperations(ready)))
    }

    method Enqueue(op: Operation)
      requires Valid() && (op.CallableOperation? ==> Owns(op.counter))
      modifies `ready
      ensures Valid() && ready == old(ready) + [op]
      ensures Abs() == Plus(old(Abs()), multiset{AbsOperation(op)})
    {
      ready := ready + [op];
      assert AbsOperations(ready) == AbsOperations(old(ready)) + [AbsOperation(op)];
      assert Abs().net == old(Abs()).net;
    }

    /** An operation that waited for a counter goes into the queue. */
    method Dispatch(op: Operation)
      requires Valid() && (op.CallableOperation? ==> Owns(op.counter))
      modifies `ready, `pendingTasks
      ensures Valid() && ready == old(ready) + [op] && pendingTasks == old(pendingTasks) - 1
      ensures Abs() == Plus(old(Abs()), multiset{AbsOperation(op)})
    {
      Enqueue(op);
      pendingTasks := pendingTasks - 1;
    }

    method BeginDispatch()
      requires Good()
      modifies `pendingTasks, `dispatching
      ensures Good() && pendingTasks == old(pendingTasks) + 1 && dispatching == old(dispatching) + 1
    {
      hide Balanced, Settled, DispatchesIn;
      pendingTasks, dispatching := pendingTasks + 1, dispatching + 1;
    }

    method EndDispatch()
      requires Good() && dispatching > 0
      modifies `pendingTasks, `dispatching
      ensures Good() && pendingTasks == old(pendingTasks) - 1 && dispatching == old(dispatching) - 1
    {
      hide Balanced, Settled, DispatchesIn;
      pendingTasks, dispatching := pendingTasks - 1, dispatching - 1;
    }

    /** What an update of a single counter does to the abstract state. */
    twostate lemma OnlyChanged(c: JoinCounter)
      requires old(Valid()) && counters == old(counters) && ready == old(ready) && Owns(c)
      requires forall i :: 0 <= i < |counters| && i != c.id ==> unchanged(counters[i])
      ensures Abs() == State(old(Abs()).net[c.id := c.Abs()], old(Abs()).work)
    {
      assert Abs().net == old(Abs()).net[c.id := c.Abs()];
    }

    constructor (workerId: int, maxTaskDepth: nat)
      ensures Good() && counters == [] && ready == [] && held == []
      ensures thisWorkerId == workerId && this.maxTaskDepth == maxTaskDepth && threadStackDepth == 0
    {
      counters, held, ready, tasksRun := [], [], [], [];
      pendingTasks, dispatching := 0, 0;
      this.maxTaskDepth, thisWorkerId, threadStackDepth := maxTaskDepth, workerId, 0;
      new;
      assert Abs() == State([], multiset{});
    }

    ghost function Books(): Books
      reads `counters, `held, `ready, counters
    {
      UseProtocol.Books(Abs(), held)
    }

    /** Between two operations of the thread: the books are balanced, no cascade is under
        way, and `pendingTasks` counts the operations attached and not dispatched yet. */
    ghost predicate Good()
      reads `counters, `held, `ready, `pendingTasks, `dispatching, counters
    {
      && Valid() && |held| == |counters| && Balanced(Books()) && Settled(Abs(), false)
      && pendingTasks == DispatchesIn(Abs().net) + dispatching
    }

    lemma QueueIsWork()
      requires Valid()
      ensures |ready| == |Abs().work|
    {
    }

    /** A deferred decrement is one the thread owes. */
    ghost predicate MayRun(op: Operation)
      reads `counters, `held
    {
      op.CallableOperation? ==> Owns(op.counter) && op.counter.id < |held| && held[op.counter.id] > 0
    }

    /** The front of the queue, for a worker to run.  A deferred decrement is now owed by the
        worker. */
    method TakeReady() returns (op: Operation)
      requires Good() && ready != []
      modifies `ready, `held
      ensures Good() && op == old(ready)[0] && ready == old(ready)[1..] && MayRun(op)
      ensures Books() == TakenOut(old(Books()), AbsOperation(op))
    {
      hide Balanced, Settled, DispatchesIn, TakenOut, AbsOperation, AbsOperations;
      ghost var b := Books();
      op := ready[0];
      FrontIsWork(ready);
      TakingBalances(b, AbsOperation(op));
      TakingKeeps(b, op);
      assert op in ready && forall o :: o in ready[1..] ==> o in ready;
      ready := ready[1..];
      held := TakenOut(b, AbsOperation(op)).held;
      assert Abs().net == b.state.net;
      assert Books() == TakenOut(b, AbsOperation(op));
    }

    method NewCounter(count: nat) returns (c: JoinCounter)
      requires Good() && count > 0
      modifies `counters, `held
      ensures Good() && fresh(c) && counters == old(counters) + [c] && c.id == |old(counters)|
      ensures Books() == Then(old(Books()), Create(count), true)
    {
      hide Balanced, Settled, DispatchesIn, Then;
      c := new JoinCounter(count, |counters|);
      ghost var b := Books();
      CreateAdds(b, count);
      counters, held := counters + [c], held + [count];
      assert Abs().net == b.state.net + [Counter(count, false, [])];
      assert Books() == Then(b, Create(count), true);
    }
  }

  class JoinCounter {
    ghost const id: nat
    var count: nat
    var triggered: bool
    var actions: seq<ActionRef>

    ghost function Abs(): Counter
      reads this
    {
      Counter(count, triggered, AbsActions(actions))
    }

    constructor (initialCount: nat, ghost id: nat)
      ensures this.id == id && Abs() == Counter(initialCount, false, [])
    {
      this.id := id;
      count, triggered, actions := initialCount, false, [];
    }

    method DecrementCount(rt: Runtime)
      requires rt.Valid() && rt.Owns(this) && CanRun(rt.Abs(), [Decrement(id)])
      modifies rt`ready, rt`pendingTasks, rt.counters
      ensures rt.Valid() && rt.Abs() == Ran(old(rt.Abs()), [Decrement(id)])
      ensures rt.pendingTasks + |rt.ready| == old(rt.pendingTasks + |rt.ready|) && old(rt.ready) <= rt.ready
      decreases Cost(rt.Abs(), [Decrement(id)]), 0
    {
      hide CanRun, Ran, Cost, CanTrigger;
      OneDecrement(rt.Abs(), id);
      assert rt.Abs().net[id] == Abs();
      assert !triggered;
      count := count - 1;
      rt.OnlyChanged(this);
      if count == 0 {
        MakeReady(rt);
      }
    }

    /** A client that knows something is still owed here is owed one more itself. */
    method IncrementCount(rt: Runtime)
      requires rt.Good() && rt.Owns(this) && Live(rt.Books(), id)
      modifies this, rt`held
      ensures rt.Good() && rt.Books() == Then(old(rt.Books()), Raise(id), true)
    {
      hide Balanced, Settled, DispatchesIn, Then, HeldAfter, Live;
      ghost var b := rt.Books();
      RaiseAdds(b, id);
      assert rt.Abs().net[id] == Abs();
      count := count + 1;
      rt.held := HeldAfter(b, Raise(id));
      rt.OnlyChanged(this);
      assert rt.Books() == Then(b, Raise(id), true);
    }

    /** A client gives up one of the decrements it owes. */
    method LetGo(rt: Runtime)
      requires rt.Good() && rt.Owns(this) && rt.held[id] > 0
      modifies rt`ready, rt`pendingTasks, rt`held, rt.counters
      ensures rt.Good() && rt.Books() == Then(old(rt.Books()), Drop(id), true)
    {
      hide CanRun, Ran, Then, Balanced, Settled, HeldAfter;
      ghost var b := rt.Books();
      DropRuns(b, id);
      ThenOutstanding(b, Drop(id));
      rt.QueueIsWork();
      DecrementCount(rt);
      rt.QueueIsWork();
      rt.held := HeldAfter(b, Drop(id));
      assert rt.Books() == Then(b, Drop(id), true);
    }

    /** Keep the action for when the counter triggers. */
    method Keep(rt: Runtime, a: ActionRef)
      requires rt.Valid() && rt.Owns(this) && rt.OwnsTarget(a) && !triggered
      modifies this
      ensures rt.Valid() && rt.Abs() == Perform(old(rt.Abs()), Attach(id, AbsAction(a)))
    {
      ghost var before := actions;
      actions := actions + [a];
      rt.OnlyChanged(this);
      assert AbsActions(actions) == AbsActions(before) + [AbsAction(a)];
    }

    method RunOrKeep(rt: Runtime, a: ActionRef)
      requires rt.Valid() && rt.Owns(this) && rt.OwnsTarget(a)
      requires triggered ==> CanRun(rt.Abs(), [AbsAction(a)])
      modifies rt`ready, rt`pendingTasks, rt.counters
      ensures rt.Valid() && rt.pendingTasks + |rt.ready| == old(rt.pendingTasks + |rt.ready|)
      ensures rt.Abs() == if old(rt.Abs().net[id].triggered) then Ran(old(rt.Abs()), [AbsAction(a)])
                          else Perform(old(rt.Abs()), Attach(id, AbsAction(a)))
    {
      hide CanRun, Ran, Perform;
      assert rt.Abs().net[id] == Abs();
      if triggered {
        RunAction(rt, a);
      } else {
        Keep(rt, a);
      }
    }

    /** Run the action when the counter triggers, or at once if it has; a decrement in it
        discharges one the client owes, and a dispatch is handed over. */
    method AttachAction(rt: Runtime, a: ActionRef)
      requires rt.Good() && rt.Owns(this) && rt.OwnsTarget(a)
      requires !a.EnqueueTask? ==> rt.held[a.counter.id] > 0
      requires !a.DecrementOf? ==> rt.dispatching > 0
      modifies rt`ready, rt`pendingTasks, rt`dispatching, rt`held, rt.counters
      ensures rt.Good() && rt.Books() == Then(old(rt.Books()), Attach(id, AbsAction(a)), true)
      ensures rt.dispatching + (if a.DecrementOf? then 0 else 1) == old(rt.dispatching)
    {
      hide CanRun, Ran, Then, Balanced, Settled, HeldAfter, DispatchesIn, Perform;
      ghost var b := rt.Books();
      assert Permitted(b, Attach(id, AbsAction(a)));
      AttachRuns(b, id, AbsAction(a));
      ThenOutstanding(b, Attach(id, AbsAction(a)));
      rt.QueueIsWork();
      hide Permitted, AbsAction;
      RunOrKeep(rt, a);
      rt.held := HeldAfter(b, Attach(id, AbsAction(a)));
      rt.dispatching := if a.DecrementOf? then rt.dispatching else rt.dispatching - 1;
      rt.QueueIsWork();
      assert rt.Books() == Then(b, Attach(id, AbsAction(a)), true);
    }

    /** The counter has just reached zero: store the flag, take the actions, run them. */
    method MakeReady(rt: Runtime)
      requires rt.Valid() && rt.Owns(this) && CanTrigger(rt.Abs(), id)
      modifies rt`ready, rt`pendingTasks, rt.counters
      ensures rt.Valid() && rt.Abs() == Ran(old(rt.Abs()), [])
      ensures rt.pendingTasks + |rt.ready| == old(rt.pendingTasks + |rt.ready|) && old(rt.ready) <= rt.ready
      ensures InThisOrder(OperationsOf(old(actions)), Since(old(rt.ready), rt.ready))
      decreases Cost(rt.Abs(), []), 3
    {
      hide CanRun, Ran, Cost;
      OneFire(rt.Abs(), id);
      triggered := true;
      var taken := actions;
      actions := [];
      rt.OnlyChanged(this);
      assert AbsActions(actions) == [];
      RunActions(rt, taken);
    }

    /** Drain a list of actions nobody else can reach any more, front to back. */
    static method RunActions(rt: Runtime, taken: seq<ActionRef>)
      requires rt.Valid() && rt.OwnsTargets(taken) && CanRun(rt.Abs(), AbsActions(taken))
      modifies rt`ready, rt`pendingTasks, rt.counters
      ensures rt.Valid() && rt.Abs() == Ran(old(rt.Abs()), AbsActions(taken))
      ensures rt.pendingTasks + |rt.ready| == old(rt.pendingTasks + |rt.ready|) && old(rt.ready) <= rt.ready
      ensures InThisOrder(OperationsOf(taken), Since(old(rt.ready), rt.ready))
      decreases Cost(rt.Abs(), AbsActions(taken)), 2
    {
      hide CanRun, Ran, Cost, InThisOrder, OperationsOf, Since;
      ghost var s0, all := rt.Abs(), AbsActions(taken);
      assert taken[0..] == taken;
      NothingInOrder(taken, rt.ready);
      for i := 0 to |taken|
        invariant rt.Valid() && rt.pendingTasks + |rt.ready| == old(rt.pendingTasks + |rt.ready|)
        invariant old(rt.ready) <= rt.ready
        invariant InThisOrder(OperationsOf(taken[..i]), Since(old(rt.ready), rt.ready))
        invariant StillToRun(s0, all, rt.Abs(), AbsActions(taken[i..]))
      {
        FirstAction(taken, i);
        OneAction(s0, all, rt.Abs(), AbsAction(taken[i]), AbsActions(taken[i + 1..]));
        ghost var queue := rt.ready;
        RunAction(rt, taken[i]);
        OneMoreInOrder(taken, i, old(rt.ready), queue, rt.ready);
      }
      assert taken[..|taken|] == taken;
      assert AbsActions(taken[|taken|..]) == [];
      NothingLeft(s0, all, rt.Abs());
    }

    static method RunAction(rt: Runtime, a: ActionRef)
      requires rt.Valid() && rt.OwnsTarget(a) && CanRun(rt.Abs(), [AbsAction(a)])
      modifies rt`ready, rt`pendingTasks, rt.counters
      ensures rt.Valid() && rt.Abs() == Ran(old(rt.Abs()), [AbsAction(a)])
      ensures rt.pendingTasks + |rt.ready| == old(rt.pendingTasks + |rt.ready|) && old(rt.ready) <= rt.ready
      ensures a.EnqueueDecrementOf? ==> rt.ready == old(rt.ready) + [CallableOperation(a.counter)]
      ensures a.EnqueueTask? ==> rt.ready == old(rt.ready) + [ReadyTaskOperation(a.task)]
      decreases Cost(rt.Abs(), [AbsAction(a)]), 1
    {
      hide CanRun, Ran, Cost;
      match a
      case DecrementOf(c) =>
        c.DecrementCount(rt);
      case EnqueueDecrementOf(c) =>
        OneEnqueue(rt.Abs(), AbsAction(a));
        rt.Dispatch(CallableOperation(c));
      case EnqueueTask(t) =>
        OneEnqueue(rt.Abs(), AbsAction(a));
        rt.Dispatch(ReadyTaskOperation(t));
    }
  }

  // ---------------------------------------------------------------- clients, between cascades

  lemma CreateSettles(s: State, k: nat)
    requires Safe(s) && Settled(s, false) && k > 0
    ensures Safe(Perform(s, Create(k))) && Settle(Perform(s, Create(k)), false) == Perform(s, Create(k))
  {
    CreateConserves(s, k);
    var t := Perform(s, Create(k));
    forall m ensures !Enabled(t, m, false) {
      assert Enabled(t, m, false) ==> Enabled(s, m, false);
    }
  }

  lemma CreateAdds(b: Books, k: nat)
    requires Balanced(b) && Settled(b.state, false) && k > 0
    ensures var t := Then(b, Create(k), true);
      && t == UseProtocol.Books(State(b.state.net + [Counter(k, false, [])], b.state.work), b.held + [k])
      && Balanced(t) && Settled(t.state, false) && DispatchesIn(t.state.net) == DispatchesIn(b.state.net)
  {
    ThenBalances(b, Create(k), true);
    CreateSettles(b.state, k);
    ThenOutstanding(b, Create(k));
  }

  lemma RaiseSettles(s: State, c: Id)
    requires Safe(s) && Settled(s, false) && c < |s.net| && s.net[c].count > 0
    ensures Safe(Perform(s, Raise(c))) && Settle(Perform(s, Raise(c)), false) == Perform(s, Raise(c))
  {
    RaiseConserves(s, c);
    var t := Perform(s, Raise(c));
    forall m ensures !Enabled(t, m, false) {
      assert Enabled(t, m, false) ==> Enabled(s, m, false);
    }
  }

  lemma RaiseAdds(b: Books, c: Id)
    requires Balanced(b) && Settled(b.state, false) && c < |b.held| && Live(b, c)
    ensures var t, k := Then(b, Raise(c), true), b.state.net[c];
      && t.state == State(b.state.net[c := k.(count := k.count + 1)], b.state.work)
      && t.held == HeldAfter(b, Raise(c)) && |t.held| == |b.held|
      && Balanced(t) && Settled(t.state, false) && DispatchesIn(t.state.net) == DispatchesIn(b.state.net)
  {
    ThenBalances(b, Raise(c), true);
    RaiseSettles(b.state, c);
    ThenOutstanding(b, Raise(c));
  }

  lemma DropRuns(b: Books, c: Id)
    requires Balanced(b) && Settled(b.state, false) && c < |b.held| && b.held[c] > 0
    ensures var t := Then(b, Drop(c), true);
      && t.held == HeldAfter(b, Drop(c)) && Balanced(t) && Settled(t.state, false)
      && CanRun(b.state, [Decrement(c)]) && Ran(b.state, [Decrement(c)]) == t.state
  {
    ThenBalances(b, Drop(c), true);
    DropConserves(b.state, c);
    assert Perform(b.state, Drop(c)) == Plus(b.state, multiset([Decrement(c)]));
  }

  lemma AttachRuns(b: Books, c: Id, a: Action)
    requires Balanced(b) && Settled(b.state, false) && Permitted(b, Attach(c, a))
    ensures var t := Then(b, Attach(c, a), true);
      && t.held == HeldAfter(b, Attach(c, a)) && |t.held| == |b.held| && Balanced(t) && Settled(t.state, false)
      && if b.state.net[c].triggered then CanRun(b.state, [a]) && Ran(b.state, [a]) == t.state
         else t.state == Perform(b.state, Attach(c, a))
  {
    ThenBalances(b, Attach(c, a), true);
    OpBalances(b, Attach(c, a));
    hide Balanced, HeldAfter, Safe;
    var t := Perform(b.state, Attach(c, a));
    if b.state.net[c].triggered {
      assert t == Plus(b.state, multiset([a]));
    } else {
      KeepingSettles(b.state, c, a);
    }
  }

  lemma KeepingSettles(s: State, c: Id, a: Action)
    requires Settled(s, false) && c < |s.net| && !s.net[c].triggered
    ensures Settled(Perform(s, Attach(c, a)), false)
  {
    var t := Perform(s, Attach(c, a));
    forall m ensures !Enabled(t, m, false) {
      assert Enabled(t, m, false) ==> Enabled(s, m, false);
    }
  }

  // ---------------------------------------------------------------- one step of the machine per step of the code

  /** Nothing is in flight except what waits in the queue, and these actions may run. */
  ghost predicate CanRun(s: State, actions: seq<Action>) {
    Settled(s, false) && Safe(Plus(s, multiset(actions)))
  }

  /** The state in which the network comes to rest, whatever order the actions run in. */
  ghost function Ran(s: State, actions: seq<Action>): State {
    if Safe(Plus(s, multiset(actions))) then Settle(Plus(s, multiset(actions)), false) else s
  }

  ghost function Cost(s: State, actions: seq<Action>): nat {
    Potential(Plus(s, multiset(actions)))
  }

  /** `c` has reached zero, its flag is not stored yet, and nothing else is going on. */
  ghost predicate CanTrigger(s: State, c: Id) {
    Safe(s) && Enabled(s, Fire(c), false) && forall m :: Enabled(s, m, false) ==> m == Fire(c)
  }

  function Lowered(s: State, c: Id): State
    requires c < |s.net| && s.net[c].count > 0
  {
    State(s.net[c := s.net[c].(count := s.net[c].count - 1)], s.work)
  }

  lemma DecrementApplied(s: State, c: Id)
    requires c < |s.net| && s.net[c].count > 0
    ensures var s0, m := Plus(s, multiset([Decrement(c)])), Do(Decrement(c));
            CanApply(s0, m) && Apply(s0, m) == Lowered(s, c)
  {
    assert s.work + multiset{Decrement(c)} - multiset{Decrement(c)} == s.work;
  }

  lemma NoActions(s: State)
    ensures Plus(s, multiset([])) == s
  {
  }

  lemma OneDecrement(s: State, c: Id)
    requires c < |s.net| && CanRun(s, [Decrement(c)])
    ensures !s.net[c].triggered && s.net[c].count > 0
    ensures var t := Lowered(s, c);
            && Ran(t, []) == Ran(s, [Decrement(c)]) && Cost(t, []) < Cost(s, [Decrement(c)])
            && (t.net[c].count == 0 ==> CanTrigger(t, c))
            && (t.net[c].count > 0 ==> t == Ran(t, []))
  {
    var s0, m := Plus(s, multiset([Decrement(c)])), Do(Decrement(c));
    MoveConserves(s0, m, false);
    MoveSpendsOne(s0, m, false);
    MoveKeepsOutcome(s0, m, false);
    DecrementApplied(s, c);
    NoActions(Lowered(s, c));
    forall n | Enabled(Lowered(s, c), n, false) ensures n == Fire(c) {
      assert !Enabled(s, n, false);
    }
  }

  lemma OneFire(s: State, c: Id)
    requires CanTrigger(s, c)
    ensures var t := State(s.net[c := Counter(0, true, [])], s.work);
            && CanRun(t, s.net[c].actions) && Ran(t, s.net[c].actions) == Ran(s, [])
            && Cost(t, s.net[c].actions) < Cost(s, [])
  {
    MoveConserves(s, Fire(c), false);
    MoveSpendsOne(s, Fire(c), false);
    MoveKeepsOutcome(s, Fire(c), false);
    NoActions(s);
    var t := State(s.net[c := Counter(0, true, [])], s.work);
    assert Plus(t, multiset(s.net[c].actions)) == Apply(s, Fire(c));
    forall n ensures !Enabled(t, n, false) {
      assert Enabled(t, n, false) ==> Enabled(s, n, false);
    }
  }

  /** A drain of `all` that started in `s0` has got to `s` and has still to run `rest`. */
  ghost predicate StillToRun(s0: State, all: seq<Action>, s: State, rest: seq<Action>) {
    CanRun(s, rest) && Ran(s, rest) == Ran(s0, all) && Cost(s, rest) <= Cost(s0, all)
  }

  lemma OneAction(s0: State, all: seq<Action>, s: State, a: Action, more: seq<Action>)
    requires StillToRun(s0, all, s, [a] + more)
    ensures CanRun(s, [a]) && Cost(s, [a]) <= Cost(s0, all)
    ensures StillToRun(s0, all, Ran(s, [a]), more)
  {
    PlusBoth(s, a, more);
    SettleInPieces(Plus(s, multiset([a])), multiset(more), false);
  }

  lemma PlusBoth(s: State, a: Action, more: seq<Action>)
    ensures Plus(Plus(s, multiset([a])), multiset(more)) == Plus(s, multiset([a] + more))
  {
    assert multiset([a] + more) == multiset([a]) + multiset(more);
  }

  lemma NothingLeft(s0: State, all: seq<Action>, s: State)
    requires StillToRun(s0, all, s, [])
    ensures s == Ran(s0, all)
  {
    NoActions(s);
  }

  lemma OneEnqueue(s: State, a: Action)
    requires CanRun(s, [a]) && !a.Decrement?
    ensures Ran(s, [a]) == Plus(s, multiset{a})
  {
    var t := Plus(s, multiset{a});
    forall m ensures !Enabled(t, m, false) {
      assert Enabled(t, m, false) ==> Enabled(s, m, false);
    }
  }
}
