/**
  Workers, their queues, stealing, and the counter that decides when everything is done.

  One step is one atomic access: a pop, a steal, an insertion into a queue, an update of the
  shutdown counter.  What tasks do is left open: while a task runs it may register tasks
  and collections of tasks, make pending tasks ready, and defer callable operations, any
  number of times and in any order.  Which pending tasks are ready is left open as well:
  TaskLaunches and PendingOperations say when one is.
  */
module Scheduler {

  /** What may be in a worker's queue.  JoinOp waits for the threads of all other workers. */
  datatype Op = TaskOp(id: nat) | CallableOp(id: nat) | JoinOp | AllTasksDone

  predicate IsStealable(op: Op) {
    op.TaskOp? || op.CallableOp?
  }

  /** An operation a thread is executing, with the collections it is registering; or the
      action of the shutdown counter. */
  datatype Frame = Running(op: Op, open: nat) | Announcing

  /** Stealing: found its own queue empty. */
  datatype Phase = NotStarted | Looping | Stealing | Exited

  /** The innermost frame is the last. */
  datatype Worker = Worker(phase: Phase, stack: seq<Frame>)

  /** In a region the thread that owns worker 0 has run the top-level callback before it
      enters the work loop. */
  datatype Config = Config(workers: nat, region: bool, maxTaskDepth: nat)

  /** `tasks` are the tasks registered and not finished; of these, `pending` wait for
      prerequisites.  `callables` are the callable operations created and not finished.
      `announced` counts the operations the shutdown action has enqueued. */
  datatype State = State(
    queues: seq<seq<Op>>, workers: seq<Worker>, counter: nat, triggered: bool, announced: nat,
    pending: set<nat>, tasks: set<nat>, callables: set<nat>, next: nat, dormant: int)

  function Initial(c: Config): State
    requires c.workers > 0
  {
    var first := if c.region then [Running(TaskOp(0), 0)] else [];
    State(
      seq(c.workers, i => if i == 0 && !c.region then [TaskOp(0)] else []),
      seq(c.workers, i => Worker(NotStarted, if i == 0 then first else [])),
      1, false, 0, {}, {0}, {}, 1, 0)
  }

  /** The shutdown action enqueues these, in this order: in a region the join first. */
  function Announcements(c: Config): nat {
    if c.region then c.workers + 1 else c.workers
  }

  function TargetOf(c: Config, k: nat): nat {
    if !c.region then k else if k == 0 then 0 else k - 1
  }

  function AnnouncedOp(c: Config, k: nat): Op {
    if c.region && k == 0 then JoinOp else AllTasksDone
  }

  // ---------------------------------------------------------------- moves

  datatype Move =
    | StartLoop(w: nat)
    | Pop(w: nat)                  // takes the head of its own queue
    | GiveUp(w: nat)               // finds its queue empty
    | Steal(w: nat, victim: nat)   // looks at the head of the victim's queue
    | RegisterTask(w: nat)
    | OpenCollection(w: nat)
    | RegisterIndex(w: nat)
    | CloseCollection(w: nat)
    | MakeReady(w: nat, id: nat)   // the thread triggered the last prerequisite of a task
    | RunInPlace(w: nat, id: nat)  // a task that is ready when it is registered
    | Defer(w: nat)
    | CallInPlace(w: nat)
    | Announce(w: nat)
    | Finish(w: nat)

  function Top(w: Worker): Frame
    requires w.stack != []
  {
    w.stack[|w.stack| - 1]
  }

  predicate Executes(s: State, w: nat) {
    w < |s.workers| && s.workers[w].stack != [] && Top(s.workers[w]).Running? && IsStealable(Top(s.workers[w]).op)
  }

  predicate RunsTask(s: State, w: nat) {
    Executes(s, w) && Top(s.workers[w]).op.TaskOp?
  }

  predicate Free(s: State, w: nat, phase: Phase) {
    w < |s.workers| && w < |s.queues| && s.workers[w] == Worker(phase, [])
  }

  predicate CanMove(c: Config, s: State, m: Move) {
    match m
    case StartLoop(w) => Free(s, w, NotStarted) && (c.region && w > 0 && s.workers[0].phase == NotStarted ==>
        s.workers[0].stack == [])
    case Pop(w) => Free(s, w, Looping) && s.queues[w] != []
    case GiveUp(w) => Free(s, w, Looping) && s.queues[w] == []
    case Steal(w, v) => Free(s, w, Stealing) && v < |s.queues|
    case RegisterTask(w) => RunsTask(s, w)
    case OpenCollection(w) => RunsTask(s, w)
    case RegisterIndex(w) => RunsTask(s, w) && Top(s.workers[w]).open > 0
    case CloseCollection(w) => RunsTask(s, w) && Top(s.workers[w]).open > 0
    case MakeReady(w, id) => Executes(s, w) && w < |s.queues| && id in s.pending
    case RunInPlace(w, id) => RunsTask(s, w) && id in s.pending && |s.workers[w].stack| <= c.maxTaskDepth
    case Defer(w) => Executes(s, w) && w < |s.queues|
    case CallInPlace(w) => Executes(s, w) && |s.workers[w].stack| <= c.maxTaskDepth
    case Announce(w) =>
      w < |s.workers| && s.workers[w].stack != [] && Top(s.workers[w]) == Announcing &&
      s.announced < Announcements(c) && TargetOf(c, s.announced) < |s.queues|
    case Finish(w) =>
      w < |s.workers| && s.workers[w].stack != [] &&
      match Top(s.workers[w])
      case Announcing => s.announced >= Announcements(c)
      case Running(TaskOp(_), open) => open == 0
      case Running(JoinOp, _) => forall v :: 1 <= v < |s.workers| ==> s.workers[v].phase == Exited
      case Running(_, _) => true
  }

  function WithFrame(s: State, w: nat, f: Frame): State
    requires w < |s.workers|
  {
    s.(workers := s.workers[w := s.workers[w].(stack := s.workers[w].stack + [f])])
  }

  function WithTop(s: State, w: nat, f: Frame): State
    requires w < |s.workers| && s.workers[w].stack != []
  {
    s.(workers := s.workers[w := s.workers[w].(stack := s.workers[w].stack[..|s.workers[w].stack| - 1] + [f])])
  }

  /** Returns from the innermost frame; a worker in its loop is dormant again when it was the
      last. */
  function WithoutTop(s: State, w: nat, phase: Phase): State
    requires w < |s.workers| && s.workers[w].stack != []
  {
    var rest := s.workers[w].stack[..|s.workers[w].stack| - 1];
    s.(workers := s.workers[w := Worker(phase, rest)],
       dormant := if phase != NotStarted && rest == [] then s.dormant + 1 else s.dormant)
  }

  function Enqueued(s: State, v: nat, op: Op): State
    requires v < |s.queues|
  {
    s.(queues := s.queues[v := s.queues[v] + [op]])
  }

  function Taken(s: State, w: nat, v: nat): State
    requires w < |s.workers| && v < |s.queues| && s.queues[v] != []
  {
    WithFrame(s, w, Running(s.queues[v][0], 0)).(
      queues := s.queues[v := s.queues[v][1..]], dormant := s.dormant - 1)
  }

  function InPhase(s: State, w: nat, phase: Phase): State
    requires w < |s.workers|
  {
    s.(workers := s.workers[w := s.workers[w].(phase := phase)])
  }

  function Registered(s: State): State {
    s.(counter := s.counter + 1, tasks := s.tasks + {s.next}, pending := s.pending + {s.next}, next := s.next + 1)
  }

  function Moved(c: Config, s: State, m: Move): State
    requires CanMove(c, s, m)
  {
    match m
    case StartLoop(w) => InPhase(s, w, Looping).(dormant := s.dormant + 1)
    case Pop(w) => Taken(s, w, w)
    case GiveUp(w) => InPhase(s, w, Stealing)
    case Steal(w, v) =>
      if s.queues[v] != [] && IsStealable(s.queues[v][0]) then Taken(InPhase(s, w, Looping), w, v)
      else InPhase(s, w, Looping)
    case RegisterTask(w) => Registered(s)
    case OpenCollection(w) =>
      var f := Top(s.workers[w]);
      WithTop(s, w, f.(open := f.open + 1)).(counter := s.counter + 1)
    case RegisterIndex(w) => Registered(s)
    case CloseCollection(w) =>
      var f := Top(s.workers[w]);
      WithTop(s, w, f.(open := f.open - 1)).(counter := if s.counter > 0 then s.counter - 1 else 0)
    case MakeReady(w, id) => Enqueued(s, w, TaskOp(id)).(pending := s.pending - {id})
    case RunInPlace(w, id) => WithFrame(s, w, Running(TaskOp(id), 0)).(pending := s.pending - {id})
    case Defer(w) => Enqueued(s, w, CallableOp(s.next)).(callables := s.callables + {s.next}, next := s.next + 1)
    case CallInPlace(w) =>
      WithFrame(s, w, Running(CallableOp(s.next), 0)).(callables := s.callables + {s.next}, next := s.next + 1)
    case Announce(w) => Enqueued(s, TargetOf(c, s.announced), AnnouncedOp(c,
        s.announced)).(announced := s.announced + 1)
    case Finish(w) =>
      var phase := s.workers[w].phase;
      match Top(s.workers[w])
      case Announcing => WithoutTop(s, w, phase)
      case Running(TaskOp(id), _) =>
        var counter := if s.counter > 0 then s.counter - 1 else 0;
        (if counter == 0 then WithTop(s, w, Announcing).(triggered := true) else WithoutTop(s, w, phase)).(
          counter := counter, tasks := s.tasks - {id})
      case Running(CallableOp(id), _) => WithoutTop(s, w, phase).(callables := s.callables - {id})
      case Running(JoinOp, _) => WithoutTop(s, w, phase)
      case Running(AllTasksDone, _) => WithoutTop(s, w, Exited)
  }

  // ---------------------------------------------------------------- where operations are

  function Queued(queues: seq<seq<Op>>, op: Op): nat {
    if queues == [] then 0 else Queued(queues[..|queues| - 1], op) + multiset(queues[|queues| - 1])[op]
  }

  function InFrame(f: Frame, op: Op): nat {
    if f.Running? && f.op == op then 1 else 0
  }

  function InStack(stack: seq<Frame>, op: Op): nat {
    if stack == [] then 0 else InStack(stack[..|stack| - 1], op) + InFrame(stack[|stack| - 1], op)
  }

  function OnStacks(workers: seq<Worker>, op: Op): nat {
    if workers == [] then 0 else OnStacks(workers[..|workers| - 1], op) + InStack(workers[|workers| - 1].stack, op)
  }

  /** In how many places an operation is: waiting for prerequisites, in a queue, or being
      executed. */
  function Places(s: State, op: Op): nat {
    (if op.TaskOp? && op.id in s.pending then 1 else 0) + Located(s.queues, s.workers, op)
  }

  function Located(queues: seq<seq<Op>>, workers: seq<Worker>, op: Op): nat {
    Queued(queues, op) + OnStacks(workers, op)
  }

  lemma {:induction false} QueueUpdate(queues: seq<seq<Op>>, v: nat, q: seq<Op>, op: Op)
    requires v < |queues|
    ensures Queued(queues[v := q], op) + multiset(queues[v])[op] == Queued(queues, op) + multiset(q)[op]
  {
    var n := |queues| - 1;
    if v == n {
      assert queues[v := q][..n] == queues[..n];
    } else {
      QueueUpdate(queues[..n], v, q, op);
      assert queues[v := q][..n] == queues[..n][v := q];
    }
  }

  lemma {:induction false} StackUpdate(workers: seq<Worker>, w: nat, x: Worker, op: Op)
    requires w < |workers|
    ensures OnStacks(workers[w := x], op) + InStack(workers[w].stack, op) ==
        OnStacks(workers, op) + InStack(x.stack, op)
  {
    var n := |workers| - 1;
    hide InStack;
    if w == n {
      assert workers[w := x][..n] == workers[..n];
    } else {
      StackUpdate(workers[..n], w, x, op);
      assert workers[w := x][..n] == workers[..n][w := x];
    }
  }

  /** Collections being registered. */
  function OpenIn(stack: seq<Frame>): nat {
    if stack == [] then 0
    else OpenIn(stack[..|stack| - 1]) + if stack[|stack| - 1].Running? then stack[|stack| - 1].open else 0
  }

  function OpenOn(workers: seq<Worker>): nat {
    if workers == [] then 0 else OpenOn(workers[..|workers| - 1]) + OpenIn(workers[|workers| - 1].stack)
  }

  predicate IsDormant(w: Worker) {
    w.phase != NotStarted && w.stack == []
  }

  function DormantOf(workers: seq<Worker>): nat {
    if workers == [] then 0
    else DormantOf(workers[..|workers| - 1]) + if IsDormant(workers[|workers| - 1]) then 1 else 0
  }

  lemma {:induction false} WorkerUpdate(workers: seq<Worker>, w: nat, x: Worker)
    requires w < |workers|
    ensures OpenOn(workers[w := x]) + OpenIn(workers[w].stack) == OpenOn(workers) + OpenIn(x.stack)
    ensures DormantOf(workers[w := x]) + (if IsDormant(workers[w]) then 1 else 0) ==
            DormantOf(workers) + (if IsDormant(x) then 1 else 0)
    ensures OpenOn(workers) >= OpenIn(workers[w].stack)
  {
    var n := |workers| - 1;
    hide OpenIn, IsDormant;
    if w == n {
      assert workers[w := x][..n] == workers[..n];
    } else {
      WorkerUpdate(workers[..n], w, x);
      assert workers[w := x][..n] == workers[..n][w := x];
    }
  }

  // ---------------------------------------------------------------- every operation is in one place

  /** How often the operation counts as live. */
  function Live(s: State, op: Op): nat {
    if op.TaskOp? && op.id in s.tasks then 1 else if op.CallableOp? && op.id in s.callables then 1 else 0
  }

  lemma PushPop(stack: seq<Frame>, f: Frame, op: Op)
    ensures InStack(stack + [f], op) == InStack(stack, op) + InFrame(f, op)
    ensures OpenIn(stack + [f]) == OpenIn(stack) + if f.Running? then f.open else 0
    ensures stack != [] ==>
              InStack(stack, op) == InStack(stack[..|stack| - 1], op) + InFrame(stack[|stack| - 1], op)
  {
    assert (stack + [f])[..|stack|] == stack;
  }

  lemma TakenPlaces(s: State, w: nat, v: nat, op: Op)
    requires w < |s.workers| && v < |s.queues| && s.queues[v] != []
    ensures var t := Taken(s, w, v); Located(t.queues, t.workers, op) == Located(s.queues, s.workers, op)
  {
    var t := Taken(s, w, v);
    QueueUpdate(s.queues, v, s.queues[v][1..], op);
    StackUpdate(s.workers, w, t.workers[w], op);
    PushPop(s.workers[w].stack, Running(s.queues[v][0], 0), op);
    assert s.queues[v] == [s.queues[v][0]] + s.queues[v][1..];
  }

  lemma PhasePlaces(s: State, w: nat, phase: Phase, op: Op)
    requires w < |s.workers|
    ensures Located(s.queues, InPhase(s, w, phase).workers, op) == Located(s.queues, s.workers, op)
  {
    StackUpdate(s.workers, w, InPhase(s, w, phase).workers[w], op);
  }

  lemma EnqueuedPlaces(s: State, v: nat, x: Op, op: Op)
    requires v < |s.queues|
    ensures Located(Enqueued(s, v, x).queues, s.workers, op) ==
            Located(s.queues, s.workers, op) + if op == x then 1 else 0
  {
    QueueUpdate(s.queues, v, s.queues[v] + [x], op);
  }

  lemma PushedPlaces(s: State, w: nat, f: Frame, op: Op)
    requires w < |s.workers|
    ensures Located(s.queues, WithFrame(s, w, f).workers, op) == Located(s.queues, s.workers, op) + InFrame(f, op)
  {
    StackUpdate(s.workers, w, WithFrame(s, w, f).workers[w], op);
    PushPop(s.workers[w].stack, f, op);
  }

  lemma PoppedPlaces(s: State, w: nat, phase: Phase, op: Op)
    requires w < |s.workers| && s.workers[w].stack != []
    ensures Located(s.queues, WithoutTop(s, w, phase).workers, op) + InFrame(Top(s.workers[w]), op) ==
            Located(s.queues, s.workers, op)
  {
    StackUpdate(s.workers, w, WithoutTop(s, w, phase).workers[w], op);
    PushPop(s.workers[w].stack, Announcing, op);
  }

  lemma ReplacedPlaces(s: State, w: nat, f: Frame, op: Op)
    requires w < |s.workers| && s.workers[w].stack != []
    ensures Located(s.queues, WithTop(s, w, f).workers, op) + InFrame(Top(s.workers[w]), op) ==
            Located(s.queues, s.workers, op) + InFrame(f, op)
  {
    var stack := s.workers[w].stack;
    StackUpdate(s.workers, w, WithTop(s, w, f).workers[w], op);
    PushPop(stack, Announcing, op);
    PushPop(stack[..|stack| - 1], f, op);
  }

  /** The operation is as often in some place as it is live. */
  predicate InOnePlace(s: State, op: Op) {
    && (op.TaskOp? && op.id in s.pending ==> op.id in s.tasks)
    && (Live(s, op) == 1 ==> op.id < s.next)
    && Places(s, op) == Live(s, op)
  }

  /** A task or callable operation enters the scheduler when it is created and leaves it when
      it is finished; in between it only moves from place to place. */
  lemma MoveKeepsPlace(c: Config, s: State, m: Move, op: Op)
    requires InOnePlace(s, op) && CanMove(c, s, m) && IsStealable(op)
    ensures InOnePlace(Moved(c, s, m), op)
  {
    hide Located;
    match m
    case StartLoop(w) => PhasePlaces(s, w, Looping, op);
    case Pop(w) => TakenPlaces(s, w, w, op);
    case GiveUp(w) => PhasePlaces(s, w, Stealing, op);
    case Steal(w, v) => StealKeepsPlace(c, s, w, v, op);
    case RegisterTask(w) =>
    case OpenCollection(w) => ReplacedPlaces(s, w, Top(s.workers[w]).(open := Top(s.workers[w]).open + 1), op);
    case RegisterIndex(w) =>
    case CloseCollection(w) => ReplacedPlaces(s, w, Top(s.workers[w]).(open := Top(s.workers[w]).open - 1), op);
    case MakeReady(w, id) => EnqueuedPlaces(s, w, TaskOp(id), op);
    case RunInPlace(w, id) => PushedPlaces(s, w, Running(TaskOp(id), 0), op);
    case Defer(w) => EnqueuedPlaces(s, w, CallableOp(s.next), op);
    case CallInPlace(w) => PushedPlaces(s, w, Running(CallableOp(s.next), 0), op);
    case Announce(w) => EnqueuedPlaces(s, TargetOf(c, s.announced), AnnouncedOp(c, s.announced), op);
    case Finish(w) => FinishKeepsPlace(c, s, w, op);
  }

  lemma StealKeepsPlace(c: Config, s: State, w: nat, v: nat, op: Op)
    requires InOnePlace(s, op) && CanMove(c, s, Steal(w, v)) && IsStealable(op)
    ensures InOnePlace(Moved(c, s, Steal(w, v)), op)
  {
    hide Located;
    PhasePlaces(s, w, Looping, op);
    if s.queues[v] != [] {
      TakenPlaces(InPhase(s, w, Looping), w, v, op);
    }
  }

  lemma FinishKeepsPlace(c: Config, s: State, w: nat, op: Op)
    requires InOnePlace(s, op) && CanMove(c, s, Finish(w)) && IsStealable(op)
    ensures InOnePlace(Moved(c, s, Finish(w)), op)
  {
    hide Located;
    PoppedPlaces(s, w, s.workers[w].phase, op);
    PoppedPlaces(s, w, Exited, op);
    ReplacedPlaces(s, w, Announcing, op);
  }

  ghost predicate PlacesOk(s: State) {
    forall op: Op :: IsStealable(op) ==> InOnePlace(s, op)
  }

  // ---------------------------------------------------------------- the counters

  /** The shutdown counter is the unfinished tasks plus the collections being registered. */
  predicate CountersOk(s: State) {
    && s.counter == |s.tasks| + OpenOn(s.workers)
    && (s.triggered <==> s.counter == 0)
    && s.dormant == DormantOf(s.workers)
  }

  lemma TakesEffect(s: State, w: nat, x: Worker)
    requires w < |s.workers|
    ensures OpenOn(s.workers[w := x]) + OpenIn(s.workers[w].stack) == OpenOn(s.workers) + OpenIn(x.stack)
    ensures DormantOf(s.workers[w := x]) + (if IsDormant(s.workers[w]) then 1 else 0) ==
            DormantOf(s.workers) + (if IsDormant(x) then 1 else 0)
    ensures OpenOn(s.workers) >= OpenIn(s.workers[w].stack)
  {
    WorkerUpdate(s.workers, w, x);
  }

  lemma OpenOfPushed(stack: seq<Frame>, f: Frame)
    ensures OpenIn(stack + [f]) == OpenIn(stack) + if f.Running? then f.open else 0
  {
    PushPop(stack, f, JoinOp);
  }

  lemma OpenOfPopped(stack: seq<Frame>)
    requires stack != []
    ensures OpenIn(stack) == OpenIn(stack[..|stack| - 1]) +
        if stack[|stack| - 1].Running? then stack[|stack| - 1].open else 0
  {
  }

  /** A task somebody runs is unfinished. */
  lemma {:induction false} OnStackIsLive(s: State, w: nat)
    requires PlacesOk(s) && RunsTask(s, w)
    ensures Top(s.workers[w]).op.id in s.tasks
  {
    var op, stack := Top(s.workers[w]).op, s.workers[w].stack;
    StackUpdate(s.workers, w, Worker(NotStarted, []), op);
    assert InOnePlace(s, op);
    assert InStack(stack, op) >= 1;
  }

  /** While a task runs the counter is positive: registering another one fails no assertion. */
  lemma RunningKeepsOpen(s: State, w: nat)
    requires PlacesOk(s) && CountersOk(s) && RunsTask(s, w)
    ensures s.counter > 0 && !s.triggered
  {
    OnStackIsLive(s, w);
  }

  lemma MoveKeepsCounters(c: Config, s: State, m: Move)
    requires PlacesOk(s) && CountersOk(s) && StacksOk(c, s) && CanMove(c, s, m)
    ensures CountersOk(Moved(c, s, m))
  {
    hide OpenOn, OpenIn, DormantOf, PlacesOk, StacksOk, InOnePlace;
    match m
    case StartLoop(w) => PhaseCounters(s, w, Looping);
    case Pop(w) => TakenCounters(s, w, w);
    case GiveUp(w) => PhaseCounters(s, w, Stealing);
    case Steal(w, v) =>
      PhaseCounters(s, w, Looping);
      if s.queues[v] != [] {
        TakenCounters(InPhase(s, w, Looping), w, v);
      }
    case RegisterTask(w) => RegisteredCounters(s, w);
    case OpenCollection(w) =>
      RunningKeepsOpen(s, w);
      ReplacedCounters(s, w, Top(s.workers[w]).(open := Top(s.workers[w]).open + 1));
    case RegisterIndex(w) => RegisteredCounters(s, w);
    case CloseCollection(w) =>
      OnStackIsLive(s, w);
      ReplacedCounters(s, w, Top(s.workers[w]).(open := Top(s.workers[w]).open - 1));
    case RunInPlace(w, id) => PushedCounters(s, w, Running(TaskOp(id), 0));
    case CallInPlace(w) => PushedCounters(s, w, Running(CallableOp(s.next), 0));
    case Finish(w) => FinishKeepsCounters(c, s, w);
    case _ =>
  }

  lemma PhaseCounters(s: State, w: nat, phase: Phase)
    requires w < |s.workers| && phase != NotStarted
    ensures var t := InPhase(s, w, phase).workers;
      && OpenOn(t) == OpenOn(s.workers)
      && DormantOf(t) == DormantOf(s.workers) + if s.workers[w].phase == NotStarted &&
          s.workers[w].stack == [] then 1 else 0
  {
    TakesEffect(s, w, s.workers[w].(phase := phase));
  }

  lemma TakenCounters(s: State, w: nat, v: nat)
    requires w < |s.workers| && v < |s.queues| && s.queues[v] != [] && s.workers[w] == Worker(Looping, [])
    ensures var t := Taken(s, w, v).workers; OpenOn(t) == OpenOn(s.workers) && DormantOf(t) + 1 == DormantOf(s.workers)
  {
    var x := Worker(Looping, [] + [Running(s.queues[v][0], 0)]);
    assert Taken(s, w, v).workers == s.workers[w := x];
    OpenOfPushed([], Running(s.queues[v][0], 0));
    NothingOpen();
    hide Taken, OpenOn, OpenIn, DormantOf;
    TakesEffect(s, w, x);
  }

  lemma NothingOpen()
    ensures OpenIn([]) == 0
  {
  }

  lemma RegisteredCounters(s: State, w: nat)
    requires PlacesOk(s) && CountersOk(s) && RunsTask(s, w)
    ensures CountersOk(Registered(s))
  {
    RunningKeepsOpen(s, w);
    assert InOnePlace(s, TaskOp(s.next));
    assert s.next !in s.tasks;
  }

  lemma ReplacedCounters(s: State, w: nat, f: Frame)
    requires w < |s.workers| && s.workers[w].stack != [] && Top(s.workers[w]).Running? && f.Running?
    ensures var t := WithTop(s, w, f).workers;
      OpenOn(t) + Top(s.workers[w]).open == OpenOn(s.workers) + f.open && DormantOf(t) == DormantOf(s.workers)
    ensures OpenOn(s.workers) >= Top(s.workers[w]).open
  {
    TakesEffect(s, w, WithTop(s, w, f).workers[w]);
    var stack := s.workers[w].stack;
    OpenOfPushed(stack[..|stack| - 1], f);
    OpenOfPopped(stack);
  }

  lemma PushedCounters(s: State, w: nat, f: Frame)
    requires w < |s.workers| && s.workers[w].stack != [] && f.Running? && f.open == 0
    ensures var t := WithFrame(s, w, f).workers; OpenOn(t) == OpenOn(s.workers) && DormantOf(t) == DormantOf(s.workers)
  {
    TakesEffect(s, w, WithFrame(s, w, f).workers[w]);
    OpenOfPushed(s.workers[w].stack, f);
  }

  lemma PoppedCounters(s: State, w: nat, phase: Phase)
    requires w < |s.workers| && s.workers[w].stack != []
    requires phase == NotStarted <==> s.workers[w].phase == NotStarted
    ensures var t := WithoutTop(s, w, phase);
      && OpenOn(t.workers) + (if Top(s.workers[w]).Running? then Top(s.workers[w]).open else 0) == OpenOn(s.workers)
      && DormantOf(t.workers) + s.dormant == DormantOf(s.workers) + t.dormant
  {
    TakesEffect(s, w, WithoutTop(s, w, phase).workers[w]);
    OpenOfPopped(s.workers[w].stack);
  }

  lemma FinishKeepsCounters(c: Config, s: State, w: nat)
    requires PlacesOk(s) && CountersOk(s) && StacksOk(c, s) && CanMove(c, s, Finish(w))
    ensures CountersOk(Moved(c, s, Finish(w)))
  {
    hide OpenOn, DormantOf, PlacesOk, InOnePlace;
    var f := Top(s.workers[w]);
    assert StackOk(c, s, w);
    PoppedCounters(s, w, s.workers[w].phase);
    match f
    case Running(TaskOp(id), _) =>
      OnStackIsLive(s, w);
      AnnouncingCounters(s, w);
    case Running(AllTasksDone, _) => PoppedCounters(s, w, Exited);
    case _ =>
  }

  lemma AnnouncingCounters(s: State, w: nat)
    requires w < |s.workers| && s.workers[w].stack != [] && Top(s.workers[w]).Running? && Top(s.workers[w]).open == 0
    ensures var t := WithTop(s, w, Announcing).workers;
      OpenOn(t) == OpenOn(s.workers) && DormantOf(t) == DormantOf(s.workers)
  {
    TakesEffect(s, w, WithTop(s, w, Announcing).workers[w]);
    var stack := s.workers[w].stack;
    OpenOfPushed(stack[..|stack| - 1], Announcing);
    OpenOfPopped(stack);
  }

  // ---------------------------------------------------------------- what may be on a stack

  /** Operations nest only by running in place, and never too deep. */
  predicate StackOk(c: Config, s: State, w: nat)
    requires w < |s.workers|
  {
    var stack := s.workers[w].stack;
    && |stack| <= c.maxTaskDepth + 1
    && (forall i :: 0 <= i < |stack| - 1 ==> stack[i].Running? && IsStealable(stack[i].op))
    && (forall i :: 0 <= i < |stack| && stack[i].Running? && !stack[i].op.TaskOp? ==> stack[i].open == 0)
    && (stack != [] ==>
          && s.workers[w].phase in {NotStarted, Looping}
          && (Top(s.workers[w]).Running? && Top(s.workers[w]).op == JoinOp ==> c.region && w == 0)
          && (Top(s.workers[w]).Running? && !IsStealable(Top(s.workers[w]).op) ==>
                |stack| == 1 && s.workers[w].phase == Looping)
          && (Top(s.workers[w]) == Announcing ==> s.triggered))
  }

  ghost predicate StacksOk(c: Config, s: State) {
    && c.workers > 0 && |s.queues| == |s.workers| == c.workers
    && (forall w :: 0 <= w < |s.workers| ==> StackOk(c, s, w))
    && (forall v :: 0 <= v < |s.queues| ==> JoinInPlace(c, s, v))
  }

  function Actor(m: Move): nat {
    m.w
  }

  lemma OnlyActorChanges(c: Config, s: State, m: Move)
    requires CanMove(c, s, m)
    ensures var t := Moved(c, s, m);
      && |t.workers| == |s.workers| && |t.queues| == |s.queues| && Actor(m) < |s.workers|
      && (s.triggered ==> t.triggered)
      && (forall u :: 0 <= u < |s.workers| && u != Actor(m) ==> t.workers[u] == s.workers[u])
  {
  }

  predicate JoinInPlace(c: Config, s: State, v: nat)
    requires v < |s.queues|
  {
    JoinOp in s.queues[v] ==> c.region && v == 0
  }

  lemma MoveKeepsQueues(c: Config, s: State, m: Move, v: nat)
    requires CanMove(c, s, m) && v < |s.queues| && JoinInPlace(c, s, v)
    ensures v < |Moved(c, s, m).queues| && JoinInPlace(c, Moved(c, s, m), v)
  {
  }

  lemma TakerStays(c: Config, s: State, w: nat, v: nat)
    requires w < |s.workers| && s.workers[w] == Worker(Looping, []) && v < |s.queues| && s.queues[v] != []
    requires JoinInPlace(c, s, v) && (v == w || IsStealable(s.queues[v][0]))
    ensures StackOk(c, Taken(s, w, v), w)
  {
  }

  lemma PusherStays(c: Config, s: State, w: nat, op: Op)
    requires w < |s.workers| && StackOk(c, s, w) && Executes(s, w) && |s.workers[w].stack| <= c.maxTaskDepth
    requires IsStealable(op)
    ensures StackOk(c, WithFrame(s, w, Running(op, 0)), w)
  {
  }

  lemma OpenerStays(c: Config, s: State, w: nat, open: nat)
    requires w < |s.workers| && StackOk(c, s, w) && RunsTask(s, w)
    ensures StackOk(c, WithTop(s, w, Top(s.workers[w]).(open := open)), w)
  {
  }

  lemma SameWorkerStays(c: Config, s: State, t: State, w: nat)
    requires w < |s.workers| && w < |t.workers| && StackOk(c, s, w) && (s.triggered ==> t.triggered)
    requires t.workers[w] == s.workers[w] || (s.workers[w].stack == [] && t.workers[w].stack == [])
    ensures StackOk(c, t, w)
  {
  }

  lemma ActorStays(c: Config, s: State, m: Move)
    requires CanMove(c, s, m) && Actor(m) < |s.workers| && StackOk(c, s, Actor(m))
    requires forall v :: 0 <= v < |s.queues| ==> JoinInPlace(c, s, v)
    requires !m.Finish?
    ensures Actor(m) < |Moved(c, s, m).workers| && StackOk(c, Moved(c, s, m), Actor(m))
  {
    hide StackOk, JoinInPlace, InPhase;
    var t := Moved(c, s, m);
    match m
    case Pop(w) => TakerStays(c, s, w, w);
    case Steal(w, v) =>
      LoopsAgain(s, w);
      if s.queues[v] != [] && IsStealable(s.queues[v][0]) {
        JoinStays(c, s, InPhase(s, w, Looping), v);
        TakerStays(c, InPhase(s, w, Looping), w, v);
      } else {
        SameWorkerStays(c, s, t, w);
      }
    case OpenCollection(w) =>
      OpenerStays(c, s, w, Top(s.workers[w]).open + 1);
      SameWorkerStays(c, WithTop(s, w, Top(s.workers[w]).(open := Top(s.workers[w]).open + 1)), t, w);
    case CloseCollection(w) =>
      OpenerStays(c, s, w, Top(s.workers[w]).open - 1);
      SameWorkerStays(c, WithTop(s, w, Top(s.workers[w]).(open := Top(s.workers[w]).open - 1)), t, w);
    case RunInPlace(w, id) =>
      PusherStays(c, s, w, TaskOp(id));
      SameWorkerStays(c, WithFrame(s, w, Running(TaskOp(id), 0)), t, w);
    case CallInPlace(w) =>
      PusherStays(c, s, w, CallableOp(s.next));
      SameWorkerStays(c, WithFrame(s, w, Running(CallableOp(s.next), 0)), t, w);
    case _ =>
      UnchangedActor(c, s, m);
      SameWorkerStays(c, s, t, m.w);
  }

  lemma LoopsAgain(s: State, w: nat)
    requires w < |s.workers| && s.workers[w] == Worker(Stealing, [])
    ensures var t := InPhase(s, w, Looping);
      && t.workers == s.workers[w := Worker(Looping, [])]
      && t.queues == s.queues && t.triggered == s.triggered
  {
  }

  lemma JoinStays(c: Config, s: State, t: State, v: nat)
    requires v < |s.queues| && JoinInPlace(c, s, v) && t.queues == s.queues
    ensures JoinInPlace(c, t, v)
  {
  }

  lemma UnchangedActor(c: Config, s: State, m: Move)
    requires CanMove(c, s, m)
    requires m.StartLoop? || m.GiveUp? || m.RegisterTask? || m.RegisterIndex? || m.MakeReady? || m.Defer? || m.Announce?
    ensures var t := Moved(c, s, m);
      && m.w < |s.workers| == |t.workers| && t.triggered == s.triggered
      && (t.workers[m.w] == s.workers[m.w] || (s.workers[m.w].stack == [] && t.workers[m.w].stack == []))
  {
  }

  lemma FinisherStays(c: Config, s: State, w: nat)
    requires CanMove(c, s, Finish(w)) && w < |s.workers| && StackOk(c, s, w)
    ensures w < |Moved(c, s, Finish(w)).workers| && StackOk(c, Moved(c, s, Finish(w)), w)
  {
  }

  lemma MoveKeepsStacks(c: Config, s: State, m: Move)
    requires StacksOk(c, s) && CanMove(c, s, m)
    ensures StacksOk(c, Moved(c, s, m))
  {
    var t := Moved(c, s, m);
    OnlyActorChanges(c, s, m);
    if m.Finish? {
      FinisherStays(c, s, m.w);
    } else {
      ActorStays(c, s, m);
    }
    hide Moved, CanMove, JoinInPlace;
    forall u | 0 <= u < |t.workers| ensures StackOk(c, t, u) {
      assert StackOk(c, s, u);
    }
    forall v | 0 <= v < |t.queues| ensures JoinInPlace(c, t, v) {
      MoveKeepsQueues(c, s, m, v);
    }
  }

  // ---------------------------------------------------------------- messages

  predicate OnTop(w: Worker, op: Op) {
    w.stack != [] && Top(w).Running? && Top(w).op == op
  }

  /** The messages that tell worker `w` to leave: in its queue, in its hands, obeyed, or still
      to be sent. */
  function Messages(c: Config, s: State, w: nat): nat
    requires w < |s.workers| && w < |s.queues|
  {
    multiset(s.queues[w])[AllTasksDone] +
    (if OnTop(s.workers[w], AllTasksDone) then 1 else 0) +
    (if s.workers[w].phase == Exited then 1 else 0) +
    (if s.triggered && s.announced <= (if c.region then w + 1 else w) then 1 else 0)
  }

  predicate Announces(w: Worker) {
    w.stack != [] && Top(w) == Announcing
  }

  ghost predicate MessagesOk(c: Config, s: State) {
    && (forall w :: 0 <= w < |s.workers| && w < |s.queues| ==> Messages(c, s, w) == if s.triggered then 1 else 0)
    && s.announced <= Announcements(c) && (!s.triggered ==> s.announced == 0)
    && (s.triggered && s.announced < Announcements(c) ==> exists w :: 0 <= w < |s.workers| && Announces(s.workers[w]))
  }

  /** Taking an operation out of a queue takes a message only if the worker's own. */
  lemma TakingKeepsMessages(c: Config, s: State, w: nat, v: nat, u: nat)
    requires w < |s.workers| && v < |s.queues| && s.queues[v] != [] && s.workers[w].stack == []
    requires u < |s.workers| && u < |s.queues|
    requires v != w ==> s.queues[v][0] != AllTasksDone
    ensures Messages(c, Taken(s, w, v), u) == Messages(c, s, u)
  {
    assert s.queues[v] == [s.queues[v][0]] + s.queues[v][1..];
  }

  lemma EnqueueKeepsMessages(c: Config, s: State, v: nat, op: Op, u: nat)
    requires v < |s.queues| && u < |s.workers| && u < |s.queues|
    ensures Messages(c, Enqueued(s, v, op), u) == Messages(c, s, u) + if op == AllTasksDone && u == v then 1 else 0
  {
  }

  lemma WorkKeepsMessages(c: Config, s: State, m: Move, u: nat)
    requires CanMove(c, s, m) && u < |s.workers| && u < |s.queues|
    requires !m.Pop? && !m.Steal? && !m.Announce? && !m.Finish? && !m.MakeReady? && !m.Defer?
    ensures u < |Moved(c, s, m).workers| && u < |Moved(c, s, m).queues|
    ensures Messages(c, Moved(c, s, m), u) == Messages(c, s, u) && Moved(c, s, m).triggered == s.triggered
  {
  }

  lemma FinishKeepsMessages(c: Config, s: State, w: nat, u: nat)
    requires CountersOk(s) && CanMove(c, s, Finish(w)) && StackOk(c, s, w) && u < |s.workers| == |s.queues| == c.workers
    requires s.announced <= Announcements(c) && (!s.triggered ==> s.announced == 0)
    requires Messages(c, s, u) == if s.triggered then 1 else 0
    requires PlacesOk(s)
    ensures u < |Moved(c, s, Finish(w)).workers|
    ensures Messages(c, Moved(c, s, Finish(w)), u) == if Moved(c, s, Finish(w)).triggered then 1 else 0
  {
  }

  lemma MoveKeepsMessages(c: Config, s: State, m: Move, u: nat)
    requires PlacesOk(s) && StacksOk(c, s) && CountersOk(s) && CanMove(c, s, m) &&
        u < |s.workers| == |s.queues| == c.workers
    requires s.announced <= Announcements(c) && (!s.triggered ==> s.announced == 0)
    requires Messages(c, s, u) == if s.triggered then 1 else 0
    ensures u < |Moved(c, s, m).workers| && u < |Moved(c, s, m).queues|
    ensures Messages(c, Moved(c, s, m), u) == if Moved(c, s, m).triggered then 1 else 0
  {
    hide Messages, PlacesOk;
    match m
    case Pop(w) => TakingKeepsMessages(c, s, w, w, u);
    case Steal(w, v) =>
      LoopingKeepsMessages(c, s, w, u);
      if s.queues[v] != [] && IsStealable(s.queues[v][0]) {
        TakingKeepsMessages(c, InPhase(s, w, Looping), w, v, u);
      }
    case Announce(w) =>
      assert StackOk(c, s, w);
      AnnounceKeepsMessages(c, s, w, u);
    case MakeReady(w, id) => EnqueueKeepsMessages(c, s, w, TaskOp(id), u);
      SameMessages(c, Enqueued(s, w, TaskOp(id)), Moved(c, s, m), u);
    case Defer(w) => EnqueueKeepsMessages(c, s, w, CallableOp(s.next), u);
      SameMessages(c, Enqueued(s, w, CallableOp(s.next)), Moved(c, s, m), u);
    case Finish(w) =>
      assert StackOk(c, s, w);
      FinishKeepsMessages(c, s, w, u);
    case _ => WorkKeepsMessages(c, s, m, u);
  }

  lemma SameMessages(c: Config, s: State, t: State, u: nat)
    requires s.queues == t.queues && s.workers == t.workers && s.triggered == t.triggered && s.announced == t.announced
    requires u < |s.workers| && u < |s.queues|
    ensures Messages(c, s, u) == Messages(c, t, u)
  {
  }

  lemma LoopingKeepsMessages(c: Config, s: State, w: nat, u: nat)
    requires w < |s.workers| && s.workers[w].phase == Stealing && u < |s.workers| && u < |s.queues|
    ensures Messages(c, InPhase(s, w, Looping), u) == Messages(c, s, u)
  {
  }

  lemma AnnounceKeepsMessages(c: Config, s: State, w: nat, u: nat)
    requires CanMove(c, s, Announce(w)) && u < |s.workers| && u < |s.queues| && (!s.triggered ==> s.announced == 0)
    requires s.triggered
    ensures Messages(c, Moved(c, s, Announce(w)), u) == Messages(c, s, u)
  {
    EnqueueKeepsMessages(c, s, TargetOf(c, s.announced), AnnouncedOp(c, s.announced), u);
  }

  lemma AnnouncerStays(c: Config, s: State, m: Move)
    requires StacksOk(c, s) && MessagesOk(c, s) && CanMove(c, s, m)
    ensures var t := Moved(c, s, m);
      && t.announced <= Announcements(c) && (!t.triggered ==> t.announced == 0)
      && (t.triggered && t.announced < Announcements(c) ==> exists w :: 0 <= w < |t.workers| && Announces(t.workers[w]))
  {
    var t := Moved(c, s, m);
    OnlyActorChanges(c, s, m);
    hide Messages;
    if m.Finish? && !s.triggered && t.triggered {
      assert Announces(t.workers[m.w]);
    } else if t.triggered && t.announced < Announcements(c) {
      var w :| 0 <= w < |s.workers| && Announces(s.workers[w]);
      assert StackOk(c, s, w);
      assert Announces(t.workers[w]);
    } else if m.Announce? {
      assert StackOk(c, s, m.w);
    }
  }

  // ---------------------------------------------------------------- the join of a region

  predicate OthersGone(s: State) {
    forall v :: 1 <= v < |s.workers| ==> s.workers[v].phase == Exited
  }

  /** Worker 0 leaves only after it has joined all the others. */
  ghost predicate JoinOk(c: Config, s: State) {
    c.region && s.workers != [] && s.queues != [] ==>
      var w0, q0 := s.workers[0], s.queues[0];
      && (w0.phase == Exited || OnTop(w0, AllTasksDone) ==> OthersGone(s))
      && (forall j :: 0 <= j < |q0| && q0[j] == AllTasksDone ==>
          JoinOp in q0[..j] || OnTop(w0, JoinOp) || OthersGone(s))
      && (s.announced > 0 ==> JoinOp in q0 || OnTop(w0, JoinOp) || OthersGone(s))
  }

  lemma GoneStays(c: Config, s: State, m: Move)
    requires StacksOk(c, s) && CanMove(c, s, m) && OthersGone(s)
    ensures OthersGone(Moved(c, s, m))
  {
    OnlyActorChanges(c, s, m);
    forall v | 1 <= v < |s.workers| ensures Moved(c, s, m).workers[v].phase == Exited {
      assert StackOk(c, s, v);
    }
  }

  lemma AppendBehindJoin(q: seq<Op>, op: Op, joined: bool)
    requires forall j :: 0 <= j < |q| && q[j] == AllTasksDone ==> JoinOp in q[..j] || joined
    requires op == AllTasksDone ==> JoinOp in q || joined
    ensures forall j :: 0 <= j < |q + [op]| && (q + [op])[j] == AllTasksDone ==> JoinOp in (q + [op])[..j] || joined
  {
    forall j | 0 <= j < |q + [op]| && (q + [op])[j] == AllTasksDone ensures JoinOp in (q + [op])[..j] || joined {
      if j < |q| {
        assert (q + [op])[..j] == q[..j];
      } else {
        assert (q + [op])[..j] == q;
      }
    }
  }

  lemma TailBehindJoin(q: seq<Op>, joined: bool)
    requires q != [] && q[0] != JoinOp
    requires forall j :: 0 <= j < |q| && q[j] == AllTasksDone ==> JoinOp in q[..j] || joined
    ensures forall j :: 0 <= j < |q| - 1 && q[1..][j] == AllTasksDone ==> JoinOp in q[1..][..j] || joined
    ensures JoinOp in q ==> JoinOp in q[1..]
  {
    forall j | 0 <= j < |q| - 1 && q[1..][j] == AllTasksDone ensures JoinOp in q[1..][..j] || joined {
      assert q[..j + 1] == [q[0]] + q[1..][..j];
      assert q[j + 1] == AllTasksDone;
    }
    assert q == [q[0]] + q[1..];
  }

  lemma MoveKeepsJoin(c: Config, s: State, m: Move)
    requires StacksOk(c, s) && MessagesOk(c, s) && JoinOk(c, s) && CanMove(c, s, m) && c.region
    ensures JoinOk(c, Moved(c, s, m))
  {
    var t := Moved(c, s, m);
    OnlyActorChanges(c, s, m);
    if OthersGone(s) {
      GoneStays(c, s, m);
    } else {
      hide OthersGone;
      JoinWhileOthersStay(c, s, m);
    }
  }

  /** While others are there, worker 0 has not obeyed its message, and the join is ahead of it
      in the queue or under way. */
  predicate Held(q: seq<Op>, joining: bool, announced: bool) {
    && (forall j :: 0 <= j < |q| && q[j] == AllTasksDone ==> JoinOp in q[..j] || joining)
    && (announced ==> JoinOp in q || joining)
  }

  ghost predicate HeldBack(s: State) {
    && s.workers != [] && s.queues != []
    && s.workers[0].phase != Exited && !OnTop(s.workers[0], AllTasksDone)
    && Held(s.queues[0], OnTop(s.workers[0], JoinOp), s.announced > 0)
  }

  lemma HeldTail(q: seq<Op>, joining: bool, announced: bool)
    requires Held(q, joining, announced) && q != [] && q[0] != JoinOp
    ensures Held(q[1..], joining, announced)
  {
    TailBehindJoin(q, joining);
  }

  lemma HeldAppend(q: seq<Op>, joining: bool, announced: bool, op: Op)
    requires Held(q, joining, announced) && (op == AllTasksDone ==> announced)
    ensures Held(q + [op], joining, announced) && (op == JoinOp ==> Held(q + [op], joining, true))
  {
    AppendBehindJoin(q, op, joining);
  }

  lemma PopKeepsHeld(c: Config, s: State, w: nat)
    requires HeldBack(s) && CanMove(c, s, Pop(w))
    ensures HeldBack(Moved(c, s, Pop(w)))
  {
    if w == 0 {
      if s.queues[0][0] != JoinOp {
        HeldTail(s.queues[0], false, s.announced > 0);
      }
    }
  }

  lemma StealKeepsHeld(c: Config, s: State, w: nat, v: nat)
    requires HeldBack(s) && CanMove(c, s, Steal(w, v))
    ensures HeldBack(Moved(c, s, Steal(w, v)))
  {
    if v == 0 && s.queues[0] != [] && IsStealable(s.queues[0][0]) {
      HeldTail(s.queues[0], OnTop(s.workers[0], JoinOp), s.announced > 0);
    }
  }

  lemma AnnounceKeepsHeld(c: Config, s: State, w: nat)
    requires c.region && HeldBack(s) && CanMove(c, s, Announce(w))
    ensures HeldBack(Moved(c, s, Announce(w)))
  {
    if TargetOf(c, s.announced) == 0 {
      HeldAppend(s.queues[0], OnTop(s.workers[0], JoinOp), s.announced > 0, AnnouncedOp(c, s.announced));
    }
  }

  lemma EnqueueKeepsHeld(c: Config, s: State, m: Move)
    requires HeldBack(s) && CanMove(c, s, m) && (m.MakeReady? || m.Defer?)
    ensures HeldBack(Moved(c, s, m))
  {
    HeldAppend(s.queues[0], OnTop(s.workers[0], JoinOp), s.announced > 0,
               if m.MakeReady? then TaskOp(m.id) else CallableOp(s.next));
  }

  lemma WorkKeepsHeld(c: Config, s: State, m: Move)
    requires HeldBack(s) && CanMove(c, s, m)
    requires !m.Pop? && !m.Steal? && !m.Announce? && !m.Finish? && !m.MakeReady? && !m.Defer?
    ensures HeldBack(Moved(c, s, m))
  {
    hide Held;
  }

  lemma FinishKeepsHeld(c: Config, s: State, w: nat)
    requires HeldBack(s) && CanMove(c, s, Finish(w)) && StackOk(c, s, w) && !OthersGone(s)
    ensures HeldBack(Moved(c, s, Finish(w)))
  {
    hide Held;
  }

  lemma JoinWhileOthersStay(c: Config, s: State, m: Move)
    requires StacksOk(c, s) && JoinOk(c, s) && CanMove(c, s, m) && c.region && !OthersGone(s)
    ensures JoinOk(c, Moved(c, s, m))
  {
    assert HeldBack(s);
    assert HeldBack(Moved(c, s, m)) by {
      hide HeldBack, OthersGone;
      match m
      case Pop(w) => PopKeepsHeld(c, s, w);
      case Steal(w, v) => StealKeepsHeld(c, s, w, v);
      case Announce(w) => AnnounceKeepsHeld(c, s, w);
      case MakeReady(_, _) => EnqueueKeepsHeld(c, s, m);
      case Defer(_) => EnqueueKeepsHeld(c, s, m);
      case Finish(w) =>
        assert StackOk(c, s, w);
        FinishKeepsHeld(c, s, w);
      case _ => WorkKeepsHeld(c, s, m);
    }
    hide Moved;
  }

  // ---------------------------------------------------------------- every run

  ghost predicate Invariant(c: Config, s: State) {
    StacksOk(c, s) && PlacesOk(s) && CountersOk(s) && MessagesOk(c, s) && JoinOk(c, s)
  }

  lemma MoveKeepsInvariant(c: Config, s: State, m: Move)
    requires Invariant(c, s) && CanMove(c, s, m)
    ensures Invariant(c, Moved(c, s, m))
  {
    hide CountersOk, JoinOk, Messages, InOnePlace, Moved, CanMove, StackOk, JoinInPlace;
    OnlyActorChanges(c, s, m);
    MoveKeepsStacks(c, s, m);
    MoveKeepsCounters(c, s, m);
    AnnouncerStays(c, s, m);
    forall op: Op | IsStealable(op) ensures InOnePlace(Moved(c, s, m), op) {
      MoveKeepsPlace(c, s, m, op);
    }
    forall u | 0 <= u < |s.workers| ensures Messages(c, Moved(c, s, m), u) ==
        if Moved(c, s, m).triggered then 1 else 0 {
      MoveKeepsMessages(c, s, m, u);
    }
    if c.region {
      MoveKeepsJoin(c, s, m);
    } else {
      NoRegionNoJoin(c, Moved(c, s, m));
    }
  }

  lemma NoRegionNoJoin(c: Config, s: State)
    requires !c.region
    ensures JoinOk(c, s)
  {
  }

  predicate IsRun(c: Config, s: State, moves: seq<Move>)
    decreases |moves|
  {
    moves != [] ==> CanMove(c, s, moves[0]) && IsRun(c, Moved(c, s, moves[0]), moves[1..])
  }

  function After(c: Config, s: State, moves: seq<Move>): State
    requires IsRun(c, s, moves)
    decreases |moves|
  {
    if moves == [] then s else After(c, Moved(c, s, moves[0]), moves[1..])
  }

  lemma {:induction false} InitialQueues(n: nat, queues: seq<seq<Op>>, op: Op)
    requires n < |queues| && forall i :: 1 <= i < |queues| ==> queues[i] == []
    ensures Queued(queues[..n + 1], op) == multiset(queues[0])[op]
  {
    assert queues[..n + 1][..n] == queues[..n];
    if n > 0 {
      InitialQueues(n - 1, queues, op);
    } else {
      assert queues[..0] == [];
    }
  }

  lemma {:induction false} InitialStacks(n: nat, workers: seq<Worker>, op: Op)
    requires n < |workers| && forall i :: 1 <= i < |workers| ==> workers[i].stack == []
    requires forall i :: 0 <= i < |workers| ==> workers[i].phase == NotStarted
    ensures OnStacks(workers[..n + 1], op) == InStack(workers[0].stack, op)
    ensures OpenOn(workers[..n + 1]) == OpenIn(workers[0].stack) && DormantOf(workers[..n + 1]) == 0
  {
    hide InStack, OpenIn;
    assert workers[..n + 1][..n] == workers[..n];
    if n > 0 {
      InitialStacks(n - 1, workers, op);
      NothingOnEmpty(op);
    } else {
      assert workers[..0] == [];
    }
  }

  lemma NothingOnEmpty(op: Op)
    ensures InStack([], op) == 0 && OpenIn([]) == 0
  {
  }

  lemma InitiallyQueued(c: Config, op: Op)
    requires c.workers > 0
    ensures Queued(Initial(c).queues, op) == if op == TaskOp(0) && !c.region then 1 else 0
  {
    var queues := Initial(c).queues;
    InitialQueues(c.workers - 1, queues, op);
    assert queues[..c.workers] == queues;
  }

  lemma InitiallyRunning(c: Config, op: Op)
    requires c.workers > 0
    ensures var workers := Initial(c).workers;
      && OnStacks(workers, op) == (if op == TaskOp(0) && c.region then 1 else 0)
      && OpenOn(workers) == 0 && DormantOf(workers) == 0
  {
    var workers := Initial(c).workers;
    assert workers[..c.workers] == workers;
    hide OnStacks, OpenOn, DormantOf;
    InitialStacks(c.workers - 1, workers, op);
    PushPop([], Running(TaskOp(0), 0), op);
    assert [] + [Running(TaskOp(0), 0)] == [Running(TaskOp(0), 0)];
  }

  lemma InitialSums(c: Config, op: Op)
    requires c.workers > 0
    ensures var s := Initial(c);
      && Located(s.queues, s.workers, op) == (if op == TaskOp(0) then 1 else 0)
      && OpenOn(s.workers) == 0 && DormantOf(s.workers) == 0
  {
    hide Queued, OnStacks, OpenOn, DormantOf, Initial;
    InitiallyQueued(c, op);
    InitiallyRunning(c, op);
  }

  lemma InitialMessages(c: Config)
    requires c.workers > 0
    ensures MessagesOk(c, Initial(c)) && JoinOk(c, Initial(c))
  {
  }

  lemma InitialWorkers(c: Config)
    requires c.workers > 0
    ensures StacksOk(c, Initial(c))
  {
  }

  lemma InitialInvariant(c: Config)
    requires c.workers > 0
    ensures Invariant(c, Initial(c))
  {
    InitialMessages(c);
    InitialWorkers(c);
    hide StacksOk, MessagesOk, JoinOk, Located, OpenOn, DormantOf;
    forall op: Op | IsStealable(op) ensures InOnePlace(Initial(c), op) {
      InitialSums(c, op);
    }
    InitialSums(c, JoinOp);
  }

  lemma {:induction false} RunKeepsInvariant(c: Config, s: State, moves: seq<Move>)
    requires Invariant(c, s) && IsRun(c, s, moves)
    ensures Invariant(c, After(c, s, moves))
    decreases |moves|
  {
    hide Invariant, CanMove, Moved;
    if moves != [] {
      MoveKeepsInvariant(c, s, moves[0]);
      RunKeepsInvariant(c, Moved(c, s, moves[0]), moves[1..]);
    }
  }

  // ---------------------------------------------------------------- theorems

  /** Quiescence detection is exact.  In every run the shutdown counter is the number of
      unfinished tasks plus collections being registered; a task that runs may always register
      more; and the counter reaches zero exactly when no task is pending, queued or running
      anywhere, and then there never is one again. */
  lemma QuiescenceIsExact(c: Config, moves: seq<Move>)
    requires c.workers > 0 && IsRun(c, Initial(c), moves)
    ensures var s := After(c, Initial(c), moves);
      && s.counter == |s.tasks| + OpenOn(s.workers)
      && (s.triggered <==> s.counter == 0)
      && (forall w :: RunsTask(s, w) ==> !s.triggered)
      && (s.triggered ==> s.pending == {} && forall id: nat :: Places(s, TaskOp(id)) == 0)
      && (forall m :: CanMove(c, s, m) && s.triggered ==> Moved(c, s, m).triggered)
  {
    hide StacksOk, MessagesOk, JoinOk, Places;
    InitialInvariant(c);
    RunKeepsInvariant(c, Initial(c), moves);
    var s := After(c, Initial(c), moves);
    forall w: nat | RunsTask(s, w) ensures !s.triggered {
      RunningKeepsOpen(s, w);
    }
    if s.triggered {
      assert s.tasks == {};
      forall id: nat ensures Places(s, TaskOp(id)) == 0 && id !in s.pending {
        assert InOnePlace(s, TaskOp(id));
      }
    }
    forall m | CanMove(c, s, m) && s.triggered ensures Moved(c, s, m).triggered {
      OnlyActorChanges(c, s, m);
    }
  }

  /** Scheduling conserves operations.  In every run each task and each callable operation is
      in exactly one place from its creation to its end, so it is executed once and by one
      worker; a steal that is refused changes nothing but the thief's mind; a message is in the
      hands only of the worker it was sent to, which gets exactly one; the count of dormant
      workers is exact; and operations nest no deeper than allowed. */
  lemma SchedulingConserves(c: Config, moves: seq<Move>)
    requires c.workers > 0 && IsRun(c, Initial(c), moves)
    ensures var s := After(c, Initial(c), moves);
      && |s.workers| == |s.queues| == c.workers
      && (forall op: Op :: IsStealable(op) ==> Places(s, op) == Live(s, op))
      && (forall w: nat, v: nat :: CanMove(c, s, Steal(w, v)) && (s.queues[v] == [] || !IsStealable(s.queues[v][0])) ==>
            Moved(c, s, Steal(w, v)) == InPhase(s, w, Looping))
      && (forall w :: 0 <= w < |s.workers| ==> Messages(c, s, w) == if s.triggered then 1 else 0)
      && s.dormant == DormantOf(s.workers)
      && (forall w :: 0 <= w < |s.workers| ==> |s.workers[w].stack| <= c.maxTaskDepth + 1)
  {
    hide JoinOk, Places, Messages;
    InitialInvariant(c);
    RunKeepsInvariant(c, Initial(c), moves);
    var s := After(c, Initial(c), moves);
    forall op: Op | IsStealable(op) ensures Places(s, op) == Live(s, op) {
      assert InOnePlace(s, op);
    }
    forall w | 0 <= w < |s.workers| ensures |s.workers[w].stack| <= c.maxTaskDepth + 1 {
      assert StackOk(c, s, w);
    }
  }

  /** Something that brings the end nearer, or may: a steal. */
  predicate Progress(m: Move) {
    m.StartLoop? || m.Pop? || m.Steal? || m.Announce? || m.Finish?
  }

  lemma MessageIsQueued(c: Config, s: State, w: nat)
    requires StacksOk(c, s) && MessagesOk(c, s) && s.triggered && s.announced == Announcements(c)
    requires w < |s.workers| && s.workers[w].stack == [] && s.workers[w].phase != Exited
    ensures s.queues[w] != []
  {
    assert Messages(c, s, w) == 1;
  }

  /** A worker with nothing on its stack can go on, without anybody's help. */
  lemma IdleWorkerGoesOn(c: Config, s: State, w: nat) returns (m: Move)
    requires StacksOk(c, s) && MessagesOk(c, s) && s.triggered && s.announced == Announcements(c)
    requires w < |s.workers| && s.workers[w].stack == [] && s.workers[w].phase != Exited
    requires s.workers[0].phase == NotStarted ==> s.workers[0].stack == []
    ensures CanMove(c, s, m) && Progress(m) && m.w == w
  {
    MessageIsQueued(c, s, w);
    match s.workers[w].phase
    case NotStarted => m := StartLoop(w);
    case Looping => m := Pop(w);
    case Stealing => m := Steal(w, w);
  }

  lemma BusyWorkerGoesOn(c: Config, s: State, w: nat) returns (m: Move)
    requires Invariant(c, s) && s.triggered && w < |s.workers| && s.workers[w].stack != []
    requires !OnTop(s.workers[w], JoinOp) || OthersGone(s)
    ensures CanMove(c, s, m) && Progress(m) && m.w == w
  {
    hide JoinOk, Messages;
    assert StackOk(c, s, w);
    if RunsTask(s, w) {
      RunningKeepsOpen(s, w);
    }
    m := if Announces(s.workers[w]) && s.announced < Announcements(c) then Announce(w) else Finish(w);
  }

  /** Shutdown cannot hang.  Once the counter has reached zero, and until every worker has
      left, some worker can take a step that brings the end nearer; in a region, the others can
      all leave without worker 0, which waits for them. */
  lemma ShutdownCannotHang(c: Config, moves: seq<Move>) returns (m: Move)
    requires c.workers > 0 && IsRun(c, Initial(c), moves)
    requires var s := After(c, Initial(c), moves);
      s.triggered && exists w :: 0 <= w < |s.workers| && s.workers[w].phase != Exited
    ensures var s := After(c, Initial(c), moves);
      && CanMove(c, s, m) && Progress(m)
      && (s.workers != [] && OnTop(s.workers[0], JoinOp) && !OthersGone(s) ==> m.w > 0)
  {
    InitialInvariant(c);
    RunKeepsInvariant(c, Initial(c), moves);
    m := SomebodyGoesOn(c, After(c, Initial(c), moves));
  }

  lemma SomebodyGoesOn(c: Config, s: State) returns (m: Move)
    requires Invariant(c, s) && s.triggered && exists w :: 0 <= w < |s.workers| && s.workers[w].phase != Exited
    ensures CanMove(c, s, m) && Progress(m)
    ensures OnTop(s.workers[0], JoinOp) && !OthersGone(s) ==> m.w > 0
  {
    hide JoinOk, Messages, PlacesOk, CountersOk, CanMove;
    var waiting := OnTop(s.workers[0], JoinOp) && !OthersGone(s);
    if w: nat :| w < |s.workers| && s.workers[w].stack != [] && !(w == 0 && waiting) {
      assert StackOk(c, s, w);
      m := BusyWorkerGoesOn(c, s, w);
    } else {
      assert StackOk(c, s, 0);
      AllAnnounced(c, s);
      var w: nat :| w < |s.workers| && s.workers[w].phase != Exited && (waiting ==> w > 0);
      m := IdleWorkerGoesOn(c, s, w);
    }
  }

  lemma AllAnnounced(c: Config, s: State)
    requires MessagesOk(c, s) && s.triggered
    requires forall w :: 0 <= w < |s.workers| && s.workers[w].stack != [] ==> OnTop(s.workers[w], JoinOp)
    ensures s.announced == Announcements(c)
  {
    hide Messages;
  }

  /** In a region the thread that started it returns only after all other workers have left. */
  lemma WorkerZeroLeavesLast(c: Config, moves: seq<Move>)
    requires c.workers > 0 && c.region && IsRun(c, Initial(c), moves)
    ensures var s := After(c, Initial(c), moves);
      s.workers != [] && (s.workers[0].phase == Exited ==> forall w :: 0 <= w < |s.workers| ==>
          s.workers[w].phase == Exited)
  {
    hide MessagesOk, PlacesOk, CountersOk, After;
    InitialInvariant(c);
    RunKeepsInvariant(c, Initial(c), moves);
    hide Initial, IsRun;
    ZeroLeavesLast(c, After(c, Initial(c), moves));
  }

  lemma ZeroLeavesLast(c: Config, s: State)
    requires c.region && StacksOk(c, s) && JoinOk(c, s)
    ensures s.workers != [] && (s.workers[0].phase == Exited ==> forall w :: 0 <= w < |s.workers| ==>
        s.workers[w].phase == Exited)
  {
  }

  // ---------------------------------------------------------------- the end

  function QueueLengths(queues: seq<seq<Op>>): nat {
    if queues == [] then 0 else QueueLengths(queues[..|queues| - 1]) + |queues[|queues| - 1]|
  }

  function WorkLeft(w: Worker): nat {
    2 * |w.stack| + if w.phase == NotStarted then 1 else 0
  }

  function WorkOf(workers: seq<Worker>): nat {
    if workers == [] then 0 else WorkOf(workers[..|workers| - 1]) + WorkLeft(workers[|workers| - 1])
  }

  /** Messages to be sent, operations in queues, and operations under way. */
  function Remaining(c: Config, s: State): int {
    4 * (Announcements(c) - s.announced) + 3 * QueueLengths(s.queues) + WorkOf(s.workers)
  }

  function Thieves(workers: seq<Worker>): nat {
    if workers == [] then 0
    else Thieves(workers[..|workers| - 1]) + if workers[|workers| - 1].phase == Stealing then 1 else 0
  }

  lemma {:induction false} LengthUpdate(queues: seq<seq<Op>>, v: nat, q: seq<Op>)
    requires v < |queues|
    ensures QueueLengths(queues[v := q]) + |queues[v]| == QueueLengths(queues) + |q|
  {
    var n := |queues| - 1;
    if v == n {
      assert queues[v := q][..n] == queues[..n];
    } else {
      LengthUpdate(queues[..n], v, q);
      assert queues[v := q][..n] == queues[..n][v := q];
    }
  }

  lemma {:induction false} WorkUpdate(workers: seq<Worker>, w: nat, x: Worker)
    requires w < |workers|
    ensures WorkOf(workers[w := x]) + WorkLeft(workers[w]) == WorkOf(workers) + WorkLeft(x)
    ensures Thieves(workers[w := x]) + (if workers[w].phase == Stealing then 1 else 0) ==
            Thieves(workers) + (if x.phase == Stealing then 1 else 0)
  {
    var n := |workers| - 1;
    hide WorkLeft;
    if w == n {
      assert workers[w := x][..n] == workers[..n];
    } else {
      WorkUpdate(workers[..n], w, x);
      assert workers[w := x][..n] == workers[..n][w := x];
    }
  }

  /** A step that takes something off what remains: all steps of Progress but refused steals. */
  predicate Productive(s: State, m: Move) {
    && Progress(m)
    && (m.Steal? ==> m.victim < |s.queues| && s.queues[m.victim] != [] && IsStealable(s.queues[m.victim][0]))
  }

  function Num(p: bool): nat {
    if p then 1 else 0
  }

  /** What a step adds at most to what remains. */
  function Adds(m: Move): nat {
    if m.Defer? then 3 else if m.CallInPlace? then 2 else 0
  }

  /** From `s` to `t`, by a step of worker `w`, no more remains than `adds` and `spends` allow, and
      the worker is a thief then or it is not. */
  predicate Costs(c: Config, s: State, t: State, w: nat, adds: nat, spends: nat) {
    && w < |s.workers| == |t.workers| && Remaining(c, t) + spends <= Remaining(c, s) + adds
    && Thieves(t.workers) + Num(s.workers[w].phase == Stealing) ==
       Thieves(s.workers) + Num(t.workers[w].phase == Stealing)
  }

  lemma TakingCosts(c: Config, s: State, t: State, w: nat, v: nat)
    requires w < |s.workers| && v < |s.queues| && s.queues[v] != [] && s.workers[w].stack == []
    requires s.workers[w].phase == Looping || s.workers[w].phase == Stealing
    requires t.queues == s.queues[v := s.queues[v][1..]] && t.announced == s.announced
    requires t.workers == s.workers[w := Worker(Looping, [Running(s.queues[v][0], 0)])]
    ensures Costs(c, s, t, w, 0, 1)
  {
    LengthUpdate(s.queues, v, s.queues[v][1..]);
    WorkUpdate(s.workers, w, t.workers[w]);
  }

  lemma TakersMove(c: Config, s: State, m: Move, v: nat)
    requires CanMove(c, s, m) && (m.Pop? || m.Steal?) && Productive(s, m)
    requires v == if m.Pop? then m.w else m.victim
    ensures var t := Moved(c, s, m);
      && m.w < |s.workers| && v < |s.queues| && s.queues[v] != []
      && t.queues == s.queues[v := s.queues[v][1..]] && t.announced == s.announced
      && t.workers == s.workers[m.w := Worker(Looping, [Running(s.queues[v][0], 0)])]
  {
    assert [] + [Running(s.queues[v][0], 0)] == [Running(s.queues[v][0], 0)];
  }

  lemma WorkerCosts(c: Config, s: State, t: State, w: nat, x: Worker, adds: nat, spends: nat)
    requires w < |s.workers| && t.queues == s.queues && t.announced == s.announced && t.workers == s.workers[w := x]
    requires WorkLeft(x) + spends <= WorkLeft(s.workers[w]) + adds
    ensures Costs(c, s, t, w, adds, spends)
  {
    WorkUpdate(s.workers, w, x);
  }

  lemma EnqueuingCosts(c: Config, s: State, t: State, w: nat, v: nat, op: Op, sent: nat)
    requires w < |s.workers| && v < |s.queues|
    requires t.workers == s.workers && t.queues == s.queues[v := s.queues[v] + [op]]
    requires t.announced == s.announced + sent && sent <= 1
    ensures Costs(c, s, t, w, 3 * (1 - sent), sent)
  {
    LengthUpdate(s.queues, v, s.queues[v] + [op]);
  }

  lemma PhaseCosts(c: Config, s: State, m: Move)
    requires CanMove(c, s, m) && (m.StartLoop? || m.GiveUp? || (m.Steal? && !Productive(s, m)))
    ensures Costs(c, s, Moved(c, s, m), m.w, 0, Num(m.StartLoop?))
  {
    var phase := if m.GiveUp? then Stealing else Looping;
    WorkerCosts(c, s, Moved(c, s, m), m.w, Worker(phase, []), 0, Num(m.StartLoop?));
  }

  lemma EnqueueCosts(c: Config, s: State, m: Move)
    requires CanMove(c, s, m) && (m.Announce? || m.Defer?)
    ensures Costs(c, s, Moved(c, s, m), m.w, Adds(m), Num(m.Announce?))
  {
    if m.Announce? {
      EnqueuingCosts(c, s, Moved(c, s, m), m.w, TargetOf(c, s.announced), AnnouncedOp(c, s.announced), 1);
    } else {
      EnqueuingCosts(c, s, Moved(c, s, m), m.w, m.w, CallableOp(s.next), 0);
    }
  }

  lemma TakeCosts(c: Config, s: State, m: Move)
    requires CanMove(c, s, m) && (m.Pop? || m.Steal?) && Productive(s, m)
    ensures Costs(c, s, Moved(c, s, m), m.w, 0, 1)
  {
    var v := if m.Pop? then m.w else m.victim;
    TakersMove(c, s, m, v);
    ThievesWait(c, s, m);
    hide CanMove, Moved, Productive;
    TakingCosts(c, s, Moved(c, s, m), m.w, v);
  }

  lemma ThievesWait(c: Config, s: State, m: Move)
    requires CanMove(c, s, m) && (m.Pop? || m.Steal?)
    ensures m.w < |s.workers| && s.workers[m.w] == Worker(if m.Pop? then Looping else Stealing, [])
  {
  }

  lemma CallCosts(c: Config, s: State, w: nat)
    requires CanMove(c, s, CallInPlace(w))
    ensures Costs(c, s, Moved(c, s, CallInPlace(w)), w, 2, 0)
  {
    WorkerCosts(c, s, Moved(c, s, CallInPlace(w)), w, Moved(c, s, CallInPlace(w)).workers[w], 2, 0);
  }

  lemma FinishCosts(c: Config, s: State, w: nat)
    requires PlacesOk(s) && CountersOk(s) && s.triggered && CanMove(c, s, Finish(w))
    ensures Costs(c, s, Moved(c, s, Finish(w)), w, 0, 1)
  {
    FinishEnds(c, s, w);
    hide PlacesOk, CountersOk, Moved;
    WorkerCosts(c, s, Moved(c, s, Finish(w)), w, Moved(c, s, Finish(w)).workers[w], 0, 1);
  }

  lemma FinishEnds(c: Config, s: State, w: nat)
    requires PlacesOk(s) && CountersOk(s) && s.triggered && CanMove(c, s, Finish(w))
    ensures var t := Moved(c, s, Finish(w));
      && t.queues == s.queues && t.announced == s.announced && w < |t.workers| == |s.workers|
      && t.workers == s.workers[w := t.workers[w]] && WorkLeft(t.workers[w]) < WorkLeft(s.workers[w])
  {
    hide PlacesOk, CountersOk;
    if RunsTask(s, w) {
      RunningKeepsOpen(s, w);
    }
  }

  /** After the trigger no task runs and none is pending. */
  lemma OnlyLeftovers(c: Config, s: State, m: Move)
    requires PlacesOk(s) && CountersOk(s) && s.triggered && CanMove(c, s, m)
    ensures Progress(m) || m.GiveUp? || m.Defer? || m.CallInPlace?
  {
    NothingPending(s);
    hide PlacesOk, CountersOk;
    if RunsTask(s, m.w) {
      RunningKeepsOpen(s, m.w);
    }
  }

  lemma NothingPending(s: State)
    requires PlacesOk(s) && CountersOk(s) && s.triggered
    ensures s.pending == {}
  {
    hide OpenOn;
    assert s.tasks == {};
    forall id: nat ensures id !in s.pending {
      assert InOnePlace(s, TaskOp(id));
    }
  }

  /** Every productive step lowers what remains, giving up and refused steals leave it as it is,
      and only new callable operations add to it. */
  lemma MoveCosts(c: Config, s: State, m: Move)
    requires PlacesOk(s) && CountersOk(s) && s.triggered && CanMove(c, s, m)
    ensures Costs(c, s, Moved(c, s, m), m.w, Adds(m), Num(Productive(s, m)))
  {
    OnlyLeftovers(c, s, m);
    hide Costs, PlacesOk, CountersOk, CanMove, Moved;
    match m
    case StartLoop(_) => PhaseCosts(c, s, m);
    case GiveUp(_) => PhaseCosts(c, s, m);
    case Pop(_) => TakeCosts(c, s, m);
    case Steal(_, _) =>
      if Productive(s, m) {
        TakeCosts(c, s, m);
      } else {
        PhaseCosts(c, s, m);
      }
    case Announce(_) => EnqueueCosts(c, s, m);
    case Finish(w) => FinishCosts(c, s, w);
    case Defer(_) => EnqueueCosts(c, s, m);
    case CallInPlace(w) => CallCosts(c, s, w);
    case _ =>
  }

  function Productives(c: Config, s: State, moves: seq<Move>): nat
    requires IsRun(c, s, moves)
    decreases |moves|
  {
    if moves == [] then 0 else Num(Productive(s, moves[0])) + Productives(c, Moved(c, s, moves[0]), moves[1..])
  }

  function Added(moves: seq<Move>): nat {
    if moves == [] then 0 else Adds(moves[0]) + Added(moves[1..])
  }

  /** Shutdown ends.  Once the counter has reached zero, in every run there are no more productive
      steps than remain at that moment, but for those that callable operations created later
      add.  Giving up and refused steals are not counted, and change nothing. */
  lemma {:induction false} ShutdownEnds(c: Config, s: State, moves: seq<Move>)
    requires Invariant(c, s) && s.triggered && IsRun(c, s, moves)
    ensures 0 <= Remaining(c, After(c, s, moves)) <= Remaining(c, s) + Added(moves) - Productives(c, s, moves)
    decreases |moves|
  {
    hide StacksOk, PlacesOk, CountersOk, JoinOk, Remaining, Moved, CanMove, Productive, Adds;
    RemainingIsNatural(c, s);
    if moves != [] {
      MoveCosts(c, s, moves[0]);
      MoveKeepsInvariant(c, s, moves[0]);
      OnlyActorChanges(c, s, moves[0]);
      ShutdownEnds(c, Moved(c, s, moves[0]), moves[1..]);
    }
  }

  lemma RemainingIsNatural(c: Config, s: State)
    requires MessagesOk(c, s)
    ensures Remaining(c, s) >= 0
  {
    hide Messages;
  }

  predicate AllGone(s: State) {
    forall w :: 0 <= w < |s.workers| ==> s.workers[w].phase == Exited
  }

  /** One step towards the end. */
  lemma StepTowardsTheEnd(c: Config, s: State) returns (m: Move)
    requires Invariant(c, s) && s.triggered && !AllGone(s)
    ensures CanMove(c, s, m) && Invariant(c, Moved(c, s, m)) && Moved(c, s, m).triggered
    ensures var t := Moved(c, s, m);
      && |t.workers| == |s.workers|
      && 0 <= Remaining(c, t) && Remaining(c, t) + Thieves(t.workers) < Remaining(c, s) + Thieves(s.workers)
    ensures OnTop(s.workers[0], JoinOp) && !OthersGone(s) ==> m.w > 0 && Moved(c, s, m).workers[0] == s.workers[0]
  {
    hide StacksOk, PlacesOk, CountersOk, JoinOk, Messages, Remaining, OnTop, OthersGone;
    assert s.workers != [] by {
      SomeWorkers(c, s);
    }
    m := SomebodyGoesOn(c, s);
    MoveCosts(c, s, m);
    MoveKeepsInvariant(c, s, m);
    OnlyActorChanges(c, s, m);
    RemainingIsNatural(c, Moved(c, s, m));
    EndsLooping(c, s, m);
  }

  lemma SomeWorkers(c: Config, s: State)
    requires StacksOk(c, s)
    ensures s.workers != []
  {
  }

  /** Steps of Progress make no thief, and a steal, refused or not, ends one. */
  lemma EndsLooping(c: Config, s: State, m: Move)
    requires CanMove(c, s, m) && Progress(m) && m.w < |Moved(c, s, m).workers| == |s.workers|
    ensures Moved(c, s, m).workers[m.w].phase == Stealing ==> s.workers[m.w].phase == Stealing
    ensures !Productive(s, m) ==>
        s.workers[m.w].phase == Stealing && Moved(c, s, m).workers[m.w].phase == Looping
  {
  }

  lemma Prepend(c: Config, s: State, m: Move, moves: seq<Move>)
    requires CanMove(c, s, m) && IsRun(c, Moved(c, s, m), moves)
    ensures IsRun(c, s, [m] + moves) && After(c, s, [m] + moves) == After(c, Moved(c, s, m), moves)
  {
    assert ([m] + moves)[1..] == moves;
  }

  /** From every state after the trigger a run of no more steps than what remains, and the
      thieves there are, ends with all workers gone. */
  lemma {:induction false} EverybodyLeaves(c: Config, s: State) returns (moves: seq<Move>)
    requires Invariant(c, s) && s.triggered
    ensures IsRun(c, s, moves) && AllGone(After(c, s, moves))
    ensures |moves| <= Remaining(c, s) + Thieves(s.workers)
    decreases Remaining(c, s) + Thieves(s.workers)
  {
    hide StacksOk, PlacesOk, CountersOk, JoinOk, Messages, Remaining, AllGone, CanMove, Moved;
    RemainingIsNatural(c, s);
    moves := [];
    if !AllGone(s) {
      var m := StepTowardsTheEnd(c, s);
      moves := EverybodyLeaves(c, Moved(c, s, m));
      Prepend(c, s, m, moves);
      moves := [m] + moves;
    }
  }

  /** In a region the others leave without worker 0, while it waits for them. */
  lemma {:induction false} OthersLeave(c: Config, s: State) returns (moves: seq<Move>)
    requires Invariant(c, s) && s.triggered && s.workers != [] && OnTop(s.workers[0], JoinOp)
    ensures IsRun(c, s, moves) && OthersGone(After(c, s, moves)) && forall k :: 0 <= k < |moves| ==> moves[k].w > 0
    ensures |moves| <= Remaining(c, s) + Thieves(s.workers)
    decreases Remaining(c, s) + Thieves(s.workers)
  {
    hide StacksOk, PlacesOk, CountersOk, JoinOk, Messages, Remaining, CanMove, Moved, OnTop;
    RemainingIsNatural(c, s);
    moves := [];
    if !OthersGone(s) {
      var m := StepTowardsTheEnd(c, s);
      moves := OthersLeave(c, Moved(c, s, m));
      Prepend(c, s, m, moves);
      moves := [m] + moves;
    }
  }
}
