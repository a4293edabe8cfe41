/**
  Workers find work and get it done, before there is any question of shutting down; and every
  queue hands out what was put into it, in order.
  */
module SchedulerProgress {
  import opened Scheduler

  // ---------------------------------------------------------------- before the trigger

  /** Before the trigger there are only tasks and callable operations. */
  predicate NothingAnnounced(s: State) {
    !s.triggered ==>
      && (forall v :: 0 <= v < |s.queues| ==> OnlyWork(s.queues[v]))
      && (forall w :: 0 <= w < |s.workers| ==> AtWork(s.workers[w]))
  }

  predicate OnlyWork(queue: seq<Op>) {
    forall op :: op in queue ==> IsStealable(op)
  }

  predicate AtWork(w: Worker) {
    w.phase != Exited && (w.stack != [] ==> Top(w).Running? && IsStealable(Top(w).op))
  }

  ghost predicate Going(c: Config, s: State) {
    Invariant(c, s) && NothingAnnounced(s)
  }

  lemma OnlyWorkIsPut(c: Config, s: State, m: Move, v: nat)
    requires CanMove(c, s, m) && !m.Announce? && v < |s.queues| && OnlyWork(s.queues[v])
    ensures v < |Moved(c, s, m).queues| && OnlyWork(Moved(c, s, m).queues[v])
  {
  }

  lemma ActorAtWork(c: Config, s: State, m: Move)
    requires CanMove(c, s, m) && !m.Announce? && m.w < |s.workers| && AtWork(s.workers[m.w]) && StackOk(c, s, m.w)
    requires forall v :: 0 <= v < |s.queues| ==> OnlyWork(s.queues[v])
    requires !Moved(c, s, m).triggered
    ensures m.w < |Moved(c, s, m).workers| && AtWork(Moved(c, s, m).workers[m.w])
  {
  }

  lemma MoveAnnouncesNothing(c: Config, s: State, m: Move)
    requires StacksOk(c, s) && NothingAnnounced(s) && CanMove(c, s, m)
    ensures NothingAnnounced(Moved(c, s, m))
  {
    var t := Moved(c, s, m);
    OnlyActorChanges(c, s, m);
    assert StackOk(c, s, m.w);
    if !t.triggered {
      assert !m.Announce?;
      forall v | 0 <= v < |t.queues| ensures OnlyWork(t.queues[v]) {
        OnlyWorkIsPut(c, s, m, v);
      }
      ActorAtWork(c, s, m);
    }
  }

  lemma MoveKeepsGoing(c: Config, s: State, m: Move)
    requires Going(c, s) && CanMove(c, s, m)
    ensures Going(c, Moved(c, s, m))
  {
    hide PlacesOk, CountersOk, MessagesOk, JoinOk, StacksOk, NothingAnnounced;
    MoveKeepsInvariant(c, s, m);
    MoveAnnouncesNothing(c, s, m);
  }

  lemma InitiallyGoing(c: Config)
    requires c.workers > 0
    ensures Going(c, Initial(c))
  {
    InitialInvariant(c);
    hide Invariant;
  }

  lemma {:induction false} RunKeepsGoing(c: Config, s: State, moves: seq<Move>)
    requires Going(c, s) && IsRun(c, s, moves)
    ensures Going(c, After(c, s, moves))
    decreases |moves|
  {
    hide Going, CanMove, Moved;
    if moves != [] {
      MoveKeepsGoing(c, s, moves[0]);
      RunKeepsGoing(c, Moved(c, s, moves[0]), moves[1..]);
    }
  }

  // ---------------------------------------------------------------- idle workers find work

  /** The worker has entered its loop and has nothing to do. */
  predicate IsIdle(w: Worker) {
    (w.phase == Looping || w.phase == Stealing) && w.stack == []
  }

  lemma OneMove(c: Config, s: State, m: Move)
    requires CanMove(c, s, m)
    ensures IsRun(c, s, [m]) && After(c, s, [m]) == Moved(c, s, m)
  {
    assert [m][1..] == [];
  }

  lemma TwoMoves(c: Config, s: State, m: Move, n: Move)
    requires CanMove(c, s, m) && CanMove(c, Moved(c, s, m), n)
    ensures IsRun(c, s, [m, n]) && After(c, s, [m, n]) == Moved(c, Moved(c, s, m), n)
  {
    assert [m, n][1..] == [n];
    OneMove(c, Moved(c, s, m), n);
  }

  /** From `s` to `t` worker `w` took the head of queue `v`, and is executing it now. */
  predicate Took(s: State, t: State, w: nat, v: nat) {
    && w < |s.workers| && v < |s.queues| && s.queues[v] != []
    && t.queues == s.queues[v := s.queues[v][1..]]
    && t.workers == s.workers[w := Worker(Looping, [Running(s.queues[v][0], 0)])]
  }

  /** Any worker that has nothing to do can be executing the head of any other queue that may be
      stolen, by at most two steps of its own. */
  lemma IdleWorkerMaySteal(c: Config, s: State, w: nat, v: nat) returns (moves: seq<Move>)
    requires w < |s.workers| == |s.queues| && IsIdle(s.workers[w]) && s.queues[w] == []
    requires v < |s.queues| && s.queues[v] != [] && IsStealable(s.queues[v][0])
    ensures IsRun(c, s, moves) && |moves| <= 2 && forall k :: 0 <= k < |moves| ==> moves[k].w == w
    ensures Took(s, After(c, s, moves), w, v)
  {
    if s.workers[w].phase == Looping {
      var t := Moved(c, s, GiveUp(w));
      moves := [GiveUp(w), Steal(w, v)];
      TwoMoves(c, s, GiveUp(w), Steal(w, v));
      StealTakes(c, t, w, v);
      assert t.workers[w := Worker(Looping, [Running(s.queues[v][0], 0)])] ==
             s.workers[w := Worker(Looping, [Running(s.queues[v][0], 0)])];
    } else {
      moves := [Steal(w, v)];
      OneMove(c, s, Steal(w, v));
      StealTakes(c, s, w, v);
    }
  }

  lemma StealTakes(c: Config, s: State, w: nat, v: nat)
    requires w < |s.workers| == |s.queues| && s.workers[w] == Worker(Stealing, [])
    requires v < |s.queues| && s.queues[v] != [] && IsStealable(s.queues[v][0])
    ensures CanMove(c, s, Steal(w, v)) && Took(s, Moved(c, s, Steal(w, v)), w, v)
  {
    assert [] + [Running(s.queues[v][0], 0)] == [Running(s.queues[v][0], 0)];
  }

  lemma PopTakes(c: Config, s: State, w: nat)
    requires w < |s.workers| == |s.queues| && s.workers[w] == Worker(Looping, []) && s.queues[w] != []
    ensures CanMove(c, s, Pop(w)) && Took(s, Moved(c, s, Pop(w)), w, w)
  {
    assert [] + [Running(s.queues[w][0], 0)] == [Running(s.queues[w][0], 0)];
  }

  /** Before the trigger, as long as anything is queued anywhere, a worker that has nothing to do
      can be executing some of it by at most two steps of its own. */
  lemma IdleWorkerFindsWork(c: Config, s: State, w: nat, v: nat) returns (moves: seq<Move>, from: nat)
    requires Going(c, s) && !s.triggered && w < |s.workers| && IsIdle(s.workers[w])
    requires v < |s.queues| && s.queues[v] != []
    ensures IsRun(c, s, moves) && |moves| <= 2 && forall k :: 0 <= k < |moves| ==> moves[k].w == w
    ensures from < |s.queues| && Took(s, After(c, s, moves), w, from) && IsStealable(s.queues[from][0])
  {
    hide PlacesOk, CountersOk, MessagesOk, JoinOk;
    from := if s.queues[w] != [] then w else v;
    assert OnlyWork(s.queues[from]) && s.queues[from][0] in s.queues[from];
    if s.queues[w] == [] {
      moves := IdleWorkerMaySteal(c, s, w, v);
    } else if s.workers[w].phase == Looping {
      moves := [Pop(w)];
      OneMove(c, s, Pop(w));
      PopTakes(c, s, w);
    } else {
      moves := [Steal(w, w)];
      OneMove(c, s, Steal(w, w));
      StealTakes(c, s, w, w);
    }
  }

  /** Before the trigger, whenever something is queued and no task runs, some worker has a
      productive step; and every worker that has entered its loop has one of its own, after giving
      up its queue at most. */
  lemma QueuedWorkGoesOn(c: Config, s: State, v: nat) returns (m: Move)
    requires Going(c, s) && !s.triggered && v < |s.queues| && s.queues[v] != []
    requires forall w :: !RunsTask(s, w)
    ensures CanMove(c, s, m) && Productive(s, m)
    ensures forall w :: 0 <= w < |s.workers| && s.workers[w].phase != NotStarted ==>
              (CanMove(c, s, Finish(w)) && Productive(s, Finish(w))) || IsIdle(s.workers[w])
  {
    hide PlacesOk, CountersOk, MessagesOk, JoinOk;
    forall w | 0 <= w < |s.workers| && s.workers[w].stack != [] ensures CanMove(c, s, Finish(w)) {
      assert AtWork(s.workers[w]) && !RunsTask(s, w);
    }
    assert AtWork(s.workers[v]) && OnlyWork(s.queues[v]) && s.queues[v][0] in s.queues[v];
    if w: nat :| w < |s.workers| && s.workers[w].stack != [] {
      m := Finish(w);
    } else {
      m := match s.workers[v].phase
           case NotStarted => StartLoop(v)
           case Stealing => Steal(v, v)
           case _ => Pop(v);
    }
    forall w | 0 <= w < |s.workers| && s.workers[w].phase != NotStarted
      ensures CanMove(c, s, Finish(w)) || IsIdle(s.workers[w])
    {
      assert AtWork(s.workers[w]);
    }
  }

  // ---------------------------------------------------------------- all that is ready gets done

  /** What there is to be done: operations in queues and under way, collections being registered,
      workers to be started. */
  function Load(s: State): nat {
    3 * QueueLengths(s.queues) + WorkOf(s.workers) + OpenOn(s.workers) + Thieves(s.workers)
  }

  predicate AtRest(s: State) {
    && (forall v :: 0 <= v < |s.queues| ==> s.queues[v] == [])
    && (forall w :: 0 <= w < |s.workers| ==> s.workers[w].stack == [])
  }

  /** What workers do on their own: they create nothing. */
  predicate Works(m: Move) {
    Progress(m) || m.CloseCollection?
  }

  lemma LoadOfWorker(s: State, t: State, w: nat, x: Worker)
    requires w < |s.workers| && t.workers == s.workers[w := x] && t.queues == s.queues
    ensures var y := s.workers[w];
      Load(t) + WorkLeft(y) + OpenIn(y.stack) + Num(y.phase == Stealing) ==
      Load(s) + WorkLeft(x) + OpenIn(x.stack) + Num(x.phase == Stealing)
  {
    hide WorkLeft, OpenIn;
    WorkUpdate(s.workers, w, x);
    WorkerUpdate(s.workers, w, x);
  }

  lemma TakingLightens(s: State, t: State, w: nat, v: nat)
    requires Took(s, t, w, v) && IsIdle(s.workers[w])
    ensures Load(t) < Load(s)
  {
    var x := Worker(Looping, [Running(s.queues[v][0], 0)]);
    var mid := s.(queues := t.queues);
    LengthUpdate(s.queues, v, s.queues[v][1..]);
    LoadOfWorker(mid, t, w, x);
    OpenOfPushed([], Running(s.queues[v][0], 0));
    assert [] + [Running(s.queues[v][0], 0)] == x.stack;
  }

  lemma ClosingLightens(c: Config, s: State, w: nat)
    requires CanMove(c, s, CloseCollection(w))
    ensures Load(Moved(c, s, CloseCollection(w))) < Load(s)
  {
    var stack := s.workers[w].stack;
    var f := Top(s.workers[w]).(open := Top(s.workers[w]).open - 1);
    LoadOfWorker(s, Moved(c, s, CloseCollection(w)), w, Worker(s.workers[w].phase, stack[..|stack| - 1] + [f]));
    OpenOfPushed(stack[..|stack| - 1], f);
    OpenOfPopped(stack);
  }

  lemma FinishingLightens(c: Config, s: State, w: nat)
    requires CanMove(c, s, Finish(w)) && RunsWork(s, w) && Top(s.workers[w]).open == 0
    ensures Moved(c, s, Finish(w)).triggered || Load(Moved(c, s, Finish(w))) < Load(s)
  {
    var t, stack := Moved(c, s, Finish(w)), s.workers[w].stack;
    if !t.triggered {
      LoadOfWorker(s, t, w, Worker(s.workers[w].phase, stack[..|stack| - 1]));
      OpenOfPopped(stack);
    }
  }

  predicate RunsWork(s: State, w: nat) {
    w < |s.workers| && s.workers[w].stack != [] && Top(s.workers[w]).Running? && IsStealable(Top(s.workers[w]).op)
  }

  lemma StartingLightens(c: Config, s: State, w: nat)
    requires CanMove(c, s, StartLoop(w))
    ensures Load(Moved(c, s, StartLoop(w))) < Load(s)
  {
    LoadOfWorker(s, Moved(c, s, StartLoop(w)), w, Worker(Looping, []));
  }

  /** Before the trigger, until nothing is left to do but what waits for prerequisites, some worker
      can go on. */
  lemma WorkGoesOn(c: Config, s: State) returns (m: Move)
    requires Going(c, s) && !s.triggered && !AtRest(s)
    ensures CanMove(c, s, m) && Works(m)
    ensures Moved(c, s, m).triggered || Load(Moved(c, s, m)) < Load(s)
  {
    hide PlacesOk, CountersOk, MessagesOk, JoinOk, Load, Moved;
    if w: nat :| w < |s.workers| && s.workers[w].stack != [] {
      assert AtWork(s.workers[w]) && StackOk(c, s, w);
      if Top(s.workers[w]).op.TaskOp? && Top(s.workers[w]).open > 0 {
        m := CloseCollection(w);
        ClosingLightens(c, s, w);
      } else {
        m := Finish(w);
        FinishingLightens(c, s, w);
      }
    } else {
      var v: nat :| v < |s.queues| && s.queues[v] != [];
      assert AtWork(s.workers[v]) && OnlyWork(s.queues[v]) && s.queues[v][0] in s.queues[v];
      if s.workers[v].phase == NotStarted {
        m := StartLoop(v);
        StartingLightens(c, s, v);
      } else if s.workers[v].phase == Stealing {
        m := Steal(v, v);
        StealTakes(c, s, v, v);
        TakingLightens(s, Moved(c, s, m), v, v);
      } else {
        m := Pop(v);
        PopTakes(c, s, v);
        TakingLightens(s, Moved(c, s, m), v, v);
      }
    }
  }

  /** At rest, what is not finished waits for prerequisites. */
  lemma RestMeansPending(c: Config, s: State)
    requires Going(c, s) && AtRest(s)
    ensures s.tasks == s.pending && s.callables == {}
    ensures s.pending == {} ==> s.triggered
  {
    hide StacksOk, MessagesOk, JoinOk, NothingAnnounced;
    NothingQueued(s.queues);
    NothingRuns(s.workers);
    forall id: nat ensures (id in s.tasks <==> id in s.pending) && id !in s.callables {
      assert InOnePlace(s, TaskOp(id)) && InOnePlace(s, CallableOp(id));
      LocatedNowhere(s, TaskOp(id));
      LocatedNowhere(s, CallableOp(id));
    }
  }

  lemma LocatedNowhere(s: State, op: Op)
    requires AtRest(s)
    ensures Located(s.queues, s.workers, op) == 0
  {
    NothingQueued(s.queues);
    NothingRuns(s.workers);
  }

  lemma {:induction false} NothingQueued(queues: seq<seq<Op>>)
    requires forall v :: 0 <= v < |queues| ==> queues[v] == []
    ensures forall op :: Queued(queues, op) == 0
  {
    if queues != [] {
      NothingQueued(queues[..|queues| - 1]);
    }
  }

  lemma {:induction false} NothingRuns(workers: seq<Worker>)
    requires forall w :: 0 <= w < |workers| ==> workers[w].stack == []
    ensures OpenOn(workers) == 0 && forall op :: OnStacks(workers, op) == 0
  {
    if workers != [] {
      NothingRuns(workers[..|workers| - 1]);
    }
  }

  lemma WorkKeepsPending(c: Config, s: State, m: Move)
    requires CanMove(c, s, m) && Works(m)
    ensures Moved(c, s, m).pending == s.pending
  {
  }

  /** All that is ready gets done.  From every reachable state before the trigger a bounded run, in
      which the workers register and defer nothing more, ends with the trigger, or with all
      unfinished tasks waiting for prerequisites. */
  lemma {:induction false} WorkGetsDone(c: Config, s: State) returns (moves: seq<Move>)
    requires Going(c, s) && !s.triggered
    ensures IsRun(c, s, moves) && |moves| <= Load(s) + 1 && forall k :: 0 <= k < |moves| ==> Works(moves[k])
    ensures var t := After(c, s, moves);
      && Going(c, t) && t.pending == s.pending
      && (t.triggered || (AtRest(t) && t.tasks == t.pending != {} && t.callables == {}))
    decreases Load(s)
  {
    hide Going, Load, AtRest, CanMove, Moved, Works;
    moves := [];
    if AtRest(s) {
      RestMeansPending(c, s);
    } else {
      var m := WorkGoesOn(c, s);
      var t := Moved(c, s, m);
      MoveKeepsGoing(c, s, m);
      WorkKeepsPending(c, s, m);
      moves := [];
      if !t.triggered {
        moves := WorkGetsDone(c, t);
      }
      Prepend(c, s, m, moves);
      moves := [m] + moves;
    }
  }

  lemma {:induction false} AppendRuns(c: Config, s: State, first: seq<Move>, second: seq<Move>)
    requires IsRun(c, s, first) && IsRun(c, After(c, s, first), second)
    ensures IsRun(c, s, first + second) && After(c, s, first + second) == After(c, After(c, s, first), second)
    decreases |first|
  {
    hide CanMove, Moved;
    if first == [] {
      assert [] + second == second;
    } else {
      AppendRuns(c, Moved(c, s, first[0]), first[1..], second);
      assert (first + second)[1..] == first[1..] + second;
    }
  }

  /** So a program that has made everything ready comes to its end: from every reachable state in
      which no task waits for prerequisites some run ends with everything done and all workers
      gone. */
  lemma EverythingReadyMeansTheEnd(c: Config, moves: seq<Move>) returns (more: seq<Move>)
    requires c.workers > 0 && IsRun(c, Initial(c), moves) && After(c, Initial(c), moves).pending == {}
    ensures var s := After(c, Initial(c), moves);
      IsRun(c, s, more) && AllGone(After(c, s, more)) && After(c, s, more).tasks == {}
  {
    hide Going, After, IsRun, AllGone;
    InitiallyGoing(c);
    RunKeepsGoing(c, Initial(c), moves);
    var s := After(c, Initial(c), moves);
    var first := ToTheTrigger(c, s);
    GoingIsInvariant(c, After(c, s, first));
    var second := EverybodyLeaves(c, After(c, s, first));
    AppendRuns(c, s, first, second);
    more := first + second;
    RunKeepsGoing(c, s, more);
    TriggeredStays(c, After(c, s, first), second);
    NoTasksAfterTrigger(c, After(c, s, more));
  }

  lemma ToTheTrigger(c: Config, s: State) returns (moves: seq<Move>)
    requires Going(c, s) && s.pending == {}
    ensures IsRun(c, s, moves) && Going(c, After(c, s, moves)) && After(c, s, moves).triggered
  {
    hide Going;
    moves := [];
    if !s.triggered {
      moves := WorkGetsDone(c, s);
    }
  }

  lemma GoingIsInvariant(c: Config, s: State)
    requires Going(c, s)
    ensures Invariant(c, s)
  {
    hide Invariant;
  }

  lemma {:induction false} TriggeredStays(c: Config, s: State, moves: seq<Move>)
    requires IsRun(c, s, moves) && s.triggered
    ensures After(c, s, moves).triggered
    decreases |moves|
  {
    hide CanMove, Moved;
    if moves != [] {
      OnlyActorChanges(c, s, moves[0]);
      TriggeredStays(c, Moved(c, s, moves[0]), moves[1..]);
    }
  }

  lemma NoTasksAfterTrigger(c: Config, s: State)
    requires Going(c, s) && s.triggered
    ensures s.tasks == {}
  {
    hide StacksOk, PlacesOk, MessagesOk, JoinOk, NothingAnnounced;
  }

  // ---------------------------------------------------------------- queues are first in, first out

  /** What a step puts into queue `v`: tasks that its thread made ready, operations it deferred,
      and messages. */
  function Puts(c: Config, s: State, m: Move, v: nat): seq<Op> {
    match m
    case MakeReady(w, id) => if w == v then [TaskOp(id)] else []
    case Defer(w) => if w == v then [CallableOp(s.next)] else []
    case Announce(_) => if TargetOf(c, s.announced) == v then [AnnouncedOp(c, s.announced)] else []
    case _ => []
  }

  /** What a step takes out of queue `v`, to execute it. */
  function Takes(c: Config, s: State, m: Move, v: nat): seq<Op>
    requires CanMove(c, s, m)
  {
    var t := Moved(c, s, m);
    if (m == Pop(v) || (m.Steal? && m.victim == v)) && RunsSomething(t, m.w) then [Top(t.workers[m.w]).op] else []
  }

  predicate RunsSomething(s: State, w: nat) {
    w < |s.workers| && s.workers[w].stack != [] && Top(s.workers[w]).Running?
  }

  function AllPuts(c: Config, s: State, moves: seq<Move>, v: nat): seq<Op>
    requires IsRun(c, s, moves)
    decreases |moves|
  {
    if moves == [] then [] else Puts(c, s, moves[0], v) + AllPuts(c, Moved(c, s, moves[0]), moves[1..], v)
  }

  function AllTakes(c: Config, s: State, moves: seq<Move>, v: nat): seq<Op>
    requires IsRun(c, s, moves)
    decreases |moves|
  {
    if moves == [] then [] else Takes(c, s, moves[0], v) + AllTakes(c, Moved(c, s, moves[0]), moves[1..], v)
  }

  lemma MoveIsFifo(c: Config, s: State, m: Move, v: nat)
    requires CanMove(c, s, m) && v < |s.queues|
    ensures v < |Moved(c, s, m).queues|
    ensures s.queues[v] + Puts(c, s, m, v) == Takes(c, s, m, v) + Moved(c, s, m).queues[v]
  {
  }

  /** Every queue is first in, first out: what is taken out of it, by its owner or by thieves, and
      executed, is what was put into it, in that order. */
  lemma {:induction false} QueuesAreFifo(c: Config, s: State, moves: seq<Move>, v: nat)
    requires IsRun(c, s, moves) && v < |s.queues|
    ensures v < |After(c, s, moves).queues|
    ensures s.queues[v] + AllPuts(c, s, moves, v) == AllTakes(c, s, moves, v) + After(c, s, moves).queues[v]
    decreases |moves|
  {
    hide CanMove, Moved, Puts, Takes;
    if moves != [] {
      var m := moves[0];
      var t := Moved(c, s, m);
      MoveIsFifo(c, s, m, v);
      QueuesAreFifo(c, t, moves[1..], v);
      var puts, takes := AllPuts(c, t, moves[1..], v), AllTakes(c, t, moves[1..], v);
      assert s.queues[v] + (Puts(c, s, m, v) + puts) == (s.queues[v] + Puts(c, s, m, v)) + puts;
      assert (Takes(c, s, m, v) + t.queues[v]) + puts == Takes(c, s, m, v) + (t.queues[v] + puts);
      assert Takes(c, s, m, v) + (takes + After(c, s, moves).queues[v]) ==
             (Takes(c, s, m, v) + takes) + After(c, s, moves).queues[v];
    }
  }

  // ---------------------------------------------------------------- nothing comes or goes unseen

  predicate Registers(m: Move) {
    m.RegisterTask? || m.RegisterIndex?
  }

  predicate MakesCallable(m: Move) {
    m.Defer? || m.CallInPlace?
  }

  predicate Dispatches(m: Move) {
    m.MakeReady? || m.RunInPlace?
  }

  predicate FinishesTask(s: State, m: Move) {
    m.Finish? && RunsTask(s, m.w)
  }

  predicate FinishesCallable(s: State, m: Move) {
    m.Finish? && Executes(s, m.w) && !RunsTask(s, m.w)
  }

  /** How many steps of a run do something. */
  datatype Tally = Tally(
    registered: nat, dispatched: nat, finished: nat, called: nat, returned: nat, begun: nat, closed: nat)

  function One(s: State, m: Move): Tally {
    Tally(Num(Registers(m)), Num(Dispatches(m)), Num(FinishesTask(s, m)), Num(MakesCallable(m)),
          Num(FinishesCallable(s, m)), Num(m.OpenCollection?), Num(m.CloseCollection?))
  }

  function Count(c: Config, s: State, moves: seq<Move>): Tally
    requires IsRun(c, s, moves)
    decreases |moves|
  {
    if moves == [] then Tally(0, 0, 0, 0, 0, 0, 0)
    else
      var o, k := One(s, moves[0]), Count(c, Moved(c, s, moves[0]), moves[1..]);
      Tally(o.registered + k.registered, o.dispatched + k.dispatched, o.finished + k.finished, o.called + k.called,
            o.returned + k.returned, o.begun + k.begun, o.closed + k.closed)
  }

  /** From `s` to `t` everything has been counted. */
  predicate Balances(s: State, t: State, k: Tally) {
    SetsAgree(s, t, k) && OpenOn(t.workers) + k.closed == OpenOn(s.workers) + k.begun
  }

  lemma NextIsNew(s: State)
    requires PlacesOk(s)
    ensures s.next !in s.tasks && s.next !in s.pending && s.next !in s.callables
  {
    hide Located;
    assert InOnePlace(s, TaskOp(s.next)) && InOnePlace(s, CallableOp(s.next));
  }

  lemma {:induction false} CallableOnStackIsLive(s: State, w: nat)
    requires PlacesOk(s) && Executes(s, w) && !RunsTask(s, w)
    ensures Top(s.workers[w]).op.id in s.callables
  {
    var op, stack := Top(s.workers[w]).op, s.workers[w].stack;
    StackUpdate(s.workers, w, Worker(NotStarted, []), op);
    assert InOnePlace(s, op);
    assert InStack(stack, op) >= 1;
  }

  predicate SetsAgree(s: State, t: State, k: Tally) {
    && |t.tasks| + k.finished == |s.tasks| + k.registered
    && |t.pending| + k.dispatched == |s.pending| + k.registered
    && |t.callables| + k.returned == |s.callables| + k.called
  }

  lemma FinishSetsBalance(c: Config, s: State, w: nat)
    requires PlacesOk(s) && CanMove(c, s, Finish(w))
    ensures SetsAgree(s, Moved(c, s, Finish(w)), One(s, Finish(w)))
  {
    if RunsTask(s, w) {
      OnStackIsLive(s, w);
    } else if Executes(s, w) {
      CallableOnStackIsLive(s, w);
    }
    hide PlacesOk;
  }

  lemma CreationSetsBalance(c: Config, s: State, m: Move)
    requires PlacesOk(s) && CanMove(c, s, m) && (Registers(m) || MakesCallable(m) || Dispatches(m))
    ensures SetsAgree(s, Moved(c, s, m), One(s, m))
  {
    NextIsNew(s);
    hide PlacesOk;
  }

  lemma SetsBalance(c: Config, s: State, m: Move)
    requires PlacesOk(s) && CanMove(c, s, m)
    ensures SetsAgree(s, Moved(c, s, m), One(s, m))
  {
    hide PlacesOk;
    if m.Finish? {
      FinishSetsBalance(c, s, m.w);
    } else if Registers(m) || MakesCallable(m) || Dispatches(m) {
      CreationSetsBalance(c, s, m);
    }
  }

  lemma CollectionsBalance(c: Config, s: State, m: Move)
    requires Invariant(c, s) && CanMove(c, s, m)
    ensures OpenOn(Moved(c, s, m).workers) + Num(m.CloseCollection?) == OpenOn(s.workers) + Num(m.OpenCollection?)
  {
    hide StacksOk, PlacesOk, MessagesOk, JoinOk, OpenOn, DormantOf;
    MoveKeepsCounters(c, s, m);
    SetsBalance(c, s, m);
    CounterMoves(c, s, m);
  }

  /** What each step does to the shutdown counter. */
  lemma CounterMoves(c: Config, s: State, m: Move)
    requires Invariant(c, s) && CanMove(c, s, m)
    ensures Moved(c, s, m).counter + Num(FinishesTask(s, m)) + Num(m.CloseCollection?) ==
            s.counter + Num(Registers(m)) + Num(m.OpenCollection?)
  {
    hide StacksOk, PlacesOk, MessagesOk, JoinOk, CountersOk;
    if RunsTask(s, m.w) {
      RunningKeepsOpen(s, m.w);
    }
  }

  lemma MoveBalances(c: Config, s: State, m: Move)
    requires Invariant(c, s) && CanMove(c, s, m)
    ensures Balances(s, Moved(c, s, m), One(s, m))
  {
    hide StacksOk, PlacesOk, MessagesOk, JoinOk, CountersOk, Moved;
    SetsBalance(c, s, m);
    CollectionsBalance(c, s, m);
  }

  /** In every run: unfinished tasks are those registered and not finished, pending tasks those
      registered and not dispatched, callable operations those created and not finished, and open
      collections those opened and not closed. */
  lemma {:induction false} EverythingIsCounted(c: Config, s: State, moves: seq<Move>)
    requires Invariant(c, s) && IsRun(c, s, moves)
    ensures Balances(s, After(c, s, moves), Count(c, s, moves))
    decreases |moves|
  {
    hide Invariant, CanMove, Moved, One;
    if moves != [] {
      MoveBalances(c, s, moves[0]);
      MoveKeepsInvariant(c, s, moves[0]);
      EverythingIsCounted(c, Moved(c, s, moves[0]), moves[1..]);
    }
  }

  // ---------------------------------------------------------------- what a running task may do

  /** Whatever else goes on, a running task may register another one, which then waits for its
      prerequisites; when they are there its thread puts it at the end of its own queue, or runs it
      in place if its stack is not too deep. */
  lemma RunningTaskMayRegister(c: Config, s: State, w: nat)
    requires Invariant(c, s) && RunsTask(s, w)
    ensures var id := s.next; CanMove(c, s, RegisterTask(w)) && var t := Moved(c, s, RegisterTask(w));
      && id !in s.tasks && id in t.tasks && id in t.pending && t.counter == s.counter + 1 > 1
      && CanMove(c, t, MakeReady(w, id))
      && w < |s.queues| && Moved(c, t, MakeReady(w, id)).queues == s.queues[w := s.queues[w] + [TaskOp(id)]]
      && (CanMove(c, t, RunInPlace(w, id)) <==> |s.workers[w].stack| <= c.maxTaskDepth)
      && (CanMove(c, t, RunInPlace(w, id)) ==>
            var u := Moved(c, t, RunInPlace(w, id)); OnTop(u.workers[w], TaskOp(id)) && id !in u.pending)
  {
    NextIsNew(s);
    RunningKeepsOpen(s, w);
    hide PlacesOk, CountersOk, MessagesOk, JoinOk;
  }

  /** It may start on a collection, register any number of indices of it, and close it. */
  lemma RunningTaskMayOpen(c: Config, s: State, w: nat)
    requires Invariant(c, s) && RunsTask(s, w)
    ensures CanMove(c, s, OpenCollection(w)) && var t := Moved(c, s, OpenCollection(w));
      && t.counter == s.counter + 1 > 1 && CanMove(c, t, RegisterIndex(w)) && CanMove(c, t, CloseCollection(w))
      && Moved(c, t, RegisterIndex(w)).counter == s.counter + 2
      && Moved(c, t, CloseCollection(w)).counter == s.counter && Moved(c, t, CloseCollection(w)).workers == s.workers
  {
    RunningKeepsOpen(s, w);
    hide PlacesOk, CountersOk, MessagesOk, JoinOk, StacksOk;
    var stack := s.workers[w].stack;
    assert stack == stack[..|stack| - 1] + [stack[|stack| - 1]];
  }

  /** Whatever a thread executes may defer a callable operation, or run one in place. */
  lemma ExecutionMayDefer(c: Config, s: State, w: nat)
    requires Invariant(c, s) && Executes(s, w)
    ensures CanMove(c, s, Defer(w)) && s.next in Moved(c, s, Defer(w)).callables && s.next !in s.callables
    ensures w < |s.queues| && Moved(c, s, Defer(w)).queues == s.queues[w := s.queues[w] + [CallableOp(s.next)]]
    ensures CanMove(c, s, CallInPlace(w)) <==> |s.workers[w].stack| <= c.maxTaskDepth
    ensures CanMove(c, s, CallInPlace(w)) ==> OnTop(Moved(c, s, CallInPlace(w)).workers[w], CallableOp(s.next))
  {
    NextIsNew(s);
    hide PlacesOk, CountersOk, MessagesOk, JoinOk;
  }
}
