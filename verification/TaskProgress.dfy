/**
  A program running on the flow protocol cannot deadlock, and comes to an end.
  */
module TaskProgress {
  import opened Cascades
  import opened CounterNet
  import opened Deadlocks
  import opened Dispatches
  import opened FlowOrder
  import opened Options
  import opened Scripts
  import opened TaskGraph
  import opened TaskInvariants
  import opened TaskLaunches
  import opened TaskRuns
  import opened UseHistories
  import opened UseProtocol
  import opened Waiting
  import P = ProgramOrder

  // ---------------------------------------------------------------- who holds what

  /** Flows and anti-flows of different versions are different counters. */
  lemma VersionsDiffer(infos: seq<Info>, claims: seq<Claim>, v: nat, q: nat)
    requires ClaimsOk(infos, claims) && v < |infos| && q < |infos|
    requires IsVersion(infos[v].role) && IsVersion(infos[q].role) && InPlace(claims[v]) && InPlace(claims[q])
    ensures FlowOf(infos[v], claims[v]) != AntiOf(claims[q])
    ensures FlowOf(infos[v], claims[v]) == FlowOf(infos[q], claims[q]) ==> v == q
    ensures AntiOf(claims[v]) == AntiOf(claims[q]) ==> v == q
  {
    assert ClaimFits(infos, claims, v) && ClaimFits(infos, claims, q);
    VersionHasAnti(infos, claims, v);
    VersionHasAnti(infos, claims, q);
    hide ClaimFits;
    assert RisingAt(infos, claims, v, q) && RisingAt(infos, claims, q, v);
    assert RisingAt(infos, claims, v, v) && RisingAt(infos, claims, q, q);
  }

  /** Once they are registered, uses of a program are idle between two operations. */
  lemma RegisteredAreIdle(program: seq<P.Task>, w: World)
    requires OrderKept(program, w) && AllRegistered(w.sys.claims)
    ensures forall i :: 0 <= i < |w.sys.claims| ==> w.sys.claims[i].job == IDLE
  {
    forall i | 0 <= i < |w.sys.claims| ensures w.sys.claims[i].job == IDLE {
      ClaimIsConsistent(w.sys, i);
      assert ClaimFits(w.infos, w.sys.claims, i);
      RequestsArePlain(w.infos, w.sys.claims, i);
      InOneGo(w.sys.books, w.sys.claims[i]);
    }
  }

  /** What an access of a task holds until it is released: a reader the anti-flow of the
      version it reads, a writer the flow and the anti-flow of the version it makes. */
  lemma AccessHolds(program: seq<P.Task>, w: World, q: nat, c: Id)
    requires OrderKept(program, w) && AllRegistered(w.sys.claims) && q < |w.infos| && IsAccess(w.infos[q])
    requires Owes(w.sys.claims[q], c) > 0
    ensures w.infos[q].role == Reading ==> w.infos[q].prev < q && AntiOf(w.sys.claims[w.infos[q].prev]) == Some(c)
    ensures w.infos[q].role == Writing ==>
        FlowOf(w.infos[q], w.sys.claims[q]) == Some(c) || AntiOf(w.sys.claims[q]) == Some(c)
  {
    RegisteredAreIdle(program, w);
    StartsFrom(program, w, q);
    assert ClaimFits(w.infos, w.sys.claims, q);
    hide OrderKept;
    IdleOwes(w.sys.claims[q], c);
  }

  lemma IdleOwes(k: Claim, c: Id)
    requires k.job == IDLE && Owes(k, c) > 0
    ensures AntiInToken(k.use) == Some(c) || k.use.outFlow == Some(c) || k.use.antiOutFlow == Some(c)
  {
  }

  /** A use that holds back the version flow or anti-flow that `j` waits for belongs to an
      earlier task. */
  lemma HeldByEarlier(program: seq<P.Task>, w: World, j: nat, q: nat, c: Id)
    requires OrderKept(program, w) && AllRegistered(w.sys.claims)
    requires j < |w.infos| && IsAccess(w.infos[j]) && TriggerOf(w.sys.claims[j], c)
    requires q < |w.infos| && IsAccess(w.infos[q]) && Owes(w.sys.claims[q], c) > 0
    ensures w.infos[q].task < w.infos[j].task
  {
    hide Ordered, ReleasesOk, StartsOk, Owes, ClaimFits, RisingAt, Captured;
    AccessHolds(program, w, q, c);
    StartsFrom(program, w, j);
    StartsFrom(program, w, q);
    ReaderIsNoAntiDependency(program, w, j);
    var v := w.infos[j].prev;
    assert InOrder(w.infos, q, j);
    if w.infos[q].role == Writing {
      VersionsDiffer(w.infos, w.sys.claims, v, q);
      VersionsDiffer(w.infos, w.sys.claims, q, v);
      assert q == v;
    } else {
      var u := w.infos[q].prev;
      VersionsDiffer(w.infos, w.sys.claims, v, u);
      assert u == v && w.infos[j].role == Writing;
      assert MakesVersion(w.infos[j], w.infos[q].handle);
      assert q < j;
    }
  }

  lemma ReaderIsNoAntiDependency(program: seq<P.Task>, w: World, j: nat)
    requires OrderKept(program, w) && j < |w.infos|
    ensures w.infos[j].role == Reading ==> !w.sys.claims[j].use.antiDependency
  {
    assert ClaimFits(w.infos, w.sys.claims, j);
  }

  // ---------------------------------------------------------------- no deadlock

  /** Nothing is in flight, nothing runs, and nothing is left to be released. */
  ghost predicate Stuck(program: seq<P.Task>, w: World) {
    && AllRegistered(w.sys.claims) && AllAssembled(w.sys.setups) && w.front == |program| == |w.exec.status|
    && Settled(w.sys.books.state, true)
    && (forall t :: 0 <= t < |program| ==> !w.exec.status[t].Running? && Launch(t) !in w.sys.books.state.work)
    && (forall i :: 0 <= i < |w.sys.claims| && MayRelease(program, w, i) ==> w.sys.claims[i].stage == Released)
  }

  /** A settled counter that has not triggered is held by a use or waits for another counter. */
  lemma HeldBack(s: System, c: Id) returns (i: Id)
    requires Conserved(s) && AllAssembled(s.setups) && Settled(s.books.state, true)
    requires c < |s.books.state.net| && !s.books.state.net[c].triggered
    ensures OwedBy(s.claims, c) > 0 ||
            (i < |s.books.state.net| && exists a :: a in s.books.state.net[i].actions && Aims(a, c))
  {
    hide Consistent, SetupOk;
    i := 0;
    SameSize(s.books);
    AssembledOwesNothing(s.books, s.setups, c);
    if OwedBy(s.claims, c) == 0 {
      TriggeredIffDischarged(s.books.state, c);
      i := AttachedSomewhere(s.books.state.net, c);
      assert Decrement(c) in s.books.state.net[i].actions || Alias(c) in s.books.state.net[i].actions;
    }
  }

  lemma {:induction false} NoFlowNothingOwed(claims: seq<Claim>, p: Id)
    requires NoFlow(claims, p) && forall i :: 0 <= i < |claims| ==> claims[i].job == IDLE
    ensures OwedBy(claims, p) == 0
  {
    if claims != [] {
      NoFlowNothingOwed(claims[..|claims| - 1], p);
      assert NotIts(claims[|claims| - 1], p);
    }
  }

  lemma LoadedIsUntriggered(s: State, c: Id)
    requires Safe(s) && c < |s.net| && s.net[c].actions != []
    ensures !s.net[c].triggered
  {
  }

  lemma SetupCounter(w: World, t: nat)
    requires SetupsOk(w) && t < |w.sys.setups| && w.sys.setups[t].mine.Some?
    ensures w.sys.setups[t].mine.value < |w.sys.books.state.net|
    ensures forall u :: 0 <= u < |w.sys.setups| && w.sys.setups[u].mine == w.sys.setups[t].mine ==> u == t
  {
    hide HooksHold, Underway, NoFlow;
    assert SetupAt(w, t);
    forall u | 0 <= u < |w.sys.setups| && w.sys.setups[u].mine == w.sys.setups[t].mine ensures u == t {
      assert Apart(w.sys.setups, u, t);
    }
  }

  lemma AttachedFor(w: World, i: Id, a: Action, p: Id, t: nat)
    requires SetupsOk(w) && t < |w.sys.setups| && w.sys.setups[t].mine == Some(p)
    requires i < |w.sys.books.state.net| && AttachedAt(w, i) && a in w.sys.books.state.net[i].actions && Aims(a, p)
    ensures IsTrigger(w, t, i)
  {
    SetupCounter(w, t);
    hide SetupsOk, IsTrigger;
    var u: nat :| AwaitedBy(w, u, a.target, i);
  }

  lemma LaunchIsThere(program: seq<P.Task>, w: World, t: nat) returns (p: Id)
    requires LaunchesOk(program, w) && SetupsOk(w) && Stuck(program, w)
    requires t < |program| && w.exec.status[t] == P.Waiting
    ensures p < |w.sys.books.state.net| && w.sys.books.state.net[p].actions == [Launch(t)]
    ensures t < |w.sys.setups| && w.sys.setups[t].mine == Some(p)
  {
    hide SetupAt, AttachedAt, IsTrigger;
    assert Launches(w.sys.books.state, t) == 1;
    p := LaunchedSomewhere(w.sys.books.state.net, t);
    assert LaunchAt(w, p);
  }

  /** A task that waits, waits for a flow that has not triggered. */
  lemma WaitsForFlow(program: seq<P.Task>, w: World, t: nat) returns (c: Id)
    requires InShape(program, w) && Stuck(program, w)
    requires t < |program| && w.exec.status[t] == P.Waiting
    ensures IsTrigger(w, t, c) && c < |w.sys.books.state.net| && !w.sys.books.state.net[c].triggered
  {
    var s := w.sys.books.state;
    hide WiredSoFar, Consistent, SetupOk, SetupsOk, LaunchAt, AttachedAt, InfosOk, ClaimsOk, ReleasesOk, StartsOk;
    hide IsTrigger;
    var p := LaunchIsThere(program, w, t);
    LoadedIsUntriggered(s, p);
    MineIsNoFlow(w, t);
    RegisteredAreIdle(program, w);
    NoFlowNothingOwed(w.sys.claims, p);
    c := HeldBack(w.sys, p);
    var a :| a in s.net[c].actions && Aims(a, p);
    assert AttachedAt(w, c);
    AttachedFor(w, c, a, p, t);
    LoadedIsUntriggered(s, c);
  }

  /** A flow is no counter of a pending operation. */
  lemma NothingAimsAtFlows(program: seq<P.Task>, w: World, t: nat, c: Id, i: Id, a: Action)
    requires LaunchesOk(program, w) && SetupsOk(w) && IsTrigger(w, t, c)
    requires c < |w.sys.books.state.net| && i < |w.sys.books.state.net| && a in w.sys.books.state.net[i].actions
    ensures !Aims(a, c)
  {
    NoFlowNoTrigger(w, t, c);
    assert AttachedAt(w, i);
    hide SetupsOk, NoFlow, IsTrigger, Launches, LaunchAt;
    if !a.Launch? {
      var u: nat :| AwaitedBy(w, u, a.target, i);
      MineIsNoFlow(w, u);
    }
  }

  /** Flows wait for nothing but the uses that hold them. */
  lemma FlowIsHeld(program: seq<P.Task>, w: World, t: nat, c: Id) returns (q: nat)
    requires InShape(program, w) && Stuck(program, w)
    requires IsTrigger(w, t, c) && c < |w.sys.books.state.net| && !w.sys.books.state.net[c].triggered
    ensures q < |w.infos| && Owes(w.sys.claims[q], c) > 0
  {
    var s := w.sys.books.state;
    hide WiredSoFar, Owes, Consistent, SetupOk, SetupsOk, LaunchesOk, IsTrigger;
    forall i, a | 0 <= i < |s.net| && a in s.net[i].actions ensures !Aims(a, c) {
      NothingAimsAtFlows(program, w, t, c, i, a);
    }
    var i := HeldBack(w.sys, c);
    q := OwedBySomebody(w.sys.claims, c);
  }

  /** Deadlock freedom: if nothing can happen any more, all tasks are done. */
  lemma {:induction false} StuckMeansDone(program: seq<P.Task>, w: World, t: nat)
    requires InShape(program, w) && Stuck(program, w) && t < |program|
    ensures w.exec.status[t] == P.Done
    decreases t
  {
    hide Ordered, InfosOk, ClaimsOk, ReleasesOk, LaunchesOk, SetupsOk, Owes;
    if w.exec.status[t] == P.Waiting {
      var c := WaitsForFlow(program, w, t);
      var q := FlowIsHeld(program, w, t, c);
      var j :| 0 <= j < |w.infos| && j < |w.sys.claims| && Accesses(w.infos[j], t) && TriggerOf(w.sys.claims[j], c);
      UnreleasedAccess(program, w, q, c);
      HeldByEarlier(program, w, j, q, c);
      StuckMeansDone(program, w, w.infos[q].task);
    }
  }

  lemma UnreleasedAccess(program: seq<P.Task>, w: World, q: nat, c: Id)
    requires OrderKept(program, w) && Stuck(program, w) && q < |w.infos| && Owes(w.sys.claims[q], c) > 0
    ensures IsAccess(w.infos[q]) && w.infos[q].task < |program| && w.exec.status[w.infos[q].task] != P.Done
  {
    assert DeclaredAt(program, w.infos, w.front, q);
  }

  // ---------------------------------------------------------------- something can always happen

  predicate AllDone(program: seq<P.Task>, w: World) {
    forall t :: 0 <= t < |program| ==> t < |w.exec.status| && w.exec.status[t] == P.Done
  }

  lemma CanRunIfRunning(program: seq<P.Task>, start: P.Memory, w: World, t: nat) returns (e: Happening)
    requires Invariant(program, start, w) && t < |program| && w.exec.status[t].Running?
    ensures Can(program, w, e) && e.Run?
  {
    assert P.SeesItsVersion(program, start, w.exec, t);
    e := if w.exec.status[t].pc < |program[t].steps| then Run(P.Work(t)) else Run(P.Finish(t));
  }

  /** The creating thread is through. */
  predicate AllSubmitted(program: seq<P.Task>, w: World) {
    w.front == |program| && AllRegistered(w.sys.claims) && AllAssembled(w.sys.setups)
  }

  /** Once all tasks are submitted, the workers can always go on, until all are done. */
  lemma WorkersCanGoOn(program: seq<P.Task>, start: P.Memory, w: World) returns (e: Happening)
    requires Invariant(program, start, w) && AllSubmitted(program, w) && !AllDone(program, w)
    ensures Can(program, w, e) && (e.Cascade? || e.Run? || e.Release?)
  {
    var s := w.sys.books.state;
    hide OrderKept, SetupsOk, P.Faithful;
    assert |w.exec.status| == |program| by {
      StatusOfEach(program, w);
    }
    if m :| CounterNet.Enabled(s, m, true) {
      e := Cascade(m);
    } else if t: nat :| t < |program| && w.exec.status[t].Running? {
      e := CanRunIfRunning(program, start, w, t);
    } else if t: nat :| t < |program| && Launch(t) in s.work {
      assert Launches(s, t) > 0;
      e := Run(P.Start(t));
    } else if i: nat :| i < |w.sys.claims| && MayRelease(program, w, i) && w.sys.claims[i].stage != Released {
      e := Release(i);
    } else {
      var t: nat :| t < |program| && w.exec.status[t] != P.Done;
      StuckMeansDone(program, w, t);
    }
  }

  lemma StatusOfEach(program: seq<P.Task>, w: World)
    requires OrderKept(program, w)
    ensures |w.exec.status| == |program| && w.front <= |program|
  {
  }

  lemma OnlyLastUnfinished(w: World)
    requires SetupsOk(w) && !AllAssembled(w.sys.setups)
    ensures w.sys.setups != [] && w.sys.setups[|w.sys.setups| - 1].todo != []
  {
    hide Underway, HooksHold, NoFlow;
    var t :| 0 <= t < |w.sys.setups| && w.sys.setups[t].todo != [];
    assert SetupAt(w, t);
  }

  /** The creating thread can always go on until all tasks are submitted. */
  lemma CreatorCanGoOn(program: seq<P.Task>, w: World) returns (e: Happening)
    requires OrderKept(program, w) && SetupsOk(w) && !AllSubmitted(program, w)
    ensures Can(program, w, e) && (e.Capture? || e.Register? || e.Submit? || e.Assemble?)
    ensures e.Capture? && e.role == Opening ==>
              w.front < |program| && P.Touches(program[w.front], e.handle) && !Captured(w.infos, w.front, e.handle)
  {
    hide Ordered, ReleasesOk, StartsOk, SetupAt;
    if !AllAssembled(w.sys.setups) {
      OnlyLastUnfinished(w);
      e := Happening.Assemble;
    } else if !AllRegistered(w.sys.claims) {
      var i :| 0 <= i < |w.sys.claims| && !InPlace(w.sys.claims[i]);
      assert ClaimFits(w.infos, w.sys.claims, i);
      e := Register;
    } else if MustKeep(w.infos) {
      e := Capture(Keeping, w.infos[|w.infos| - 1].handle);
    } else if h: Handle :| P.Touches(program[w.front], h) && !Captured(w.infos, w.front, h) {
      e := if Newest(w.infos, h) == None then Capture(Opening, h)
           else if h in program[w.front].outputs then Capture(Writing, h) else Capture(Reading, h);
    } else {
      e := Happening.Submit;
    }
  }

  /** Deadlock freedom, for every run: as long as not all tasks are done, something can
      happen; and once they are all submitted, something other than creating tasks can. */
  lemma NeverStuck(program: seq<P.Task>, start: P.Memory, events: seq<Happening>) returns (e: Happening)
    requires P.WellBehaved(program) && AllCan(program, Idle(program, start), events)
    requires !AllDone(program, Outcome(program, Idle(program, start), events))
    ensures var w := Outcome(program, Idle(program, start), events);
      Can(program, w, e) && (AllSubmitted(program, w) ==> e.Cascade? || e.Run? || e.Release?)
  {
    hide OrderKept, SetupsOk, LaunchesOk, Outcome, AllCan, Can, P.Faithful;
    IdleIsInvariant(program, start);
    RunKeepsInvariant(program, start, Idle(program, start), events);
    var w := Outcome(program, Idle(program, start), events);
    StatusOfEach(program, w);
    if AllSubmitted(program, w) {
      e := WorkersCanGoOn(program, start, w);
    } else {
      e := CreatorCanGoOn(program, w);
    }
  }

  // ---------------------------------------------------------------- and everything ends

  function StepsLeft(program: seq<P.Task>, status: seq<P.Status>): nat
    requires |status| <= |program|
  {
    if status == [] then 0
    else
      var t := |status| - 1;
      StepsLeft(program, status[..t]) +
      match status[t]
      case Waiting => |program[t].steps| + 2
      case Running(pc) => if pc <= |program[t].steps| then |program[t].steps| - pc + 1 else 1
      case Done => 0
  }

  function ReleasesLeft(claims: seq<Claim>): nat {
    if claims == [] then 0
    else ReleasesLeft(claims[..|claims| - 1]) + (9 - Reached(claims[|claims| - 1].stage))
  }

  /** How much is left to do once all tasks are submitted. */
  function Remaining(program: seq<P.Task>, w: World): nat
    requires |w.exec.status| == |program|
  {
    Potential(w.sys.books.state) + 2 * ReleasesLeft(w.sys.claims) + StepsLeft(program, w.exec.status)
  }

  /** One act of a task. */
  predicate GoesOn(was: P.Status, now: P.Status, steps: nat) {
    || (was == P.Waiting && now == P.Running(0))
    || (was.Running? && now.Running? && now.pc == was.pc + 1 <= steps)
    || (was.Running? && now == P.Done)
  }

  lemma {:induction false} StatusUpdate(program: seq<P.Task>, status: seq<P.Status>, t: nat, x: P.Status)
    requires |status| <= |program| && t < |status|
    requires GoesOn(status[t], x, |program[t].steps|)
    ensures StepsLeft(program, status[t := x]) < StepsLeft(program, status)
  {
    var n := |status| - 1;
    if t == n {
      assert status[t := x][..n] == status[..n];
    } else {
      StatusUpdate(program, status[..n], t, x);
      assert status[t := x][..n] == status[..n][t := x];
    }
  }

  lemma {:induction false} ClaimUpdate(claims: seq<Claim>, i: nat, k: Claim)
    requires i < |claims|
    ensures ReleasesLeft(claims[i := k]) + Reached(k.stage) == ReleasesLeft(claims) + Reached(claims[i].stage)
  {
    var n := |claims| - 1;
    if i == n {
      assert claims[i := k][..n] == claims[..n];
    } else {
      ClaimUpdate(claims[..n], i, k);
      assert claims[i := k][..n] == claims[..n][i := k];
    }
  }

  lemma ReleaseCosts(b: Books, k: Claim)
    requires Consistent(b, k) && IsPlain(k.request) && InPlace(k) && k.stage != Released
    ensures Potential(StepBooks(b, JobOf(k)).state) <= Potential(b.state) + 1
    ensures Reached(NextClaim(k, |b.held|).stage) == Reached(k.stage) + 1
  {
    ReleaseKeepsUse(b, k, |b.held|);
    hide Stored, NextClaim, Consistent;
  }

  /** With all tasks submitted, everything that happens uses something up. */
  lemma EverythingEnds(program: seq<P.Task>, start: P.Memory, w: World, e: Happening)
    requires Invariant(program, start, w) && Can(program, w, e) && (e.Cascade? || e.Run? || e.Release?)
    ensures |w.exec.status| == |program| == |Happen(program, w, e).exec.status|
    ensures Remaining(program, Happen(program, w, e)) < Remaining(program, w)
  {
    hide LaunchesOk, SetupsOk, P.Faithful, WiredSoFar, Potential, Consistent, SetupOk;
    match e
    case Cascade(m) => MoveSpendsOne(w.sys.books.state, m, true);
    case Run(a) =>
      var t := Happen(program, w, e);
      StatusUpdate(program, w.exec.status, a.task, t.exec.status[a.task]);
      if a.Start? {
        TakingSpendsOne(w.sys.books.state, a.task);
      }
    case Release(i) =>
      assert ClaimFits(w.infos, w.sys.claims, i);
      RequestsArePlain(w.infos, w.sys.claims, i);
      ReleaseCosts(w.sys.books, w.sys.claims[i]);
      ClaimUpdate(w.sys.claims, i, NextClaim(w.sys.claims[i], |w.sys.books.held|));
  }

  lemma TakingSpendsOne(s: State, t: nat)
    requires Launch(t) in s.work
    ensures Potential(s.(work := s.work - multiset{Launch(t)})) < Potential(s)
  {
  }

  predicate OnlyWorkers(events: seq<Happening>) {
    forall i :: 0 <= i < |events| ==> events[i].Cascade? || events[i].Run? || events[i].Release?
  }

  lemma {:induction false} RunsAreBounded(program: seq<P.Task>, start: P.Memory, w: World, events: seq<Happening>)
    requires P.WellBehaved(program) && Invariant(program, start, w)
    requires AllCan(program, w, events) && OnlyWorkers(events)
    ensures |w.exec.status| == |program| && |events| <= Remaining(program, w)
    decreases |events|
  {
    hide OrderKept, SetupsOk, LaunchesOk, P.Faithful, Can, Happen, Remaining;
    StatusOfEach(program, w);
    if events != [] {
      EverythingEnds(program, start, w, events[0]);
      HappeningKeepsInvariant(program, start, w, events[0]);
      RunsAreBounded(program, start, Happen(program, w, events[0]), events[1..]);
    }
  }

  /** Once all tasks are submitted, the workers either can go on or have computed the
      sequential result. */
  lemma QuiescenceIsSequential(program: seq<P.Task>, start: P.Memory, events: seq<Happening>, h: Handle)
      returns (e: Happening)
    requires P.WellBehaved(program) && AllCan(program, Idle(program, start), events)
    requires AllSubmitted(program, Outcome(program, Idle(program, start), events))
    ensures var w := Outcome(program, Idle(program, start), events);
      || (Can(program, w, e) && (e.Cascade? || e.Run? || e.Release?))
      || (AllDone(program, w) && w.exec.memory(h) == P.Sequential(program, start, |program|)(h))
  {
    hide OrderKept, SetupsOk, LaunchesOk, Outcome, AllCan, Can, P.Faithful;
    IdleIsInvariant(program, start);
    RunKeepsInvariant(program, start, Idle(program, start), events);
    var w := Outcome(program, Idle(program, start), events);
    StatusOfEach(program, w);
    if AllDone(program, w) {
      P.AllDoneIsSequential(program, start, w.exec, h);
      e := Happening.Submit;
    } else {
      e := WorkersCanGoOn(program, start, w);
    }
  }
}
