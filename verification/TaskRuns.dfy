/**
  Parallel execution on the flow protocol refines program order.
  */
module TaskRuns {
  import opened CounterNet
  import opened Dispatches
  import opened FlowOrder
  import opened Options
  import opened Scripts
  import opened TaskGraph
  import opened TaskInvariants
  import opened TaskLaunches
  import opened UseHistories
  import opened UseProtocol
  import opened Waiting
  import P = ProgramOrder

  // ---------------------------------------------------------------- no assertion fails

  /** The claim holds the anti-flow as long as it is registered and not released. */
  lemma HoldsAnti(s: System, i: nat, anti: Id)
    requires Conserved(s) && i < |s.claims| && s.claims[i].stage == Stage.Held
    requires s.claims[i].use.antiOutFlow == Some(anti) || AntiInToken(s.claims[i].use) == Some(anti)
    ensures KnownLive(s.books, Some(anti))
  {
    assert Consistent(s.books, s.claims[i]);
    OwedByAtLeast(s.claims, i, anti);
    HeldIsLive(s.books, anti);
  }

  /** The claim that keeps the version of `v` from being overwritten while `n`, which reads
      or keeps it, is being registered. */
  lemma KeptWhileRegistering(program: seq<P.Task>, w: World)
    requires OrderKept(program, w) && Can(program, w, Register)
    ensures var n := |w.sys.claims| - 1; var i := w.infos[n];
      i.role == Keeping || i.role == Reading ==>
        i.prev < n && KnownLive(w.sys.books, AntiOf(w.sys.claims[i.prev]))
  {
    var n := |w.sys.claims| - 1;
    hide Ordered, InfosOk, ClaimsOk, KnownLive, StartsOk;
    LastIsOfFront(program, w, n);
    if w.infos[n].role == Keeping {
      KeptForKeeper(program, w, n);
    } else if w.infos[n].role == Reading {
      KeptForReader(program, w, n);
    }
  }

  lemma LastIsOfFront(program: seq<P.Task>, w: World, n: nat)
    requires OrderKept(program, w) && n == |w.infos| - 1 && !InPlace(w.sys.claims[n])
    ensures w.infos[n].task == w.front && (w.infos[n].role != Opening ==> w.infos[n].prev < n)
  {
    hide Ordered, StartsOk;
    assert DeclaredAt(program, w.infos, w.front, n) && ClaimFits(w.infos, w.sys.claims, n);
  }

  lemma KeptForKeeper(program: seq<P.Task>, w: World, n: nat)
    requires OrderKept(program, w) && n == |w.infos| - 1 && w.infos[n].role == Keeping
    requires w.infos[n].task == w.front && w.infos[n].prev < n
    ensures KnownLive(w.sys.books, AntiOf(w.sys.claims[w.infos[n].prev]))
  {
    hide Conserved, WiredSoFar, KnownLive, StartsOk;
    var v := w.infos[n].prev;
    assert LinkedAt(w.infos, n) && ClaimFits(w.infos, w.sys.claims, v);
    VersionHasAnti(w.infos, w.sys.claims, v);
    WriterUnreleased(program, w, v);
    HoldsAnti(w.sys, v, AntiOf(w.sys.claims[v]).value);
  }

  lemma WriterUnreleased(program: seq<P.Task>, w: World, v: nat)
    requires OrderKept(program, w) && v < |w.infos| && w.infos[v].role == Writing && w.infos[v].task == w.front
    requires InPlace(w.sys.claims[v])
    ensures w.sys.claims[v].stage == Stage.Held
  {
    ReleasedOnlyWhenAllowed(program, w, v);
  }

  lemma ReleasedOnlyWhenAllowed(program: seq<P.Task>, w: World, i: nat)
    requires ReleasesOk(program, w) && i < |w.infos| && !MayRelease(program, w, i)
    ensures Reached(w.sys.claims[i].stage) < 5
  {
  }

  /** A version is superseded only by a later writer. */
  lemma StillNewest(program: seq<P.Task>, w: World, n: nat, keeper: nat)
    requires InfosOk(program, w.infos, w.front) && n == |w.infos| - 1 && w.infos[n].role == Reading
    requires w.infos[n].prev <= keeper < n && w.infos[keeper].handle == w.infos[n].handle
    ensures !Superseded(w, keeper)
  {
    assert LinkedAt(w.infos, n);
    NewestIsLast(w.infos[..n], w.infos[n].handle);
    assert forall j :: 0 <= j < n ==> w.infos[..n][j] == w.infos[j];
  }

  lemma KeptForReader(program: seq<P.Task>, w: World, n: nat)
    requires OrderKept(program, w) && n == |w.infos| - 1 && w.infos[n].role == Reading
    requires w.infos[n].task == w.front && w.infos[n].prev < n
    ensures KnownLive(w.sys.books, AntiOf(w.sys.claims[w.infos[n].prev]))
  {
    hide Conserved, WiredSoFar, KnownLive, StartsOk, Superseded, ClaimFits, InPlace;
    var v := w.infos[n].prev;
    assert LinkedAt(w.infos, n) && LinkedAt(w.infos, v) && DeclaredAt(program, w.infos, w.front, n);
    NewestIsLast(w.infos[..n], w.infos[n].handle);
    assert MakesVersion(w.infos[v], w.infos[n].handle);
    var keeper := if w.infos[v].role == Opening then v else v + 1;
    KeeperHolds(w.infos, w.sys.claims, v, keeper);
    StillNewest(program, w, n, keeper);
    ReleasedOnlyWhenAllowed(program, w, keeper);
    HoldsAnti(w.sys, keeper, AntiOf(w.sys.claims[v]).value);
  }

  /** The use that keeps a version from being overwritten holds its anti-flow. */
  lemma KeeperHolds(infos: seq<Info>, claims: seq<Claim>, v: nat, keeper: nat)
    requires ClaimsOk(infos, claims) && v < |infos| - 1 && keeper < |infos| - 1 && IsVersion(infos[v].role)
    requires if infos[v].role == Opening then keeper == v else infos[keeper].role == Keeping && infos[keeper].prev == v
    ensures AntiOf(claims[v]).Some? && Reached(claims[keeper].stage) >= 4
    ensures AntiOf(claims[v]) == claims[keeper].use.antiOutFlow || AntiOf(claims[v]) == AntiInToken(claims[keeper].use)
  {
    assert ClaimFits(infos, claims, v) && ClaimFits(infos, claims, keeper);
    VersionHasAnti(infos, claims, v);
  }

  /** A use of the shape of RequestFor is registered without complaint as long as the flows it
      starts from exist, and the anti-flow it raises is live. */
  lemma ShapeIsAccepted(b: Books, k: Claim, role: Role, flow: Option<Id>, anti: Option<Id>)
    requires k.request == RequestFor(role, flow, anti) && UseFits(k) && FlowsInRange(b, k.use) && !InPlace(k)
    requires role != Opening ==> Known(b, flow) && Known(b, anti)
    requires role == Keeping || role == Reading ==> KnownLive(b, anti)
    ensures MayAdvance(b, k)
  {
    hide Live;
  }

  /** What the last use starts from. */
  lemma StartsFromKnown(program: seq<P.Task>, w: World, n: nat)
    requires OrderKept(program, w) && n == |w.infos| - 1 && w.infos[n].role != Opening
    ensures var v := w.infos[n].prev;
      && v < n && Known(w.sys.books, FlowOf(w.infos[v], w.sys.claims[v])) && Known(w.sys.books, AntiOf(w.sys.claims[v]))
  {
    var v := w.infos[n].prev;
    assert ClaimFits(w.infos, w.sys.claims, n) && LinkedAt(w.infos, n);
    hide UseFits, WiredSoFar, Balanced, SetupOk, Consistent, ReleasesOk, StartsOk, InfosOk;
    assert ClaimFits(w.infos, w.sys.claims, v);
    NewestIsLast(w.infos[..n], w.infos[n].handle);
    VersionHasAnti(w.infos, w.sys.claims, v);
    FlowsAreInRange(w.sys.books, w.sys.claims[v]);
  }

  /** Whatever the creating thread and the workers do, no assertion of register_use fails:
      every flow it raises is one somebody holds. */
  lemma RegisterIsAccepted(program: seq<P.Task>, w: World)
    requires OrderKept(program, w) && Can(program, w, Register)
    ensures Obeys(w.sys, Advance(|w.sys.claims| - 1))
  {
    var n := |w.sys.claims| - 1;
    var k, i, b := w.sys.claims[n], w.infos[n], w.sys.books;
    KeptWhileRegistering(program, w);
    ClaimIsConsistent(w.sys, n);
    FlowsAreInRange(b, k);
    if i.role != Opening {
      StartsFromKnown(program, w, n);
    }
    assert ClaimFits(w.infos, w.sys.claims, n);
    hide OrderKept, KnownLive, Known, UseFits, FlowsInRange, RequestFor, MayAdvance, Consistent;
    if i.role == Opening {
      ShapeIsAccepted(b, k, Opening, None, None);
    } else {
      ShapeIsAccepted(b, k, i.role, FlowOf(w.infos[i.prev], w.sys.claims[i.prev]), AntiOf(w.sys.claims[i.prev]));
    }
  }

  lemma ReleaseIsAccepted(program: seq<P.Task>, w: World, i: nat)
    requires OrderKept(program, w) && Can(program, w, Release(i))
    ensures Obeys(w.sys, Advance(i))
  {
    assert ClaimFits(w.infos, w.sys.claims, i);
    RequestsArePlain(w.infos, w.sys.claims, i);
  }

  // ---------------------------------------------------------------- each happening keeps the order

  lemma ReleasesStay(program: seq<P.Task>, v: World, w: World)
    requires ReleasesOk(program, v) && |v.infos| <= |w.infos| == |w.sys.claims|
    requires forall i :: 0 <= i < |v.infos| ==> w.infos[i] == v.infos[i]
    requires v.front == |program| ==> w.front == |program|
    requires forall t :: 0 <= t < |v.exec.status| && v.exec.status[t] == P.Done ==>
               t < |w.exec.status| && w.exec.status[t] == P.Done
    requires forall i :: 0 <= i < |v.infos| && InPlace(v.sys.claims[i]) ==> InPlace(w.sys.claims[i])
    requires forall i :: 0 <= i < |w.infos| && Reached(w.sys.claims[i].stage) >= 5 ==>
               i < |v.infos| && (Reached(v.sys.claims[i].stage) >= 5 || MayRelease(program, v, i))
    requires forall i :: 0 <= i < |w.infos| && w.infos[i].task < w.front ==> InPlace(w.sys.claims[i])
    ensures ReleasesOk(program, w)
  {
    forall i | 0 <= i < |w.infos| && Reached(w.sys.claims[i].stage) >= 5 ensures MayRelease(program, w, i) {
      assert MayRelease(program, v, i);
      if Superseded(v, i) {
        var j :| i < j < |v.infos| && v.infos[j].role == Writing && v.infos[j].handle == v.infos[i].handle &&
                 InPlace(v.sys.claims[j]);
        assert Superseded(w, i);
      }
    }
  }

  lemma StartsStay(program: seq<P.Task>, v: World, w: World)
    requires StartsOk(program, v) && SameTriggers(v, w) && Keeps(v.sys.books.state, w.sys.books.state)
    requires |v.infos| == |v.sys.claims| && |w.infos| == |w.sys.claims|
    requires v.front <= w.front && |w.exec.status| == |program|
    requires forall t :: 0 <= t < |program| && w.exec.status[t] != P.Waiting ==>
               v.exec.status[t] != P.Waiting || (t < v.front && TriggersFired(v, t))
    ensures StartsOk(program, w)
  {
    SameTriggersAreTriggers(v, w);
    hide IsTrigger, Fired, SameTriggers;
    forall t | 0 <= t < |program| && w.exec.status[t] != P.Waiting ensures t < w.front && TriggersFired(w, t) {
      assert t < v.front && TriggersFired(v, t);
    }
  }

  ghost predicate InShape(program: seq<P.Task>, w: World) {
    OrderKept(program, w) && SetupsOk(w) && LaunchesOk(program, w)
  }

  lemma CaptureKeepsOrder(program: seq<P.Task>, w: World, role: Role, h: Handle)
    requires InShape(program, w) && Can(program, w, Capture(role, h))
    ensures InShape(program, Happen(program, w, Capture(role, h)))
  {
    var t := Happen(program, w, Capture(role, h));
    CaptureKeepsInfos(program, w, role, h);
    CaptureKeepsClaims(program, w, role, h);
    CaptureKeepsLaunches(program, w, role, h);
    EventKeepsOrder(w.sys, Begin(t.sys.claims[|w.infos|].request));
    assert t.sys == After(w.sys, Begin(t.sys.claims[|w.infos|].request));
    hide Ordered, InfosOk, ClaimsOk, SetupsOk, LaunchesOk, SameTriggers, Keeps;
    ReleasesStay(program, w, t);
    StartsStay(program, w, t);
  }

  lemma RegisteredClaims(w: World)
    requires Ordered(w.sys) && ClaimsOk(w.infos, w.sys.claims)
    requires w.sys.claims != [] && !InPlace(w.sys.claims[|w.sys.claims| - 1])
    ensures var n := |w.sys.claims| - 1; var k := NextClaim(w.sys.claims[n], |w.sys.books.held|);
      ClaimsOk(w.infos, w.sys.claims[n := k]) && Reached(w.sys.claims[n].stage) <= Reached(k.stage) <= 4
  {
    hide NextClaim, ClaimsOk, WiredSoFar, Balanced, SetupOk, Consistent;
    RegisterKeepsClaims(w.infos, w.sys.claims, w.sys.books);
    StageGoesUp(w.sys.claims[|w.sys.claims| - 1], |w.sys.books.held|);
  }

  lemma StageGoesUp(k: Claim, made: Id)
    ensures Reached(k.stage) <= Reached(NextClaim(k, made).stage) <= Reached(k.stage) + 1
  {
    hide Script;
  }

  lemma RegisterKeepsOrder(program: seq<P.Task>, w: World)
    requires InShape(program, w) && Can(program, w, Register)
    ensures InShape(program, Happen(program, w, Register))
  {
    hide Ordered, InfosOk, ClaimsOk, SetupsOk, LaunchesOk, SameTriggers, Keeps, Obeys, NextClaim, JobOf, StepBooks;
    var t, n := Happen(program, w, Register), |w.sys.claims| - 1;
    RegisterIsAccepted(program, w);
    LastIsOfFront(program, w, n);
    AdvanceKeepsLaunches(program, w, n);
    EventKeepsOrder(w.sys, Advance(n));
    RegisteredClaims(w);
    ReleasesStay(program, w, t);
    StartsStay(program, w, t);
  }

  lemma ClaimIsConsistent(s: System, i: nat)
    requires Ordered(s) && i < |s.claims|
    ensures Consistent(s.books, s.claims[i])
  {
  }

  lemma ReleaseKeepsOrder(program: seq<P.Task>, w: World, i: nat)
    requires InShape(program, w) && Can(program, w, Release(i))
    ensures InShape(program, Happen(program, w, Release(i)))
  {
    var t := Happen(program, w, Release(i));
    hide Ordered, InfosOk, ClaimsOk, SetupsOk, LaunchesOk, SameTriggers, Keeps, Obeys, NextClaim, JobOf, StepBooks;
    hide Consistent, P.Enabled, Superseded;
    ReleaseIsAccepted(program, w, i);
    ClaimIsConsistent(w.sys, i);
    AdvanceKeepsLaunches(program, w, i);
    EventKeepsOrder(w.sys, Advance(i));
    ReleaseKeepsClaims(w.infos, w.sys.claims, w.sys.books, i);
    ReleasesStay(program, w, t);
    StartsStay(program, w, t);
  }

  lemma CascadeKeepsOrder(program: seq<P.Task>, w: World, m: CounterNet.Move)
    requires InShape(program, w) && Can(program, w, Cascade(m))
    ensures InShape(program, Happen(program, w, Cascade(m)))
  {
    var t := Happen(program, w, Cascade(m));
    EventKeepsOrder(w.sys, Event.Move(m));
    CascadeKeepsLaunches(program, w, m);
    hide Ordered, InfosOk, ClaimsOk, SetupsOk, LaunchesOk, SameTriggers, Keeps;
    ReleasesStay(program, w, t);
    StartsStay(program, w, t);
  }

  lemma TriggersAreKnown(w: World)
    requires Conserved(w.sys) && |w.infos| == |w.sys.claims|
    ensures AllKnown(w.sys.books, Triggers(w.sys.claims, w.infos, w.front))
  {
    hide Balanced, SetupOk, Consistent;
    var triggers := Triggers(w.sys.claims, w.infos, w.front);
    forall c | c in triggers ensures c < |w.sys.books.held| {
      TriggersComplete(w.sys.claims, w.infos, w.front, c);
      var i :| 0 <= i < |w.infos| && Accesses(w.infos[i], w.front) && TriggerOf(w.sys.claims[i], c);
      FlowsAreInRange(w.sys.books, w.sys.claims[i]);
    }
  }

  lemma SubmitIsAccepted(w: World)
    requires Conserved(w.sys) && |w.infos| == |w.sys.claims|
    ensures Obeys(w.sys, Event.Submit(Triggers(w.sys.claims, w.infos, w.front), w.front))
  {
    TriggersAreKnown(w);
  }

  lemma SubmitKeepsOrder(program: seq<P.Task>, w: World)
    requires InShape(program, w) && Can(program, w, Happening.Submit)
    ensures InShape(program, Happen(program, w, Happening.Submit))
  {
    var t := Happen(program, w, Happening.Submit);
    SubmitKeepsInfos(program, w);
    SubmitIsAccepted(w);
    SubmitKeepsLaunches(program, w);
    EventKeepsOrder(w.sys, Event.Submit(Triggers(w.sys.claims, w.infos, w.front), w.front));
    assert t.sys.claims == w.sys.claims && t.infos == w.infos && t.front == w.front + 1 && t.exec == w.exec;
    hide Ordered, InfosOk, ClaimsOk, SetupsOk, LaunchesOk, SameTriggers, Keeps, Happen, Superseded, InPlace;
    ReleasesStay(program, w, t);
    StartsStay(program, w, t);
  }

  lemma AssembleIsAccepted(program: seq<P.Task>, w: World)
    requires InShape(program, w) && Can(program, w, Happening.Assemble)
    ensures Conserved(w.sys) && |w.exec.status| >= w.front && Obeys(w.sys, Event.Assemble(|w.sys.setups| - 1))
  {
    hide WiredSoFar, Conserved, ClaimsOk, SetupsOk, LaunchesOk, ReleasesOk;
  }

  lemma AssembleKeepsOrder(program: seq<P.Task>, w: World)
    requires InShape(program, w) && Can(program, w, Happening.Assemble)
    ensures InShape(program, Happen(program, w, Happening.Assemble))
  {
    var t := Happen(program, w, Happening.Assemble);
    assert t.sys.claims == w.sys.claims && t.infos == w.infos && t.front == w.front && t.exec == w.exec;
    assert t.sys == After(w.sys, Event.Assemble(|w.sys.setups| - 1));
    hide Ordered, InfosOk, ClaimsOk, LaunchesOk, SameTriggers, Keeps, Happen, Superseded, InPlace, After;
    AssembleIsAccepted(program, w);
    hide SetupsOk;
    AssembleKeepsLaunches(program, w);
    EventKeepsOrder(w.sys, Event.Assemble(|w.sys.setups| - 1));
    ReleasesStay(program, w, t);
    StartsStay(program, w, t);
  }

  /** A worker takes a task out of its queue. */
  lemma TakenBalances(b: Books, t: nat)
    requires Balanced(b)
    ensures Balanced(b.(state := b.state.(work := b.state.work - multiset{Launch(t)})))
  {
    var s, u := b.state, b.state.(work := b.state.work - multiset{Launch(t)});
    assert forall c: Id :: Aimed(u.work, c) == Aimed(s.work, c);
    assert forall c :: 0 <= c < |s.net| ==> CounterNet.Held(u, c) == CounterNet.Held(s, c);
  }

  lemma TakenKeepsOrder(s: System, t: nat)
    requires Ordered(s)
    ensures Ordered(TaskGraph.Taken(s, t)) && Keeps(s.books.state, TaskGraph.Taken(s, t).books.state)
  {
    hide WiredSoFar, Keeps, Balanced, Consistent, SetupOk;
    var b := TaskGraph.Taken(s, t).books;
    TakenBalances(s.books, t);
    TakenKeeps(s.books.state, t);
    ClaimsStayConsistent(s, b);
    OthersStayWired(s, b);
  }

  lemma RunChangesOne(program: seq<P.Task>, w: World, a: P.Act)
    requires Can(program, w, Run(a))
    ensures var t := Happen(program, w, Run(a));
      && t.infos == w.infos && t.front == w.front && t.sys.claims == w.sys.claims
      && |t.exec.status| == |w.exec.status| == |program|
      && (forall u :: 0 <= u < |program| && w.exec.status[u] == P.Done ==> t.exec.status[u] == P.Done)
      && (forall u :: 0 <= u < |program| && t.exec.status[u] != P.Waiting ==>
            w.exec.status[u] != P.Waiting || a == P.Start(u))
      && t.sys == if a.Start? then TaskGraph.Taken(w.sys, a.task) else w.sys
  {
    hide TaskGraph.Taken;
    TakenKeepsClaims(w.sys, a.task);
  }

  lemma TakenKeepsClaims(s: System, t: nat)
    ensures TaskGraph.Taken(s, t).claims == s.claims
  {
  }

  lemma RunKeepsOrder(program: seq<P.Task>, w: World, a: P.Act)
    requires InShape(program, w) && Can(program, w, Run(a))
    ensures InShape(program, Happen(program, w, Run(a)))
  {
    var t := Happen(program, w, Run(a));
    hide Happen;
    assert a.Start? ==> |w.sys.setups| == w.front;
    hide Ordered, InfosOk, ClaimsOk, SetupsOk, LaunchesOk, SameTriggers, Keeps, TriggersFired;
    RunKeepsLaunches(program, w, a);
    KeepsItself(w.sys.books.state);
    TakenKeepsOrder(w.sys, a.task);
    if a.Start? {
      StartIsLaunched(program, w, a.task);
      assert a.task < w.front;
    }
    hide P.Enabled, TaskGraph.Taken;
    RunChangesOne(program, w, a);
    ReleasesStay(program, w, t);
    StartsStay(program, w, t);
  }

  // ---------------------------------------------------------------- every run

  ghost predicate Invariant(program: seq<P.Task>, start: P.Memory, w: World) {
    InShape(program, w) && P.Faithful(program, start, w.exec)
  }

  lemma HappeningKeepsInvariant(program: seq<P.Task>, start: P.Memory, w: World, e: Happening)
    requires P.WellBehaved(program) && Invariant(program, start, w) && Can(program, w, e)
    ensures Invariant(program, start, Happen(program, w, e))
  {
    hide OrderKept, SetupsOk, LaunchesOk, P.Faithful, P.Respects;
    match e
    case Capture(role, h) => CaptureKeepsOrder(program, w, role, h);
    case Register => RegisterKeepsOrder(program, w);
    case Submit => SubmitKeepsOrder(program, w);
    case Assemble => AssembleKeepsOrder(program, w);
    case Cascade(m) => CascadeKeepsOrder(program, w, m);
    case Run(a) =>
      RunKeepsOrder(program, w, a);
      OrderIsRespected(program, w);
      OrderIsRespected(program, Happen(program, w, e));
      P.ActStaysFaithful(program, start, w.exec, a);
    case Release(i) => ReleaseKeepsOrder(program, w, i);
  }

  lemma IdleIsInvariant(program: seq<P.Task>, start: P.Memory)
    requires P.WellBehaved(program)
    ensures Invariant(program, start, Idle(program, start))
  {
    P.FaithfulAtFirst(program, start);
    InitialOrder();
  }

  lemma {:induction false} RunKeepsInvariant(program: seq<P.Task>, start: P.Memory, w: World, events: seq<Happening>)
    requires P.WellBehaved(program) && Invariant(program, start, w) && AllCan(program, w, events)
    ensures Invariant(program, start, Outcome(program, w, events))
    decreases |events|
  {
    hide Invariant, Can, Happen;
    if events != [] {
      HappeningKeepsInvariant(program, start, w, events[0]);
      RunKeepsInvariant(program, start, Happen(program, w, events[0]), events[1..]);
    }
  }

  /** Parallel execution refines program order.  For every program, every interleaving of
      the thread that creates the tasks, of the workers that run and release them, and of
      the cascades of all of them: tasks that conflict never run side by side; every running
      task sees on all the data it touches exactly what the sequential execution shows it at
      that step; and when all tasks are done the memory is the sequential result. */
  lemma ParallelRefinesSequential(program: seq<P.Task>, start: P.Memory, events: seq<Happening>)
    requires P.WellBehaved(program) && AllCan(program, Idle(program, start), events)
    ensures var e := Outcome(program, Idle(program, start), events).exec;
      && |e.status| == |program|
      && (forall t, u, h: Handle ::
            0 <= t < u < |program| && P.ConflictOn(program[t], program[u], h) ==>
              !(e.status[t].Running? && e.status[u].Running?))
      && (forall t :: 0 <= t < |program| ==> P.SeesItsVersion(program, start, e, t))
      && ((forall t :: 0 <= t < |program| ==> e.status[t] == P.Done) ==>
            forall h: Handle :: e.memory(h) == P.Sequential(program, start, |program|)(h))
  {
    hide OrderKept, SetupsOk, LaunchesOk, Outcome, AllCan;
    IdleIsInvariant(program, start);
    RunKeepsInvariant(program, start, Idle(program, start), events);
    var w := Outcome(program, Idle(program, start), events);
    OrderIsRespected(program, w);
    forall t, u, h: Handle | 0 <= t < u < |program| && P.ConflictOn(program[t], program[u], h)
      ensures !(w.exec.status[t].Running? && w.exec.status[u].Running?)
    {
      P.ConflictingTasksExclude(program, w.exec.status, t, u, h);
    }
    if forall t :: 0 <= t < |program| ==> w.exec.status[t] == P.Done {
      forall h: Handle ensures w.exec.memory(h) == P.Sequential(program, start, |program|)(h) {
        P.AllDoneIsSequential(program, start, w.exec, h);
      }
    }
  }

  /** In no run does an assertion of the source fail: every part of a registration finds the
      flows it names and raises live, every counter operation of registration, submission and
      release finds what it raises untriggered and what it gives away held, and no decrement
      finds a counter at zero or triggered. */
  lemma NoAssertionFails(program: seq<P.Task>, start: P.Memory, events: seq<Happening>, e: Happening)
    requires P.WellBehaved(program) && AllCan(program, Idle(program, start), events)
    requires Can(program, Outcome(program, Idle(program, start), events), e)
    ensures var w := Outcome(program, Idle(program, start), events);
      && (e.Register? ==> MayAdvance(w.sys.books, w.sys.claims[|w.sys.claims| - 1]))
      && (e.Register? ==> NextIsPermitted(w.sys.books, JobOf(w.sys.claims[|w.sys.claims| - 1])))
      && (e.Release? ==> NextIsPermitted(w.sys.books, JobOf(w.sys.claims[e.claim])))
      && (e.Assemble? ==> NextIsPermitted(w.sys.books, w.sys.setups[|w.sys.setups| - 1]))
      && (e.Cascade? ==> CanApply(w.sys.books.state, e.move))
      && (e.Cascade? && e.move.Do? ==> !w.sys.books.state.net[e.move.action.target].triggered)
  {
    hide OrderKept, LaunchesOk, SetupsOk, Outcome, AllCan, P.Faithful, NextIsPermitted, MayAdvance, Can;
    IdleIsInvariant(program, start);
    RunKeepsInvariant(program, start, Idle(program, start), events);
    var w := Outcome(program, Idle(program, start), events);
    match e
    case Register => RegisterIsSafe(program, w);
    case Release(i) => ReleaseIsSafe(program, w, i);
    case Assemble => AssembleIsSafe(program, w);
    case Cascade(m) => CascadeIsSafe(program, w, m);
    case _ =>
  }

  lemma RegisterIsSafe(program: seq<P.Task>, w: World)
    requires OrderKept(program, w) && Can(program, w, Register)
    ensures MayAdvance(w.sys.books, w.sys.claims[|w.sys.claims| - 1])
    ensures NextIsPermitted(w.sys.books, JobOf(w.sys.claims[|w.sys.claims| - 1]))
  {
    hide MayAdvance, NextIsPermitted, WiredSoFar, Conserved, ClaimsOk, ReleasesOk, StartsOk, InfosOk;
    RegisterIsAccepted(program, w);
    OperationIsPermitted(w.sys, Advance(|w.sys.claims| - 1));
  }

  lemma ReleaseIsSafe(program: seq<P.Task>, w: World, i: nat)
    requires OrderKept(program, w) && Can(program, w, Release(i))
    ensures NextIsPermitted(w.sys.books, JobOf(w.sys.claims[i]))
  {
    hide MayAdvance, NextIsPermitted, WiredSoFar, Conserved, ClaimsOk, ReleasesOk, StartsOk, InfosOk;
    ReleaseIsAccepted(program, w, i);
    OperationIsPermitted(w.sys, Advance(i));
  }

  lemma AssembleIsSafe(program: seq<P.Task>, w: World)
    requires OrderKept(program, w) && Can(program, w, Happening.Assemble)
    ensures NextIsPermitted(w.sys.books, w.sys.setups[|w.sys.setups| - 1])
  {
    hide NextIsPermitted, WiredSoFar, Conserved, ClaimsOk, ReleasesOk, StartsOk, InfosOk;
    OperationIsPermitted(w.sys, Event.Assemble(|w.sys.setups| - 1));
  }

  lemma CascadeIsSafe(program: seq<P.Task>, w: World, m: CounterNet.Move)
    requires OrderKept(program, w) && Can(program, w, Cascade(m))
    ensures CanApply(w.sys.books.state, m)
    ensures m.Do? ==> !w.sys.books.state.net[m.action.target].triggered
  {
    hide WiredSoFar, Consistent, SetupOk, ClaimsOk, ReleasesOk, StartsOk, InfosOk;
    MoveConserves(w.sys.books.state, m, true);
  }

  /** No assertion of the source fails on the next operation of this thread. */
  predicate NextIsPermitted(b: Books, j: Job) {
    j.todo != [] ==> Permitted(b, OpOf(j.todo[0], j.mine))
  }

  lemma OperationIsPermitted(s: System, e: Event)
    requires Conserved(s) && Obeys(s, e) && (e.Advance? || e.Assemble?)
    ensures NextIsPermitted(s.books, if e.Advance? then JobOf(s.claims[e.claim]) else s.setups[e.setup])
  {
    NextOperationIsPermitted(s, e);
  }

  /** Pending operations, in every run, wherever other threads step in while it is set up: a
      task that has been submitted is launched exactly once, by one launch that is attached or
      waiting in a queue until a worker takes it, and that is not there before; when it can be
      taken everything the task waits for has triggered. */
  lemma LaunchedExactlyOnce(program: seq<P.Task>, start: P.Memory, events: seq<Happening>, t: nat)
    requires P.WellBehaved(program) && AllCan(program, Idle(program, start), events)
    ensures var w := Outcome(program, Idle(program, start), events);
      && Launches(w.sys.books.state, t) == (if Pending(program, w, t) then 1 else 0)
      && (Launch(t) in w.sys.books.state.work ==> IsSetUp(w, t) && TriggersFired(w, t))
      && (t < |w.exec.status| && w.exec.status[t] != P.Waiting ==> IsSetUp(w, t) && TriggersFired(w, t))
  {
    hide Outcome, AllCan, P.Faithful, TriggersFired, LaunchAt, AttachedAt, SetupsOk, Launches, Ordered, InfosOk;
    hide ClaimsOk, ReleasesOk;
    IdleIsInvariant(program, start);
    RunKeepsInvariant(program, start, Idle(program, start), events);
  }
}
