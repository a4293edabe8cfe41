/**
  In which order flows become ready, over whole runs of any number of threads: chains of
  aliasing uses, and the flows that a collection and its indices share.
  */
module FlowOrder {
  import opened CounterNet
  import opened Options
  import opened Scripts
  import opened UseHistories
  import opened UseProtocol
  import opened Waiting

  // ---------------------------------------------------------------- what a script has wired up

  /** Everything hooked onto a counter so far is waited for. */
  predicate HooksHold(s: State, done: seq<Instr>, mine: Option<Id>) {
    && (forall i :: 0 <= i < |done| && done[i].Hook? ==>
          Waits(s, Resolve(done[i].target, mine), Resolve(done[i].on, mine)))
    && (mine == None ==> forall i :: 0 <= i < |done| ==> !done[i].Hook?)
  }

  function DoneOf(j: Job, script: Job): seq<Instr> {
    if |j.todo| <= |script.todo| then script.todo[..|script.todo| - |j.todo|] else []
  }

  lemma HooksStillHold(s: State, t: State, done: seq<Instr>, mine: Option<Id>)
    requires HooksHold(s, done, mine) && Keeps(s, t)
    ensures HooksHold(t, done, mine)
  {
    hide Waits;
  }

  /** One more operation, one more hook that holds. */
  lemma StepHooks(b: Books, j: Job, script: Job)
    requires Balanced(b) && JobOk(b, j) && j.todo != [] && Underway(j, script)
    requires HooksHold(b.state, DoneOf(j, script), j.mine)
    ensures var t, j' := StepBooks(b, j), Stepped(j, |b.held|);
      Keeps(b.state, t.state) && HooksHold(t.state, DoneOf(j', script), j'.mine)
  {
    var i, t, j' := j.todo[0], StepBooks(b, j), Stepped(j, |b.held|);
    var done := DoneOf(j, script);
    assert DoneOf(j', script) == done + [i];
    assert InstrInRange(b, i);
    SameSize(b);
    ThenKeeps(b, OpOf(i, j.mine), false);
    hide Balanced, Keeps, Waits, StepBooks;
    HooksStillHold(b.state, t.state, done, j.mine);
    match i
    case Hook(on, target, deferred) =>
      var d := Resolve(target, j.mine);
      AttachWaits(b, Resolve(on, j.mine), d, if deferred then Alias(d) else Decrement(d), false);
      HookIsThen(b, j);
    case _ =>
  }

  lemma HookIsThen(b: Books, j: Job)
    requires j.todo != [] && j.todo[0].Hook?
    ensures StepBooks(b, j) == Then(b, OpOf(j.todo[0], j.mine), false)
  {
  }

  // ---------------------------------------------------------------- an invariant of every history

  /** Between `source` and `target` there is the counter of an operation that waits for
      `source` and will decrement `target`. */
  ghost predicate Linked(s: State, source: Id, target: Id) {
    exists p: Id :: p < |s.net| && Waits(s, p, source) && Waits(s, target, p)
  }

  lemma LinkedIsKept(s: State, t: State, source: Id, target: Id)
    requires Keeps(s, t) && |s.net| <= |t.net| && Linked(s, source, target)
    ensures Linked(t, source, target)
  {
  }

  lemma LinkedInOrder(s: State, source: Id, target: Id)
    requires Safe(s) && Linked(s, source, target) && target < |s.net|
    ensures s.net[target].count == 0 || s.net[target].triggered ==> s.net[source].triggered
  {
    var p: Id :| p < |s.net| && Waits(s, p, source) && Waits(s, target, p);
    WaitsInOrder(s, target, p);
    WaitsInOrder(s, p, source);
  }

  /** Once an alias is handled its pending operation stands between source and target. */
  lemma LinkScriptLinks(s: State, j: Job, source: Id, target: Id)
    requires HooksHold(s, LinkScript(source, target).todo, j.mine) && (j.mine.Some? ==> j.mine.value < |s.net|)
    ensures Linked(s, source, target)
  {
    var todo := LinkScript(source, target).todo;
    assert DependScript([source]) == [Lift(Mine), Hook(Of(source), Mine, false)] by {
      assert [source][1..] == [];
    }
    assert todo[3] == Hook(Of(source), Mine, false) && todo[5] == Hook(Mine, Of(target), true);
    assert Waits(s, j.mine.value, source) && Waits(s, target, j.mine.value);
  }

  predicate WaitsFor(s: State, later: Option<Id>, earlier: Option<Id>) {
    later.Some? && earlier.Some? && Waits(s, later.value, earlier.value)
  }

  ghost predicate LinkedFlows(s: State, earlier: Option<Id>, later: Option<Id>) {
    earlier.Some? && later.Some? && Linked(s, earlier.value, later.value)
  }

  /** The counter that the in-flow must follow: the related flow, or what was published. */
  function Source(rel: Relationship): Option<Id> {
    match rel.kind
    case Next | IndexedLocal => rel.Named()
    case IndexedFetching(published) => Some(published)
    case _ => None
  }

  predicate Follows(rel: Relationship) {
    rel.kind == Next || rel.kind == IndexedLocal || rel.kind.IndexedFetching?
  }

  /** What the rest of a script is about exists. */
  predicate Pointed(k: Claim) {
    var r, u := k.request, k.use;
    match k.stage
    case Unregistered => Follows(r.inRel) ==> Source(r.inRel).Some?
    case HasAntiIn => r.outRel.kind == IndexedLocal ==> Related(r.outRel, u.inFlow).Some?
    case HasOut => r.antiOutRel.kind == IndexedLocal ==> Related(r.antiOutRel, u.antiInFlow).Some?
    case Held => u.aliases ==> u.inFlow.Some? && u.outFlow.Some?
    case InLinked => u.aliases && u.antiInFlow.Some? ==> u.antiOutFlow.Some?
    case _ => true
  }

  /** The order that the relationships of a use promise. */
  ghost predicate Wired(s: State, k: Claim) {
    var r, u, n := k.request, k.use, Reached(k.stage);
    && (n >= 1 && Follows(r.inRel) ==> WaitsFor(s, u.inFlow, Source(r.inRel)))
    && (n >= 2 && r.antiInRel.kind == IndexedLocal && r.antiInRel.Named().Some? ==>
          WaitsFor(s, u.antiInFlow, r.antiInRel.Named()))
    && (n >= 3 && r.outRel.kind == IndexedLocal ==> WaitsFor(s, Related(r.outRel, u.inFlow), u.outFlow))
    && (n >= 4 && r.antiOutRel.kind == IndexedLocal ==>
          WaitsFor(s, Related(r.antiOutRel, u.antiInFlow), u.antiOutFlow))
    && (n >= 5 && u.aliases ==> LinkedFlows(s, u.inFlow, u.outFlow))
    && (n >= 6 && u.aliases && u.antiInFlow.Some? ==> LinkedFlows(s, u.antiOutFlow, u.antiInFlow))
  }

  /** Uses that share a flow with others have that very flow. */
  predicate SharesFlows(k: Claim) {
    var r, u, n := k.request, k.use, Reached(k.stage);
    && (n >= 1 && r.inRel.kind in {Same, Forwarding} ==> u.inFlow == r.inRel.Named())
    && (n >= 2 && r.antiInRel.kind == Same ==> u.antiInFlow == r.antiInRel.Named())
    && (n >= 3 && r.outRel.kind == Same ==> u.outFlow == Related(r.outRel, u.inFlow))
    && (n >= 4 && r.antiOutRel.kind == Same ==> u.antiOutFlow == Related(r.antiOutRel, u.antiInFlow))
  }

  /** And what the script under way has wired up so far. */
  ghost predicate WiredSoFar(s: State, k: Claim) {
    Wired(s, k) && (k.job.todo != [] ==> Pointed(k) && HooksHold(s, DoneOf(k.job, Script(k)), k.job.mine))
  }

  lemma WiredIsKept(s: State, t: State, k: Claim)
    requires Keeps(s, t) && |s.net| <= |t.net| && Wired(s, k)
    ensures Wired(t, k)
  {
    hide Linked, Waits;
    if LinkedFlows(s, k.use.inFlow, k.use.outFlow) {
      LinkedIsKept(s, t, k.use.inFlow.value, k.use.outFlow.value);
    }
    if LinkedFlows(s, k.use.antiOutFlow, k.use.antiInFlow) {
      LinkedIsKept(s, t, k.use.antiOutFlow.value, k.use.antiInFlow.value);
    }
  }

  lemma WiredSoFarIsKept(s: State, t: State, k: Claim)
    requires Keeps(s, t) && |s.net| <= |t.net| && WiredSoFar(s, k)
    ensures WiredSoFar(t, k)
  {
    hide Wired, Keeps, HooksHold, Script, DoneOf;
    WiredIsKept(s, t, k);
    if k.job.todo != [] {
      HooksStillHold(s, t, DoneOf(k.job, Script(k)), k.job.mine);
    }
  }

  /** A script that is done has wired up what its stage promises. */
  lemma CompletionWires(b: Books, s: State, k: Claim)
    requires Working(b, k) && k.job.todo == [] && Pointed(k) && |b.held| == |s.net|
    requires Wired(s, k) && HooksHold(s, Script(k).todo, k.job.mine)
    ensures Wired(s, Completed(k))
  {
    var u := k.use;
    hide WaitsFor, LinkedFlows, LinkScript, HooksHold, JobOk, FlowsInRange, Suits, Script;
    match k.stage
    case Unregistered => InScriptWires(s, k);
    case HasIn => AntiInScriptWires(s, k);
    case HasAntiIn => OutScriptWires(s, k);
    case HasOut => AntiOutScriptWires(s, k);
    case Held => LinkScriptWires(b, s, k);
    case InLinked => LinkScriptWires(b, s, k);
    case _ =>
  }

  lemma InScriptWires(s: State, k: Claim)
    requires k.stage == Unregistered && Underway(k.job, Script(k)) && HooksHold(s, Script(k).todo, k.job.mine)
    ensures Follows(k.request.inRel) && Source(k.request.inRel).Some? ==>
        WaitsFor(s, ResultOf(k.job), Source(k.request.inRel))
  {
    hide Waits;
    if Follows(k.request.inRel) {
      assert Script(k).todo[1].Hook?;
    }
  }

  lemma AntiInScriptWires(s: State, k: Claim)
    requires k.stage == HasIn && Underway(k.job, Script(k)) && HooksHold(s, Script(k).todo, k.job.mine)
    ensures k.request.antiInRel.kind == IndexedLocal && k.request.antiInRel.Named().Some? ==>
        WaitsFor(s, ResultOf(k.job), k.request.antiInRel.Named())
  {
    hide Waits;
    if k.request.antiInRel.kind == IndexedLocal && k.request.antiInRel.Named().Some? {
      assert Script(k).todo[1].Hook?;
    }
  }

  lemma OutScriptWires(s: State, k: Claim)
    requires k.stage == HasAntiIn && Underway(k.job, Script(k)) && HooksHold(s, Script(k).todo, k.job.mine)
    ensures k.request.outRel.kind == IndexedLocal && Related(k.request.outRel, k.use.inFlow).Some? ==>
        WaitsFor(s, Related(k.request.outRel, k.use.inFlow), ResultOf(k.job))
  {
    hide Waits;
    if k.request.outRel.kind == IndexedLocal {
      assert Script(k).todo[2].Hook?;
    }
  }

  lemma AntiOutScriptWires(s: State, k: Claim)
    requires k.stage == HasOut && Underway(k.job, Script(k)) && HooksHold(s, Script(k).todo, k.job.mine)
    ensures k.request.antiOutRel.kind == IndexedLocal && Related(k.request.antiOutRel, k.use.antiInFlow).Some? ==>
        WaitsFor(s, Related(k.request.antiOutRel, k.use.antiInFlow), ResultOf(k.job))
  {
    hide Waits;
    if k.request.antiOutRel.kind == IndexedLocal {
      assert Script(k).todo[2].Hook?;
    }
  }

  lemma LinkScriptWires(b: Books, s: State, k: Claim)
    requires k.stage == Stage.Held || k.stage == InLinked
    requires Working(b, k) && Pointed(k) && |b.held| == |s.net| && HooksHold(s, Script(k).todo, k.job.mine)
    ensures k.stage == Stage.Held && k.use.aliases ==> LinkedFlows(s, k.use.inFlow, k.use.outFlow)
    ensures k.stage == InLinked && k.use.aliases && k.use.antiInFlow.Some? ==>
        LinkedFlows(s, k.use.antiOutFlow, k.use.antiInFlow)
  {
    hide Linked, Waits, LinkScript, HooksHold, Sound, Makes;
    var u := k.use;
    if k.stage == Stage.Held && u.aliases {
      LinkScriptLinks(s, k.job, u.inFlow.value, u.outFlow.value);
    } else if u.aliases && u.antiInFlow.Some? {
      LinkScriptLinks(s, k.job, u.antiOutFlow.value, u.antiInFlow.value);
    }
  }

  ghost predicate Ordered(s: System) {
    && Conserved(s)
    && (forall i :: 0 <= i < |s.claims| ==> WiredSoFar(s.books.state, s.claims[i]))
    && (forall i :: 0 <= i < |s.claims| ==> SharesFlows(s.claims[i]))
  }

  /** What a claim is about to do, or in the middle of. */
  lemma WorkIsWired(b: Books, k: Claim)
    requires Consistent(b, k) && MayAdvance(b, k) && WiredSoFar(b.state, k)
    ensures var w := k.(job := JobOf(k));
      && Wired(b.state, w) && Pointed(w) && HooksHold(b.state, DoneOf(w.job, Script(k)), w.job.mine)
  {
    hide Waits, Linked, JobOk, Suits;
  }

  lemma TidiedIsWired(b: Books, s: State, k: Claim)
    requires Working(b, k) && |b.held| == |s.net|
    requires Wired(s, k) && Pointed(k) && HooksHold(s, DoneOf(k.job, Script(k)), k.job.mine)
    ensures WiredSoFar(s, Tidied(k))
  {
    hide Working, Wired, Pointed, HooksHold, Script;
    if k.job.todo == [] {
      assert DoneOf(k.job, Script(k)) == Script(k).todo;
      CompletionWires(b, s, k);
    }
  }

  lemma StepIsWired(b: Books, k: Claim)
    requires Balanced(b) && Working(b, k) && k.job.todo != [] && MayStep(b, k.job) && Backed(b, k.job)
    requires Wired(b.state, k) && Pointed(k) && HooksHold(b.state, DoneOf(k.job, Script(k)), k.job.mine)
    ensures var t, k' := StepBooks(b, k.job), k.(job := Stepped(k.job, |b.held|));
      && Balanced(t) && Working(t, k') && Keeps(b.state, t.state) && Script(k') == Script(k)
      && Wired(t.state, k') && Pointed(k') && HooksHold(t.state, DoneOf(k'.job, Script(k)), k'.job.mine)
  {
    hide Balanced, Linked, Waits, HooksHold, Keeps, StepBooks, MayStep, Backed;
    var t, k' := StepBooks(b, k.job), k.(job := Stepped(k.job, |b.held|));
    StepHooks(b, k.job, Script(k));
    StepsOnward(b, k);
    SameSize(b);
    SameSize(t);
    ScriptOfStage(k, k'.job);
    WiredIsKept(b.state, t.state, k);
  }

  lemma NextIsWired(b: Books, k: Claim)
    requires Balanced(b) && Consistent(b, k) && Covers(b, k) && MayAdvance(b, k) && WiredSoFar(b.state, k)
    ensures var t := StepBooks(b, JobOf(k));
      Balanced(t) && Keeps(b.state, t.state) && WiredSoFar(t.state, NextClaim(k, |b.held|))
  {
    var j := JobOf(k);
    var w := k.(job := j);
    BeginsWork(b, k);
    WorkIsWired(b, k);
    SameSize(b);
    hide Balanced, Consistent, Covers, MayAdvance, WiredSoFar, Working, Wired, Pointed, HooksHold, Keeps, StepBooks;
    if j.todo == [] {
      StepsNowhere(b, j);
      KeepsItself(b.state);
      TidiedIsWired(b, b.state, w);
    } else {
      StepIsWired(b, w);
      SameSize(StepBooks(b, j));
      TidiedIsWired(StepBooks(b, j), StepBooks(b, j).state, w.(job := Stepped(j, |b.held|)));
    }
  }

  /** The script of a shared flow arrives at it, whatever counter it made. */
  lemma ScriptShares(k: Claim, mine: Option<Id>)
    ensures var flow := ResultOf(Script(k).(mine := mine)); var r, u := k.request, k.use;
      && (k.stage == Unregistered && r.inRel.kind in {Same, Forwarding} ==> flow == r.inRel.Named())
      && (k.stage == HasIn && r.antiInRel.kind == Same ==> flow == r.antiInRel.Named())
      && (k.stage == HasAntiIn && r.outRel.kind == Same ==> flow == Related(r.outRel, u.inFlow))
      && (k.stage == HasOut && r.antiOutRel.kind == Same ==> flow == Related(r.antiOutRel, u.antiInFlow))
  {
  }

  lemma NextShares(b: Books, k: Claim, made: Id)
    requires Consistent(b, k) && SharesFlows(k)
    ensures SharesFlows(NextClaim(k, made))
  {
    var j := Stepped(JobOf(k), made);
    ScriptShares(k, j.mine);
    assert ResultOf(j) == ResultOf(Script(k).(mine := j.mine)) by {
      hide JobOk, NoLifts, Suits, FlowsInRange, Staged, Script;
    }
    hide Consistent, JobOf, Script, ResultOf;
  }

  /** Claims that nobody works on stay wired while the network moves on. */
  lemma OthersStayWired(s: System, t: Books)
    requires Ordered(s) && Balanced(t) && |s.books.held| <= |t.held| && Keeps(s.books.state, t.state)
    ensures forall i :: 0 <= i < |s.claims| ==> WiredSoFar(t.state, s.claims[i])
  {
    SameSize(s.books);
    SameSize(t);
    hide Balanced, WiredSoFar, Keeps, Conserved;
    forall i | 0 <= i < |s.claims| ensures WiredSoFar(t.state, s.claims[i]) {
      WiredSoFarIsKept(s.books.state, t.state, s.claims[i]);
    }
  }

  lemma EventKeepsOrder(s: System, e: Event)
    requires Ordered(s) && Obeys(s, e)
    ensures Ordered(After(s, e)) && Keeps(s.books.state, After(s, e).books.state)
    ensures |s.books.held| <= |After(s, e).books.held|
  {
    var t := After(s, e);
    EventConserves(s, e);
    KeepsItself(s.books.state);
    match e
    case Advance(i) => AdvanceKeepsOrder(s, i);
    case Assemble(i) =>
      StepKeeps(s.books, s.setups[i]);
      hide WiredSoFar, Consistent, SetupOk, Balanced, Keeps, StepBooks;
      OthersStayWired(s, t.books);
    case Move(m) =>
      MoveBalances(s.books, m);
      OpKeeps(s.books.state, Step(m));
      hide WiredSoFar, Consistent, SetupOk, Balanced, Keeps;
      OthersStayWired(s, t.books);
    case _ =>
  }

  lemma StepKeeps(b: Books, j: Job)
    ensures Keeps(b.state, StepBooks(b, j).state)
  {
    hide Keeps;
    KeepsItself(b.state);
    if j.todo != [] {
      ThenKeeps(b, OpOf(j.todo[0], j.mine), false);
    }
  }

  lemma AdvanceKeepsOrder(s: System, i: nat)
    requires Ordered(s) && Obeys(s, Advance(i)) && Conserved(After(s, Advance(i)))
    requires |s.books.held| <= |After(s, Advance(i)).books.held|
    ensures Ordered(After(s, Advance(i))) && Keeps(s.books.state, After(s, Advance(i)).books.state)
  {
    ClaimIsCovered(s, i);
    hide Consistent, SetupOk, Balanced, Covers, MayAdvance, WiredSoFar, Keeps, StepBooks, NextClaim, JobOf;
    NextIsWired(s.books, s.claims[i]);
    NextShares(s.books, s.claims[i], |s.books.held|);
    OthersStayWired(s, After(s, Advance(i)).books);
  }

  lemma {:induction false} HistoryKeepsOrder(s: System, events: seq<Event>)
    requires Ordered(s) && AllObey(s, events)
    ensures Ordered(Final(s, events))
    decreases |events|
  {
    hide Ordered, Obeys, After;
    if events != [] {
      EventKeepsOrder(s, events[0]);
      HistoryKeepsOrder(After(s, events[0]), events[1..]);
    }
  }

  // ---------------------------------------------------------------- what becomes ready after what

  predicate Triggered(s: State, flow: Option<Id>) {
    flow.Some? && Fired(s, flow.value)
  }

  lemma WaitsForInOrder(s: State, later: Option<Id>, earlier: Option<Id>)
    requires Safe(s) && WaitsFor(s, later, earlier)
    ensures Triggered(s, later) ==> Triggered(s, earlier)
  {
    if Triggered(s, later) {
      WaitsInOrder(s, later.value, earlier.value);
    }
  }

  lemma LinkedFlowsInOrder(s: State, earlier: Option<Id>, later: Option<Id>)
    requires Safe(s) && LinkedFlows(s, earlier, later)
    ensures Triggered(s, later) ==> Triggered(s, earlier)
  {
    if Triggered(s, later) {
      LinkedInOrder(s, earlier.value, later.value);
    }
  }

  /** A flow is not ready while some use that would make it ready is unreleased. */
  lemma UnreleasedHoldsBack(s: System, i: nat, c: Id)
    requires Conserved(s) && i < |s.claims| && Owes(s.claims[i], c) > 0 && c < |s.books.held|
    ensures !s.books.state.net[c].triggered
  {
    OwedByAtLeast(s.claims, i, c);
    HeldIsLive(s.books, c);
  }

  /** An out-flow or anti-out-flow is ready only when its use has let go of it. */
  lemma ReadyMeansReleased(s: System, i: nat)
    requires Ordered(s) && i < |s.claims|
    ensures var k := s.claims[i];
      && (Triggered(s.books.state, k.use.outFlow) ==> k.stage in {LeftOut, Released})
      && (Triggered(s.books.state, k.use.antiOutFlow) ==> k.stage == Released)
  {
    var k := s.claims[i];
    if Triggered(s.books.state, k.use.outFlow) && Owes(k, k.use.outFlow.value) > 0 {
      UnreleasedHoldsBack(s, i, k.use.outFlow.value);
    }
    if Triggered(s.books.state, k.use.antiOutFlow) && Owes(k, k.use.antiOutFlow.value) > 0 {
      UnreleasedHoldsBack(s, i, k.use.antiOutFlow.value);
    }
  }

  /** Collections.  In every history, for every use of one index: its in-flow (like that of a
      use that follows another flow, that of a fetch, which follows what was published, and like
      its anti-in-flow) is ready only if the collection's is; and the collection's out-flow
      (anti-out-flow) is ready only if the index's is, hence only if that use has let go of it. */
  lemma CollectionFansOutAndIn(events: seq<Event>, i: nat)
    requires AllObey(INITIAL, events) && i < |Final(INITIAL, events).claims|
    ensures var t := Final(INITIAL, events); var s, k := t.books.state, t.claims[i];
      && (Follows(k.request.inRel) && Triggered(s, k.use.inFlow) ==> Triggered(s, Source(k.request.inRel)))
      && (k.request.antiInRel.kind == IndexedLocal && k.request.antiInRel.Named().Some? &&
          Triggered(s, k.use.antiInFlow) ==>
            Triggered(s, k.request.antiInRel.Named()))
      && (k.request.outRel.kind == IndexedLocal && Reached(k.stage) >= 3 &&
          Triggered(s, Related(k.request.outRel, k.use.inFlow)) ==>
            Triggered(s, k.use.outFlow) && k.stage in {LeftOut, Released})
      && (k.request.antiOutRel.kind == IndexedLocal && Reached(k.stage) >= 4 &&
          Triggered(s, Related(k.request.antiOutRel, k.use.antiInFlow)) ==>
            Triggered(s, k.use.antiOutFlow) && k.stage == Released)
  {
    hide AllObey, Final, Waits, WaitsFor, Owes, Safe;
    InitialOrder();
    HistoryKeepsOrder(INITIAL, events);
    var t := Final(INITIAL, events);
    var s, k := t.books.state, t.claims[i];
    assert Wired(s, k);
    ReadyMeansReleased(t, i);
    if WaitsFor(s, k.use.inFlow, Source(k.request.inRel)) {
      WaitsForInOrder(s, k.use.inFlow, Source(k.request.inRel));
    }
    if WaitsFor(s, k.use.antiInFlow, k.request.antiInRel.Named()) {
      WaitsForInOrder(s, k.use.antiInFlow, k.request.antiInRel.Named());
    }
    if WaitsFor(s, Related(k.request.outRel, k.use.inFlow), k.use.outFlow) {
      WaitsForInOrder(s, Related(k.request.outRel, k.use.inFlow), k.use.outFlow);
    }
    if WaitsFor(s, Related(k.request.antiOutRel, k.use.antiInFlow), k.use.antiOutFlow) {
      WaitsForInOrder(s, Related(k.request.antiOutRel, k.use.antiInFlow), k.use.antiOutFlow);
    }
  }

  /** Shared flows.  In every history, for every use: in-flow and anti-in-flow of a use that
      starts from what another made are the flows it was pointed to; so are the out-flow and the
      anti-out-flow of a use that adds to another's, and those are not ready before this use has
      let go of them. */
  lemma SharedFlowsWaitForAll(events: seq<Event>, i: nat)
    requires AllObey(INITIAL, events) && i < |Final(INITIAL, events).claims|
    ensures var t := Final(INITIAL, events); var s, k := t.books.state, t.claims[i];
      var r, u, n := k.request, k.use, Reached(k.stage);
      && (n >= 1 && r.inRel.kind in {Same, Forwarding} ==> u.inFlow == r.inRel.Named())
      && (n >= 2 && r.antiInRel.kind == Same ==> u.antiInFlow == r.antiInRel.Named())
      && (n >= 3 && r.outRel.kind == Same ==>
            && u.outFlow == Related(r.outRel, u.inFlow)
            && (Triggered(s, Related(r.outRel, u.inFlow)) ==> k.stage in {LeftOut, Released}))
      && (n >= 4 && r.antiOutRel.kind == Same ==>
            && u.antiOutFlow == Related(r.antiOutRel, u.antiInFlow)
            && (Triggered(s, Related(r.antiOutRel, u.antiInFlow)) ==> k.stage == Released))
  {
    hide AllObey, Final, Conserved, WiredSoFar;
    InitialOrder();
    HistoryKeepsOrder(INITIAL, events);
    ReadyMeansReleased(Final(INITIAL, events), i);
    assert SharesFlows(Final(INITIAL, events).claims[i]);
  }

  /** Uses that establish aliases, each reading what the one before makes available. */
  predicate AliasChain(s: System, chain: seq<nat>) {
    && chain != []
    && (forall j :: 0 <= j < |chain| ==> chain[j] < |s.claims| && s.claims[chain[j]].use.aliases)
    && (forall j :: 0 <= j < |chain| - 1 ==>
          && s.claims[chain[j]].use.outFlow == s.claims[chain[j + 1]].use.inFlow
          && s.claims[chain[j + 1]].use.antiInFlow == s.claims[chain[j]].use.antiOutFlow)
  }

  lemma LinkInOrder(s: System, i: nat)
    requires Ordered(s) && i < |s.claims| && s.claims[i].use.aliases
    ensures var k := s.claims[i];
      && (Triggered(s.books.state, k.use.outFlow) ==>
            k.stage in {LeftOut, Released} && Triggered(s.books.state, k.use.inFlow))
      && (Triggered(s.books.state, k.use.antiInFlow) && Reached(k.stage) >= 6 ==>
            k.stage == Released && Triggered(s.books.state, k.use.antiOutFlow))
  {
    hide Safe, Linked;
    ReadyMeansReleased(s, i);
    var k := s.claims[i];
    assert Wired(s.books.state, k) && Consistent(s.books, k);
    if Reached(k.stage) >= 6 {
      LinkedFlowsInOrder(s.books.state, k.use.inFlow, k.use.outFlow);
      if k.use.antiInFlow.Some? {
        LinkedFlowsInOrder(s.books.state, k.use.antiOutFlow, k.use.antiInFlow);
      }
    }
  }

  /** Alias chains of any length: the last out-flow is ready only if every use of the
      chain is released and the first in-flow is ready. */
  lemma {:induction false} AliasChainForward(s: System, chain: seq<nat>)
    requires Ordered(s) && AliasChain(s, chain)
    requires Triggered(s.books.state, s.claims[chain[|chain| - 1]].use.outFlow)
    ensures Triggered(s.books.state, s.claims[chain[0]].use.inFlow)
    ensures forall j :: 0 <= j < |chain| ==> s.claims[chain[j]].stage in {LeftOut, Released}
    decreases |chain|
  {
    hide Ordered;
    var n := |chain| - 1;
    LinkInOrder(s, chain[n]);
    if n > 0 {
      AliasChainForward(s, chain[..n]);
      forall j | 0 <= j < |chain| ensures s.claims[chain[j]].stage in {LeftOut, Released} {
        assert j < n ==> s.claims[chain[..n][j]].stage in {LeftOut, Released};
      }
    }
  }

  /** Dually for the anti-flows, from the last use back to the first: once all uses of
      the chain have been told to release, the first anti-in-flow is ready only if the
      last anti-out-flow is. */
  lemma {:induction false} AliasChainBackward(s: System, chain: seq<nat>)
    requires Ordered(s) && AliasChain(s, chain)
    requires forall j :: 0 <= j < |chain| ==> Reached(s.claims[chain[j]].stage) >= 6
    requires Triggered(s.books.state, s.claims[chain[0]].use.antiInFlow)
    ensures Triggered(s.books.state, s.claims[chain[|chain| - 1]].use.antiOutFlow)
    ensures forall j :: 0 <= j < |chain| ==> s.claims[chain[j]].stage == Released
    decreases |chain|
  {
    hide Ordered;
    LinkInOrder(s, chain[0]);
    if |chain| > 1 {
      AliasChainBackward(s, chain[1..]);
      forall j | 0 <= j < |chain| ensures s.claims[chain[j]].stage == Released {
        assert j > 0 ==> s.claims[chain[1..][j - 1]].stage == Released;
      }
    }
  }

  lemma AliasChainsInHistories(events: seq<Event>, chain: seq<nat>)
    requires AllObey(INITIAL, events) && AliasChain(Final(INITIAL, events), chain)
    ensures var t := Final(INITIAL, events); var s, first, last := t.books.state, t.claims[chain[0]],
        t.claims[chain[|chain| - 1]];
      && (Triggered(s, last.use.outFlow) ==>
            && Triggered(s, first.use.inFlow)
            && forall j :: 0 <= j < |chain| ==> t.claims[chain[j]].stage in {LeftOut, Released})
      && (Triggered(s, first.use.antiInFlow) && (forall j :: 0 <= j < |chain| ==>
          Reached(t.claims[chain[j]].stage) >= 6) ==>
            && Triggered(s, last.use.antiOutFlow)
            && forall j :: 0 <= j < |chain| ==> t.claims[chain[j]].stage == Released)
  {
    hide AllObey, Final, Ordered;
    InitialOrder();
    HistoryKeepsOrder(INITIAL, events);
    var t := Final(INITIAL, events);
    if Triggered(t.books.state, t.claims[chain[|chain| - 1]].use.outFlow) {
      AliasChainForward(t, chain);
    }
    if Triggered(t.books.state, t.claims[chain[0]].use.antiInFlow) &&
       forall j :: 0 <= j < |chain| ==> Reached(t.claims[chain[j]].stage) >= 6 {
      AliasChainBackward(t, chain);
    }
  }

  lemma InitialOrder()
    ensures Ordered(INITIAL)
  {
  }
}
