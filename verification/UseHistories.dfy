/**
  Whole runs: any number of threads registering and releasing uses and submitting tasks, one
  counter operation at a time, interleaved with one another and with the cascades of all of
  them.
  */
module UseHistories {
  import opened CounterNet
  import opened Options
  import opened Scripts
  import opened UseProtocol

  /** Where a use has got to.  Registration works out its flows one after the other; then
      the use is held; then release handles its alias and lets go of its flows. */
  datatype Stage =
    Unregistered | HasIn | HasAntiIn | HasOut | Held | InLinked | Aliased | LeftAntiIn | LeftOut | Released

  /** `job` is what its thread still has to do on the way to the next stage. */
  datatype Claim = Claim(request: Request, use: Use, stage: Stage, job: Job)

  /** `setups` are the pending operations of submitted tasks, finished or under construction. */
  datatype System = System(books: Books, claims: seq<Claim>, setups: seq<Job>)

  function Following(stage: Stage): Stage {
    match stage
    case Unregistered => HasIn
    case HasIn => HasAntiIn
    case HasAntiIn => HasOut
    case HasOut => Stage.Held
    case Held => InLinked
    case InLinked => Aliased
    case Aliased => LeftAntiIn
    case LeftAntiIn => LeftOut
    case LeftOut | Released => Released
  }

  function Reached(stage: Stage): nat {
    match stage
    case Unregistered => 0
    case HasIn => 1
    case HasAntiIn => 2
    case HasOut => 3
    case Held => 4
    case InLinked => 5
    case Aliased => 6
    case LeftAntiIn => 7
    case LeftOut => 8
    case Released => 9
  }

  /** What its thread does to get from this stage to the next. */
  function Script(k: Claim): Job {
    var r, u := k.request, k.use;
    match k.stage
    case Unregistered => InScript(r.inRel)
    case HasIn => AntiInScript(r.antiInRel, r.antiDependency)
    case HasAntiIn => OutScript(r.outRel, u.inFlow)
    case HasOut => AntiOutScript(r.antiOutRel, u.antiInFlow)
    case Held => if u.aliases then LinkScript(Target(u.inFlow), Target(u.outFlow)) else IDLE
    case InLinked =>
      if u.aliases && u.antiInFlow.Some? then LinkScript(Target(u.antiOutFlow), Target(u.antiInFlow)) else IDLE
    case Aliased => DropScript(AntiInToken(u))
    case LeftAntiIn => DropScript(u.outFlow)
    case LeftOut => DropScript(u.antiOutFlow)
    case Released => IDLE
  }

  /** The use with the flow its script arrived at: registration has one more. */
  function Arrived(k: Claim, flow: Option<Id>): Claim {
    var u := k.use;
    var use :=
      match k.stage
      case Unregistered => u.(inFlow := flow)
      case HasIn => u.(antiInFlow := flow)
      case HasAntiIn => u.(outFlow := flow)
      case HasOut => u.(antiOutFlow := flow)
      case _ => u;
    Claim(k.request, use, Following(k.stage), IDLE)
  }

  function Completed(k: Claim): Claim {
    Arrived(k, ResultOf(k.job))
  }

  function Tidied(k: Claim): Claim {
    if k.job.todo == [] then Completed(k) else k
  }

  /** What its thread is doing, or does next. */
  function JobOf(k: Claim): Job {
    if k.job.todo == [] then Script(k) else k.job
  }

  /** The use after its next counter operation; `made` is the counter that would be made. */
  function NextClaim(k: Claim, made: Id): Claim {
    Tidied(k.(job := Stepped(JobOf(k), made)))
  }

  // ---------------------------------------------------------------- who answers for what

  /** The obligations on `c` a use is answerable for at a stage. */
  function StageOwes(stage: Stage, u: Use, c: Id): nat {
    var antiIn, out, antiOut := One(AntiInToken(u), c), One(u.outFlow, c), One(u.antiOutFlow, c);
    match stage
    case Unregistered | HasIn | Released => 0
    case HasAntiIn => antiIn
    case HasOut => antiIn + out
    case Held | InLinked | Aliased => antiIn + out + antiOut
    case LeftAntiIn => out + antiOut
    case LeftOut => antiOut
  }

  /** On the way to the next stage, what is due there and what the rest of the way takes. */
  function Owes(k: Claim, c: Id): nat {
    if k.job.todo == [] then StageOwes(k.stage, k.use, c)
    else StageOwes(Following(k.stage), k.use, c) + JobOwes(k.job, c)
  }

  function OwedBy(claims: seq<Claim>, c: Id): nat {
    if claims == [] then 0 else OwedBy(claims[..|claims| - 1], c) + Owes(claims[|claims| - 1], c)
  }

  function OwedInSetups(setups: seq<Job>, c: Id): nat {
    if setups == [] then 0 else OwedInSetups(setups[..|setups| - 1], c) + JobOwes(setups[|setups| - 1], c)
  }

  /** A use may read, or write, once these counters have triggered: its in-flow, and its
      anti-in-flow if it is an anti-dependency. */
  predicate TriggerOf(k: Claim, c: Id) {
    k.use.inFlow == Some(c) || (k.use.antiDependency && k.use.antiInFlow == Some(c))
  }

  predicate AllAssembled(setups: seq<Job>) {
    forall i :: 0 <= i < |setups| ==> setups[i].todo == []
  }

  // ---------------------------------------------------------------- what can happen

  datatype Event =
    | Begin(request: Request)                    // a client asks for a use
    | Advance(claim: nat)                        // one more counter operation of its registration or release
    | Submit(triggers: seq<Id>, task: nat)       // a client submits a task
    | Assemble(setup: nat)                       // one more counter operation of its submission
    | Move(move: CounterNet.Move)                // a step of some cascade

  /** The demands on clients: relationships name flows that exist, and flows to be raised
      are held by somebody at that moment. */
  ghost predicate Obeys(s: System, e: Event) {
    match e
    case Begin(_) => true
    case Advance(i) => i < |s.claims| && MayAdvance(s.books, s.claims[i])
    case Submit(triggers, _) => AllKnown(s.books, triggers)
    case Assemble(i) => i < |s.setups| && s.setups[i].todo != []
    case Move(m) => Enabled(s.books.state, m, true)
  }

  /** Only the first operation of a script asks for anything. */
  predicate MayAdvance(b: Books, k: Claim) {
    var r, u := k.request, k.use;
    k.job.todo == [] ==>
      match k.stage
      case Unregistered => InOk(b, r.inRel)
      case HasIn => AntiInOk(b, r.antiInRel, r.antiDependency)
      case HasAntiIn => OutOk(b, r.outRel, u.inFlow)
      case HasOut => AntiOutOk(b, r.antiOutRel, u.antiInFlow)
      case Held => u.aliases ==> u.inFlow.Some? && u.outFlow.Some?
      case InLinked =>
        u.aliases && u.antiInFlow.Some? ==>
          u.antiOutFlow.Some? && (u.antiDependency ==> HeldBySomeone(b, u.antiInFlow))
      case Aliased | LeftAntiIn | LeftOut => true
      case Released => false
  }

  function Unstarted(r: Request): Claim {
    Claim(r, Use(None, None, None, None, r.antiDependency, r.aliases), Unregistered, IDLE)
  }

  ghost function After(s: System, e: Event): System {
    match e
    case Begin(r) => s.(claims := s.claims + [Unstarted(r)])
    case Advance(i) =>
      if i < |s.claims|
      then s.(books := StepBooks(s.books, JobOf(s.claims[i])),
              claims := s.claims[i := NextClaim(s.claims[i], |s.books.held|)])
      else s
    case Submit(triggers, task) => s.(setups := s.setups + [SubmitScript(triggers, task)])
    case Assemble(i) =>
      if i < |s.setups|
      then s.(books := StepBooks(s.books, s.setups[i]),
              setups := s.setups[i := Stepped(s.setups[i], |s.books.held|)])
      else s
    case Move(m) =>
      s.(books := if CanApply(s.books.state, m) then s.books.(state := Apply(s.books.state, m)) else s.books)
  }

  // ---------------------------------------------------------------- an invariant of every use

  predicate FlowsInRange(b: Books, u: Use) {
    InRange(b, u.inFlow) && InRange(b, u.antiInFlow) && InRange(b, u.outFlow) && InRange(b, u.antiOutFlow)
  }

  /** A use has no flow before registration has worked it out. */
  predicate Staged(k: Claim) {
    && (Reached(k.stage) < 1 ==> k.use.inFlow == None)
    && (Reached(k.stage) < 2 ==> k.use.antiInFlow == None)
    && (Reached(k.stage) < 3 ==> k.use.outFlow == None)
    && (Reached(k.stage) < 4 ==> k.use.antiOutFlow == None)
    && k.use.aliases == k.request.aliases && k.use.antiDependency == k.request.antiDependency
  }

  /** What is left is the end of the script, and the counter is made when that is done. */
  predicate Underway(j: Job, script: Job) {
    && |j.todo| <= |script.todo| && j.todo == script.todo[|script.todo| - |j.todo|..]
    && j.result == script.result && j.keeps == script.keeps && script.mine == None
    && (j.mine == None ==> forall k :: 0 <= k < |script.todo| - |j.todo| ==> !script.todo[k].Make?)
  }

  /** The script keeps what the use answers for afterwards. */
  predicate Suits(k: Claim) {
    match k.stage
    case HasIn => k.job.result.Some? ==> k.job.keeps == !k.use.antiDependency
    case HasAntiIn | HasOut => k.job.result.Some? ==> k.job.keeps
    case _ => !k.job.keeps
  }

  predicate Consistent(b: Books, k: Claim) {
    && FlowsInRange(b, k.use) && Staged(k)
    && if k.job.todo == [] then k.job == IDLE
       else
         && JobOk(b, k.job) && NoLifts(k.job.todo) && Underway(k.job, Script(k)) && Suits(k)
         && |k.job.todo| < |Script(k).todo|
  }

  predicate SetupOk(b: Books, j: Job) {
    JobOk(b, j) && NoLifts(j.todo) && !j.keeps
  }

  /** The uses and the submissions under way hold exactly what the ledger says.  With Balanced
      this is conservation: every count equals the unreleased out-flow and anti-out-flow
      holders, plus the unreleased anti-in-flow holders that are no anti-dependencies, plus
      what is held in the middle of a script, plus the decrements attached and in flight. */
  ghost predicate Conserved(s: System) {
    && Balanced(s.books)
    && (forall c :: 0 <= c < |s.books.held| ==> s.books.held[c] == OwedBy(s.claims, c) + OwedInSetups(s.setups, c))
    && (forall i :: 0 <= i < |s.claims| ==> Consistent(s.books, s.claims[i]))
    && (forall i :: 0 <= i < |s.setups| ==> SetupOk(s.books, s.setups[i]))
  }

  // ---------------------------------------------------------------- sums

  lemma {:induction false} OwedByUpdate(claims: seq<Claim>, i: nat, k: Claim, c: Id)
    requires i < |claims|
    ensures OwedBy(claims[i := k], c) + Owes(claims[i], c) == OwedBy(claims, c) + Owes(k, c)
  {
    var n := |claims| - 1;
    if i == n {
      assert claims[i := k][..n] == claims[..n];
    } else {
      OwedByUpdate(claims[..n], i, k, c);
      assert claims[i := k][..n] == claims[..n][i := k];
    }
  }

  lemma {:induction false} OwedInSetupsUpdate(setups: seq<Job>, i: nat, j: Job, c: Id)
    requires i < |setups|
    ensures OwedInSetups(setups[i := j], c) + JobOwes(setups[i], c) == OwedInSetups(setups, c) + JobOwes(j, c)
  {
    var n := |setups| - 1;
    if i == n {
      assert setups[i := j][..n] == setups[..n];
    } else {
      OwedInSetupsUpdate(setups[..n], i, j, c);
      assert setups[i := j][..n] == setups[..n][i := j];
    }
  }

  lemma JobOwesNothingBeyond(b: Books, j: Job, c: Id)
    requires c >= |b.held| && JobInRange(b, j)
    ensures JobOwes(j, c) == 0
  {
    NotNeeded(b, j.todo, Kept(j), c);
  }

  lemma OwesNothingBeyond(b: Books, k: Claim, c: Id)
    requires c >= |b.held| && Consistent(b, k)
    ensures Owes(k, c) == 0
  {
    hide Sound, NoLifts, Underway, Suits, JobOwes, Script;
    if k.job.todo != [] {
      JobOwesNothingBeyond(b, k.job, c);
    }
  }

  lemma {:induction false} NothingOwedBeyond(b: Books, claims: seq<Claim>, c: Id)
    requires c >= |b.held| && forall i :: 0 <= i < |claims| ==> Consistent(b, claims[i])
    ensures OwedBy(claims, c) == 0
  {
    hide Consistent, Owes;
    if claims != [] {
      NothingOwedBeyond(b, claims[..|claims| - 1], c);
      OwesNothingBeyond(b, claims[|claims| - 1], c);
    }
  }

  lemma {:induction false} NothingOwedInSetupsBeyond(b: Books, setups: seq<Job>, c: Id)
    requires c >= |b.held| && forall i :: 0 <= i < |setups| ==> SetupOk(b, setups[i])
    ensures OwedInSetups(setups, c) == 0
  {
    hide JobInRange, JobOwes, Sound, Makes;
    if setups != [] {
      assert SetupOk(b, setups[|setups| - 1]);
      NothingOwedInSetupsBeyond(b, setups[..|setups| - 1], c);
      JobOwesNothingBeyond(b, setups[|setups| - 1], c);
    }
  }

  lemma {:induction false} OwedByAtLeast(claims: seq<Claim>, i: nat, c: Id)
    requires i < |claims|
    ensures OwedBy(claims, c) >= Owes(claims[i], c)
  {
    if i < |claims| - 1 {
      OwedByAtLeast(claims[..|claims| - 1], i, c);
    }
  }

  lemma {:induction false} OwedInSetupsAtLeast(setups: seq<Job>, i: nat, c: Id)
    requires i < |setups|
    ensures OwedInSetups(setups, c) >= JobOwes(setups[i], c)
  {
    if i < |setups| - 1 {
      OwedInSetupsAtLeast(setups[..|setups| - 1], i, c);
    }
  }

  // ---------------------------------------------------------------- one counter operation of a use

  predicate Covers(b: Books, k: Claim) {
    forall c :: 0 <= c < |b.held| ==> b.held[c] >= Owes(k, c)
  }

  /** From books `b` to books `t` the ledger changed by what the use took on or gave back. */
  ghost predicate Accounts(b: Books, k: Claim, t: Books, k': Claim) {
    && Balanced(t) && |b.held| <= |t.held| && Consistent(t, k')
    && forall c :: 0 <= c < |t.held| ==> t.held[c] + Owes(k, c) == Entry(b.held, c) + Owes(k', c)
  }

  /** Every script can be begun where the client meets its demands, and owes what the next
      stage no longer does. */
  lemma ScriptBegins(b: Books, k: Claim)
    requires Balanced(b) && Consistent(b, k) && Covers(b, k) && k.job.todo == [] && MayAdvance(b, k)
    ensures exists gives ::
              Begins(b, Script(k), gives) &&
              forall c: Id :: StageOwes(k.stage, k.use, c) == StageOwes(Following(k.stage), k.use, c) + One(gives, c)
    ensures Suits(k.(job := Script(k)))
  {
    hide Balanced, Begins, Live, InOk, AntiInOk, OutOk, AntiOutOk, InScript, AntiInScript, OutScript, AntiOutScript;
    hide LinkScript, DropScript;
    var r, u, gives: Option<Id> := k.request, k.use, None;
    match k.stage {
      case Unregistered => InScriptBegins(b, r.inRel);
      case HasIn =>
        AntiInScriptBegins(b, r.antiInRel, r.antiDependency);
      case HasAntiIn => OutScriptBegins(b, r.outRel, u.inFlow);
      case HasOut => AntiOutScriptBegins(b, r.antiOutRel, u.antiInFlow);
      case Held => LinkBegins(b, k);
      case InLinked => LinkBegins(b, k);
      case Aliased =>
        gives := AntiInToken(u);
        DropScriptBegins(b, gives);
      case LeftAntiIn =>
        gives := u.outFlow;
        DropScriptBegins(b, gives);
      case LeftOut =>
        gives := u.antiOutFlow;
        DropScriptBegins(b, gives);
    }
    assert Begins(b, Script(k), gives);
  }

  lemma IdleBegins(b: Books)
    ensures Begins(b, IDLE, None)
  {
  }

  lemma LinkBegins(b: Books, k: Claim)
    requires Balanced(b) && Consistent(b, k) && Covers(b, k) && k.job.todo == [] && MayAdvance(b, k)
    requires k.stage == Stage.Held || k.stage == InLinked
    ensures Begins(b, Script(k), None) && !Script(k).keeps
  {
    hide Balanced, Begins, Live;
    var u := k.use;
    IdleBegins(b);
    if u.aliases && k.stage == Stage.Held {
      assert b.held[u.outFlow.value] >= Owes(k, u.outFlow.value) >= 1;
      HeldIsLive(b, u.outFlow.value);
      LinkScriptBegins(b, u.inFlow.value, u.outFlow.value);
    } else if u.aliases && u.antiInFlow.Some? {
      assert b.held[u.antiInFlow.value] >= Owes(k, u.antiInFlow.value);
      HeldIsLive(b, u.antiInFlow.value);
      LinkScriptBegins(b, u.antiOutFlow.value, u.antiInFlow.value);
    }
  }

  /** A claim in the middle of its script, or at the end of it. */
  predicate Working(b: Books, k: Claim) {
    && FlowsInRange(b, k.use) && Staged(k) && k.stage != Released
    && JobOk(b, k.job) && Underway(k.job, Script(k)) && Suits(k)
  }

  function WorkOwes(k: Claim, c: Id): nat {
    StageOwes(Following(k.stage), k.use, c) + JobOwes(k.job, c)
  }

  lemma BeginsWork(b: Books, k: Claim)
    requires Balanced(b) && Consistent(b, k) && Covers(b, k) && MayAdvance(b, k)
    ensures var j := JobOf(k); var w := k.(job := j);
      && Working(b, w) && Backed(b, j) && Script(w) == Script(k)
      && (j.todo != [] ==> MayStep(b, j) && NoLifts(j.todo[1..]))
      && forall c: Id :: WorkOwes(w, c) == Owes(k, c)
  {
    var w := k.(job := JobOf(k));
    ScriptOfStage(k, w.job);
    if k.job.todo == [] {
      hide Balanced, JobOk, Covers, Suits, JobOwes, StageOwes, NoLifts, MayStep, Script;
      ScriptBegins(b, k);
    }
    WorkIsBacked(b, k, w);
  }

  lemma WorkIsBacked(b: Books, k: Claim, w: Claim)
    requires Covers(b, k) && forall c: Id :: WorkOwes(w, c) == Owes(k, c)
    ensures Backed(b, w.job)
  {
    hide JobOwes, StageOwes, Owes;
  }

  lemma ScriptOfStage(k: Claim, j: Job)
    ensures Script(k.(job := j)) == Script(k)
  {
  }

  lemma FinishedOwes(j: Job, c: Id)
    requires j.todo == [] && Sound([], Kept(j), j.mine.Some?)
    ensures JobOwes(j, c) == One(if j.keeps then ResultOf(j) else None, c)
  {
  }

  /** At the end of its script the use answers for the flow it arrived at, if it keeps that. */
  lemma CompletedOwes(b: Books, k: Claim)
    requires Working(b, k) && k.job.todo == []
    ensures Consistent(b, Completed(k)) && forall c: Id :: Owes(Completed(k), c) == WorkOwes(k, c)
  {
    hide Script, JobOwes, Kept;
    var k' := Completed(k);
    forall c: Id ensures Owes(k', c) == WorkOwes(k, c) {
      FinishedOwes(k.job, c);
    }
  }

  lemma TidiedOwes(b: Books, k: Claim)
    requires Working(b, k) && NoLifts(k.job.todo) && (k.job.todo != [] ==> |k.job.todo| < |Script(k).todo|)
    ensures Consistent(b, Tidied(k)) && forall c: Id :: Owes(Tidied(k), c) == WorkOwes(k, c)
  {
    hide Working;
    if k.job.todo == [] {
      CompletedOwes(b, k);
    } else {
      WorkingIsConsistent(b, k);
    }
  }

  lemma WorkingIsConsistent(b: Books, k: Claim)
    requires Working(b, k) && NoLifts(k.job.todo) && 0 < |k.job.todo| < |Script(k).todo|
    ensures Consistent(b, k)
  {
  }

  lemma StepsOnward(b: Books, k: Claim)
    requires Balanced(b) && Working(b, k) && k.job.todo != [] && MayStep(b, k.job) && Backed(b, k.job)
    ensures var t, k' := StepBooks(b, k.job), k.(job := Stepped(k.job, |b.held|));
      && Balanced(t) && |b.held| <= |t.held| && Working(t, k') && |k'.job.todo| < |Script(k').todo|
      && forall c :: 0 <= c < |t.held| ==> t.held[c] + WorkOwes(k, c) == Entry(b.held, c) + WorkOwes(k', c)
  {
    hide Balanced, StepBooks, Sound, JobOwes, MayStep, Backed, Script;
    StepAccounts(b, k.job);
    var t, k' := StepBooks(b, k.job), k.(job := Stepped(k.job, |b.held|));
    assert Script(k') == Script(k) by {
      ScriptOfStage(k, k'.job);
    }
    var script := Script(k);
    assert k.job.todo[0] == script.todo[|script.todo| - |k.job.todo|];
    assert Underway(k'.job, script);
  }

  /** One counter operation of a registration or release changes the ledger by what the use
      takes on or gives back. */
  lemma AdvanceAccounts(b: Books, k: Claim)
    requires Balanced(b) && Consistent(b, k) && Covers(b, k) && MayAdvance(b, k)
    ensures Accounts(b, k, StepBooks(b, JobOf(k)), NextClaim(k, |b.held|))
  {
    hide Balanced, StepBooks, MayAdvance, Working, Consistent, Owes, WorkOwes, Script;
    var j := JobOf(k);
    var w := k.(job := j);
    BeginsWork(b, k);
    if j.todo == [] {
      StepsNowhere(b, j);
      TidiedOwes(b, w);
    } else {
      StepsOnward(b, w);
      TidiedOwes(StepBooks(b, j), w.(job := Stepped(j, |b.held|)));
    }
  }

  lemma StepsNowhere(b: Books, j: Job)
    requires j.todo == []
    ensures StepBooks(b, j) == b
  {
  }

  // ---------------------------------------------------------------- whole runs

  lemma MoveBalances(b: Books, m: CounterNet.Move)
    requires Balanced(b) && Enabled(b.state, m, true)
    ensures CanApply(b.state, m) && Balanced(b.(state := Apply(b.state, m)))
  {
    MoveConserves(b.state, m, true);
  }

  /** What is consistent stays so as the network grows. */
  lemma StillConsistent(b: Books, t: Books, k: Claim)
    requires Consistent(b, k) && |b.held| <= |t.held|
    ensures Consistent(t, k)
  {
    hide Sound, Underway, Suits, Script, Makes;
    if k.job.todo != [] {
      StillInRange(b, t, k.job);
    }
  }

  lemma StillInRange(b: Books, t: Books, j: Job)
    requires JobInRange(b, j) && |b.held| <= |t.held|
    ensures JobInRange(t, j)
  {
    forall k | 0 <= k < |j.todo| ensures InstrInRange(t, j.todo[k]) {
      assert InstrInRange(b, j.todo[k]);
    }
  }

  lemma StillSetUp(b: Books, t: Books, j: Job)
    requires SetupOk(b, j) && |b.held| <= |t.held|
    ensures SetupOk(t, j)
  {
    hide Sound, Makes;
    StillInRange(b, t, j);
  }

  lemma ClaimsStayConsistent(s: System, t: Books)
    requires Conserved(s) && |s.books.held| <= |t.held|
    ensures forall i :: 0 <= i < |s.claims| ==> Consistent(t, s.claims[i])
    ensures forall i :: 0 <= i < |s.setups| ==> SetupOk(t, s.setups[i])
  {
    hide Balanced, Consistent, SetupOk;
    forall i | 0 <= i < |s.claims| ensures Consistent(t, s.claims[i]) {
      StillConsistent(s.books, t, s.claims[i]);
    }
    forall i | 0 <= i < |s.setups| ensures SetupOk(t, s.setups[i]) {
      StillSetUp(s.books, t, s.setups[i]);
    }
  }

  /** What the claims and the setups owe is all that is held. */
  function Owed(s: System, c: Id): nat {
    OwedBy(s.claims, c) + OwedInSetups(s.setups, c)
  }

  lemma OwedIsHeld(s: System, c: Id)
    requires Conserved(s)
    ensures Owed(s, c) == Entry(s.books.held, c)
  {
    hide Balanced, Consistent, SetupOk;
    if c >= |s.books.held| {
      NothingOwedBeyond(s.books, s.claims, c);
      NothingOwedInSetupsBeyond(s.books, s.setups, c);
    }
  }

  lemma ClaimIsCovered(s: System, i: nat)
    requires Conserved(s) && i < |s.claims|
    ensures Covers(s.books, s.claims[i])
  {
    hide Balanced, Consistent, SetupOk, Owes;
    forall c | 0 <= c < |s.books.held| ensures s.books.held[c] >= Owes(s.claims[i], c) {
      OwedByAtLeast(s.claims, i, c);
    }
  }

  lemma AdvanceConserves(s: System, i: nat)
    requires Conserved(s) && Obeys(s, Advance(i))
    ensures Conserved(After(s, Advance(i))) && |s.books.held| <= |After(s, Advance(i)).books.held|
  {
    hide Balanced, Consistent, SetupOk, Owes, MayAdvance, StepBooks, NextClaim, JobOf, Covers;
    var b, k := s.books, s.claims[i];
    var t, k' := StepBooks(b, JobOf(k)), NextClaim(k, |b.held|);
    ClaimIsCovered(s, i);
    AdvanceAccounts(b, k);
    ClaimsStayConsistent(s, t);
    forall c | 0 <= c < |t.held| ensures t.held[c] == OwedBy(s.claims[i := k'], c) + OwedInSetups(s.setups, c) {
      OwedByUpdate(s.claims, i, k', c);
      OwedIsHeld(s, c);
    }
  }

  lemma SubmitConserves(s: System, triggers: seq<Id>, task: nat)
    requires Conserved(s) && Obeys(s, Submit(triggers, task))
    ensures Conserved(After(s, Submit(triggers, task)))
  {
    hide Balanced, Consistent, SubmitScript, Sound, NoLifts;
    var t := After(s, Submit(triggers, task));
    SubmitScriptBegins(s.books, triggers, task);
    assert SubmitScript(triggers, task).keeps == false by {
      SubmitKeepsNothing(triggers, task);
    }
    assert t.setups[..|s.setups|] == s.setups;
  }

  lemma SubmitKeepsNothing(triggers: seq<Id>, task: nat)
    ensures !SubmitScript(triggers, task).keeps
  {
  }

  lemma SetupAccounts(b: Books, j: Job)
    requires Balanced(b) && SetupOk(b, j) && j.todo != [] && Backed(b, j)
    ensures var t, j' := StepBooks(b, j), Stepped(j, |b.held|);
      && Balanced(t) && SetupOk(t, j') && |b.held| <= |t.held|
      && (forall c :: 0 <= c < |t.held| ==> t.held[c] + JobOwes(j, c) == Entry(b.held, c) + JobOwes(j', c))
  {
    hide Balanced, StepBooks, JobOk, JobOwes;
    StepAccounts(b, j);
  }

  lemma AssembleConserves(s: System, i: nat)
    requires Conserved(s) && Obeys(s, Assemble(i))
    ensures Conserved(After(s, Assemble(i))) && |s.books.held| <= |After(s, Assemble(i)).books.held|
  {
    hide Balanced, Consistent, SetupOk, JobOwes, StepBooks;
    var b, j := s.books, s.setups[i];
    var t, j' := StepBooks(b, j), Stepped(j, |b.held|);
    forall c | 0 <= c < |b.held| ensures b.held[c] >= JobOwes(j, c) {
      OwedInSetupsAtLeast(s.setups, i, c);
    }
    SetupAccounts(b, j);
    ClaimsStayConsistent(s, t);
    forall c | 0 <= c < |t.held| ensures t.held[c] == OwedBy(s.claims, c) + OwedInSetups(s.setups[i := j'], c) {
      OwedInSetupsUpdate(s.setups, i, j', c);
      OwedIsHeld(s, c);
    }
  }

  lemma EventConserves(s: System, e: Event)
    requires Conserved(s) && Obeys(s, e)
    ensures Conserved(After(s, e)) && |s.books.held| <= |After(s, e).books.held|
  {
    hide Balanced;
    match e
    case Begin(r) =>
      var t := After(s, e);
      assert t.claims[..|s.claims|] == s.claims;
    case Advance(i) => AdvanceConserves(s, i);
    case Submit(triggers, task) => SubmitConserves(s, triggers, task);
    case Assemble(i) => AssembleConserves(s, i);
    case Move(m) =>
      MoveBalances(s.books, m);
      ClaimsStayConsistent(s, After(s, e).books);
  }

  const INITIAL := System(Books(State([], multiset{}), []), [], [])

  ghost predicate AllObey(s: System, events: seq<Event>)
    decreases |events|
  {
    events != [] ==> Obeys(s, events[0]) && AllObey(After(s, events[0]), events[1..])
  }

  ghost function Final(s: System, events: seq<Event>): System
    decreases |events|
  {
    if events == [] then s else Final(After(s, events[0]), events[1..])
  }

  lemma {:induction false} HistoryConserves(s: System, events: seq<Event>)
    requires Conserved(s) && AllObey(s, events)
    ensures Conserved(Final(s, events))
    decreases |events|
  {
    hide Conserved, Obeys, After;
    if events != [] {
      EventConserves(s, events[0]);
      HistoryConserves(After(s, events[0]), events[1..]);
    }
  }

  /** Conservation of obligations, after any history of any number of threads: each count
      is what the unreleased uses and the threads in the middle of a script owe, plus the
      decrements still attached, plus those in flight.  A counter somebody still answers for
      has not triggered; one that nobody answers for has triggered or is about to. */
  lemma ConservationOfObligations(events: seq<Event>, c: Id)
    requires AllObey(INITIAL, events)
    requires c < |Final(INITIAL, events).books.state.net|
    ensures var t := Final(INITIAL, events); var s := t.books.state;
      && s.net[c].count == Owed(t, c) + Attached(s.net, c) + Aimed(s.work, c)
      && (s.net[c].triggered ==> s.net[c].count == 0)
      && (s.net[c].count == 0 ==> s.net[c].triggered || Enabled(s, Fire(c), false))
  {
    hide AllObey, Final, Consistent, SetupOk;
    HistoryConserves(INITIAL, events);
  }

  /** Whatever the other threads do in the middle of it, the next counter operation of a
      registration, a release or a submission fails no assertion: what is raised has not
      triggered, and what is given away is held. */
  lemma NextOperationIsPermitted(s: System, e: Event)
    requires Conserved(s) && Obeys(s, e) && (e.Advance? || e.Assemble?)
    ensures var j := if e.Advance? then JobOf(s.claims[e.claim]) else s.setups[e.setup];
      j.todo != [] ==> Permitted(s.books, OpOf(j.todo[0], j.mine))
  {
    hide Balanced, Consistent, SetupOk, Owes, JobOwes, MayAdvance, JobOk, Permitted, OpOf;
    match e
    case Advance(i) => AdvanceIsPermitted(s, i);
    case Assemble(i) =>
      var j := s.setups[i];
      assert SetupOk(s.books, j);
      SetupCanStep(s.books, j);
      forall c | 0 <= c < |s.books.held| ensures s.books.held[c] >= JobOwes(j, c) {
        OwedInSetupsAtLeast(s.setups, i, c);
      }
      StepIsPermitted(s.books, j);
    case _ =>
  }

  lemma SetupCanStep(b: Books, j: Job)
    requires SetupOk(b, j) && j.todo != []
    ensures JobOk(b, j) && MayStep(b, j)
  {
    hide JobOk;
  }

  lemma AdvanceIsPermitted(s: System, i: nat)
    requires Conserved(s) && Obeys(s, Advance(i))
    ensures var j := JobOf(s.claims[i]); j.todo != [] ==> Permitted(s.books, OpOf(j.todo[0], j.mine))
  {
    hide Balanced, Consistent, MayAdvance, JobOk, Permitted, OpOf, JobOf, Covers, MayStep, Backed;
    hide FlowsInRange, Staged, Underway, Suits, Script;
    ClaimIsCovered(s, i);
    BeginsWork(s.books, s.claims[i]);
    if JobOf(s.claims[i]).todo != [] {
      StepIsPermitted(s.books, JobOf(s.claims[i]));
    }
  }

  // ---------------------------------------------------------------- a thread alone

  /** What becomes of a use when its thread goes on to the next stage without interruption. */
  ghost function ToNextStage(b: Books, k: Claim): (Books, Claim)
    decreases |JobOf(k).todo|
  {
    var t, k' := StepBooks(b, JobOf(k)), NextClaim(k, |b.held|);
    if k'.job.todo == [] then (t, k') else ToNextStage(t, k')
  }

  lemma {:induction false} StageIsScript(b: Books, k: Claim)
    ensures ToNextStage(b, k) == (Finish(b, JobOf(k), false).books, Arrived(k, Finish(b, JobOf(k), false).flow))
    decreases |JobOf(k).todo|
  {
    hide Script, StepBooks;
    var j := JobOf(k);
    var t, k' := StepBooks(b, j), NextClaim(k, |b.held|);
    if j.todo != [] {
      StepIsThen(b, j);
    } else {
      StepsNowhere(b, j);
    }
    if k'.job.todo != [] {
      StageIsScript(t, k');
    }
  }

  lemma StepIsThen(b: Books, j: Job)
    requires j.todo != []
    ensures StepBooks(b, j) == Then(b, OpOf(j.todo[0], j.mine), false)
  {
  }

  /** A thread that registers a use without interruption does what UseProtocol.Register says. */
  lemma RegisteringAlone(b: Books, r: Request)
    requires Acceptable(b, r, false)
    ensures var p := Register(b, r, false);
      var (b1, k1) := ToNextStage(b, Unstarted(r));
      var (b2, k2) := ToNextStage(b1, k1);
      var (b3, k3) := ToNextStage(b2, k2);
      ToNextStage(b3, k3) == (p.antiOutPart.books, Claim(r, Registered(r, p), Stage.Held, IDLE))
  {
    hide RegisterIn, RegisterAntiIn, RegisterOut, RegisterAntiOut, InOk, AntiInOk, OutOk, AntiOutOk;
    hide ToNextStage, Finish;
    hide InScript, AntiInScript, OutScript, AntiOutScript;
    var p := Register(b, r, false);
    var k0 := Unstarted(r);
    var (b1, k1) := ToNextStage(b, k0);
    var (b2, k2) := ToNextStage(b1, k1);
    var (b3, k3) := ToNextStage(b2, k2);
    StageIsScript(b, k0);
    InScriptDoes(b, r.inRel, false);
    StageIsScript(b1, k1);
    AntiInScriptDoes(b1, r.antiInRel, r.antiDependency, false);
    StageIsScript(b2, k2);
    OutScriptDoes(b2, r.outRel, p.inPart.flow, false);
    StageIsScript(b3, k3);
    AntiOutScriptDoes(b3, r.antiOutRel, p.antiInPart.flow, false);
  }

  lemma LinkingAlone(b: Books, r: Request, u: Use)
    ensures var (b1, k1) := ToNextStage(b, Claim(r, u, Stage.Held, IDLE));
      ToNextStage(b1, k1) == (if u.aliases then HandleAliasing(b, u, false) else b, Claim(r, u, Aliased, IDLE))
  {
    hide LinkBehind, LinkScript, ToNextStage;
    var k0 := Claim(r, u, Stage.Held, IDLE);
    var (b1, k1) := ToNextStage(b, k0);
    StageIsScript(b, k0);
    LinkScriptDoes(b, Target(u.inFlow), Target(u.outFlow), false);
    StageIsScript(b1, k1);
    LinkScriptDoes(b1, Target(u.antiOutFlow), Target(u.antiInFlow), false);
  }

  lemma DroppingAlone(b: Books, r: Request, u: Use)
    ensures var (b1, k1) := ToNextStage(b, Claim(r, u, Aliased, IDLE));
      var (b2, k2) := ToNextStage(b1, k1);
      ToNextStage(b2, k2) == (DropAll(b, u, false), Claim(r, u, Released, IDLE))
  {
    hide DropFlow, DropScript, ToNextStage;
    var k0 := Claim(r, u, Aliased, IDLE);
    var (b1, k1) := ToNextStage(b, k0);
    var (b2, k2) := ToNextStage(b1, k1);
    StageIsScript(b, k0);
    DropScriptDoes(b, AntiInToken(u), false);
    StageIsScript(b1, k1);
    DropScriptDoes(b1, u.outFlow, false);
    StageIsScript(b2, k2);
    DropScriptDoes(b2, u.antiOutFlow, false);
  }

  /** And one that releases a use does what UseProtocol.Release says. */
  lemma ReleasingAlone(b: Books, r: Request, u: Use)
    ensures var (b1, k1) := ToNextStage(b, Claim(r, u, Stage.Held, IDLE));
      var (b2, k2) := ToNextStage(b1, k1);
      var (b3, k3) := ToNextStage(b2, k2);
      var (b4, k4) := ToNextStage(b3, k3);
      ToNextStage(b4, k4) == (Release(b, u, false), Claim(r, u, Released, IDLE))
  {
    hide HandleAliasing, DropAll, ToNextStage;
    LinkingAlone(b, r, u);
    DroppingAlone(if u.aliases then HandleAliasing(b, u, false) else b, r, u);
  }
}
