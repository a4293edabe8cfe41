/**
  What a thread does to the network when it registers or releases a use, or submits a task:
  one counter operation after the other, while other threads do theirs and cascades run.

  A script names the counters it works on; the one counter it may make on the way is known
  by its place in the script until it exists.
  */
module Scripts {
  import opened CounterNet
  import opened Options
  import opened UseProtocol

  datatype Ref = Of(id: Id) | Mine

  datatype Instr =
    | Make                                          // a new counter, with count 1
    | Lift(ref: Ref)                                // increment_count
    | Lower(ref: Ref)                               // decrement_count
    | Hook(on: Ref, target: Ref, deferred: bool)    // attach a decrement of `target` to `on`
    | HookTask(on: Ref, task: nat)                  // attach the launch of a task

  /** The rest of a script, the counter it made, the flow it arrives at, and whether it ends up
      holding that flow. */
  datatype Job = Job(todo: seq<Instr>, mine: Option<Id>, result: Option<Ref>, keeps: bool)

  const IDLE := Job([], None, None, false)

  function Resolve(r: Ref, mine: Option<Id>): Id {
    match r
    case Of(id) => id
    case Mine => Target(mine)
  }

  function ResultOf(j: Job): Option<Id> {
    if j.result.Some? then Some(Resolve(j.result.value, j.mine)) else None
  }

  function OpOf(i: Instr, mine: Option<Id>): Op {
    match i
    case Make => Create(1)
    case Lift(r) => Raise(Resolve(r, mine))
    case Lower(r) => Drop(Resolve(r, mine))
    case Hook(on, target, deferred) =>
      var t := Resolve(target, mine);
      Attach(Resolve(on, mine), if deferred then Alias(t) else Decrement(t))
    case HookTask(on, task) => Attach(Resolve(on, mine), Launch(task))
  }

  /** One counter operation; `made` is the counter that would be made. */
  function Stepped(j: Job, made: Id): Job {
    if j.todo == [] then j
    else Job(j.todo[1..], if j.todo[0].Make? then Some(made) else j.mine, j.result, j.keeps)
  }

  ghost function StepBooks(b: Books, j: Job): Books {
    if j.todo == [] then b else Then(b, OpOf(j.todo[0], j.mine), false)
  }

  // ---------------------------------------------------------------- the scripts of the source

  function Doing(todo: seq<Instr>, result: Option<Ref>, keeps: bool): Job {
    Job(todo, None, result, keeps)
  }

  function AsRef(flow: Option<Id>): Option<Ref> {
    if flow.Some? then Some(Of(flow.value)) else None
  }

  function InScript(rel: Relationship): Job {
    match rel.kind
    case Insignificant | Null => IDLE
    case Same | Forwarding => Doing([], AsRef(rel.Named()), false)
    case Next | IndexedLocal => Doing([Make, Hook(Of(Target(rel.Named())), Mine, false)], Some(Mine), false)
    case IndexedFetching(published) => Doing([Make, Hook(Of(published), Mine, false)], Some(Mine), false)
    case Initial => Doing([Make, Lower(Mine)], Some(Mine), false)
  }

  function AntiInScript(rel: Relationship, antiDependency: bool): Job {
    match rel.kind
    case Insignificant | Initial | Null | IndexedFetching(_) => IDLE
    case Same =>
      if rel.Named().Some? && !antiDependency
      then Doing([Lift(Of(rel.Named().value))], AsRef(rel.Named()), true)
      else Doing([], AsRef(rel.Named()), false)
    case Next => Doing([Make], Some(Mine), true)
    case Forwarding => Doing([Make, Lower(Mine)], Some(Mine), false)
    case IndexedLocal =>
      if rel.Named().Some? then Doing([Make, Hook(Of(rel.Named().value), Mine, false)], Some(Mine), false) else IDLE
  }

  /** A flow that must be ready before `whole` can be. */
  function PartScript(whole: Id): Job {
    Doing([Lift(Of(whole)), Make, Hook(Mine, Of(whole), false)], Some(Mine), true)
  }

  function OutScript(rel: Relationship, inFlow: Option<Id>): Job {
    match rel.kind
    case Insignificant | Initial | Forwarding | IndexedFetching(_) => IDLE
    case Same => Doing([Lift(Of(Target(Related(rel, inFlow))))], AsRef(Related(rel, inFlow)), true)
    case Next | Null => Doing([Make], Some(Mine), true)
    case IndexedLocal => PartScript(Target(Related(rel, inFlow)))
  }

  function AntiOutScript(rel: Relationship, antiInFlow: Option<Id>): Job {
    match rel.kind
    case Insignificant | Forwarding | Null | IndexedFetching(_) => IDLE
    case Same => Doing([Lift(Of(Target(Related(rel, antiInFlow))))], AsRef(Related(rel, antiInFlow)), true)
    case Initial | Next => Doing([Make], Some(Mine), true)
    case IndexedLocal => PartScript(Target(Related(rel, antiInFlow)))
  }

  function DropScript(flow: Option<Id>): Job {
    if flow.Some? then Doing([Lower(Of(flow.value))], None, false) else IDLE
  }

  function DependScript(triggers: seq<Id>): seq<Instr> {
    if triggers == [] then []
    else [Lift(Mine), Hook(Of(triggers[0]), Mine, false)] + DependScript(triggers[1..])
  }

  /** A pending operation: make its counter, raise it for each prerequisite and hook its
      decrement there, let go of it, and attach what is to run. */
  function AwaitScript(triggers: seq<Id>, last: Instr): seq<Instr> {
    [Make] + DependScript(triggers) + [Lower(Mine), last]
  }

  /** Handling an alias: raise the target, and set up an operation that lowers it once the
      source is ready. */
  function LinkScript(source: Id, target: Id): Job {
    Doing([Lift(Of(target))] + AwaitScript([source], Hook(Mine, Of(target), true)), None, false)
  }

  /** Submitting a task. */
  function SubmitScript(triggers: seq<Id>, task: nat): Job {
    Doing(AwaitScript(triggers, HookTask(Mine, task)), None, false)
  }

  // ---------------------------------------------------------------- what a script holds on the way

  /** What is held on `r` before an instruction, given what is held after it. */
  function HeldBefore(i: Instr, r: Ref, after: nat): nat {
    match i
    case Make => if r == Mine then 0 else after
    case Lift(x) => if x == r && after > 0 then after - 1 else after
    case Lower(x) => if x == r then after + 1 else after
    case Hook(_, x, _) => if x == r then after + 1 else after
    case HookTask(_, _) => after
  }

  /** What a thread must hold on `r` to do the rest of a script and end up holding `kept`. */
  function Need(todo: seq<Instr>, kept: Option<Ref>, r: Ref): nat {
    if todo == [] then (if kept == Some(r) then 1 else 0)
    else HeldBefore(todo[0], r, Need(todo[1..], kept, r))
  }

  function Kept(j: Job): Option<Ref> {
    if j.keeps then j.result else None
  }

  /** The obligations on `c` the thread is answerable for in the middle of a script. */
  function JobOwes(j: Job, c: Id): nat {
    Need(j.todo, Kept(j), Of(c)) + if j.mine == Some(c) then Need(j.todo, Kept(j), Mine) else 0
  }

  /** The script makes its counter once and before it uses it or hooks anything, lets go of it
      exactly as often as it holds it, and raises what it made only while it holds it. */
  predicate Sound(todo: seq<Instr>, kept: Option<Ref>, made: bool) {
    if todo == [] then kept == Some(Mine) ==> made
    else
      && Sound(todo[1..], kept, made || todo[0].Make?)
      && match todo[0]
         case Make => !made && Need(todo[1..], kept, Mine) == 1
         case Lift(r) => (r == Mine ==> made) && Need(todo[1..], kept, r) >= if r == Mine then 2 else 1
         case Lower(r) => r == Mine ==> made
         case Hook(_, _, _) => made
         case HookTask(_, _) => made
  }

  predicate Makes(todo: seq<Instr>) {
    todo != [] && (todo[0].Make? || Makes(todo[1..]))
  }

  predicate RefInRange(b: Books, r: Ref) {
    r.Of? ==> r.id < |b.held|
  }

  predicate InstrInRange(b: Books, i: Instr) {
    match i
    case Make => true
    case Lift(r) => RefInRange(b, r)
    case Lower(r) => RefInRange(b, r)
    case Hook(on, target, _) => RefInRange(b, on) && RefInRange(b, target)
    case HookTask(on, _) => RefInRange(b, on)
  }

  predicate JobInRange(b: Books, j: Job) {
    && (forall k :: 0 <= k < |j.todo| ==> InstrInRange(b, j.todo[k]))
    && InRange(b, j.mine) && (j.result.Some? ==> RefInRange(b, j.result.value))
  }

  predicate JobOk(b: Books, j: Job) {
    && Sound(j.todo, Kept(j), j.mine.Some?) && JobInRange(b, j)
    && (j.result == Some(Mine) ==> j.mine.Some? || Makes(j.todo))
  }

  lemma NeedFirst(i: Instr, rest: seq<Instr>, kept: Option<Ref>, r: Ref)
    ensures Need([i] + rest, kept, r) == HeldBefore(i, r, Need(rest, kept, r))
  {
    assert ([i] + rest)[1..] == rest;
  }

  /** References that are out of range are never needed. */
  lemma {:induction false} NotNeeded(b: Books, todo: seq<Instr>, kept: Option<Ref>, c: Id)
    requires c >= |b.held| && (kept.Some? ==> RefInRange(b, kept.value))
    requires forall k :: 0 <= k < |todo| ==> InstrInRange(b, todo[k])
    ensures Need(todo, kept, Of(c)) == 0
  {
    if todo != [] {
      NotNeeded(b, todo[1..], kept, c);
      assert InstrInRange(b, todo[0]);
    }
  }

  // ---------------------------------------------------------------- one operation

  /** The next operation fails no assertion: what it raises has not triggered. */
  predicate MayStep(b: Books, j: Job) {
    j.todo != [] && (j.todo[0].Lift? && j.todo[0].ref.Of? ==> Live(b, j.todo[0].ref.id))
  }

  predicate Backed(b: Books, j: Job) {
    forall c :: 0 <= c < |b.held| ==> b.held[c] >= JobOwes(j, c)
  }

  lemma StepIsPermitted(b: Books, j: Job)
    requires Balanced(b) && JobOk(b, j) && MayStep(b, j) && Backed(b, j)
    ensures Permitted(b, OpOf(j.todo[0], j.mine))
  {
    hide Balanced;
    assert InstrInRange(b, j.todo[0]);
    match j.todo[0]
    case Lift(r) =>
      if r == Mine {
        assert JobOwes(j, j.mine.value) >= 1;
        HeldIsLive(b, j.mine.value);
      }
    case Lower(r) => assert JobOwes(j, Resolve(r, j.mine)) >= 1;
    case Hook(on, target, _) => assert JobOwes(j, Resolve(target, j.mine)) >= 1;
    case _ =>
  }

  /** What the operation takes and gives is what the script owes more or less afterwards. */
  lemma StepOwes(b: Books, j: Job, c: Id)
    requires |b.held| == |b.state.net| && JobOk(b, j) && j.todo != [] && c <= |b.held|
    ensures var op, j' := OpOf(j.todo[0], j.mine), Stepped(j, |b.held|);
      JobOwes(j', c) + Given(op, c) == JobOwes(j, c) + UseProtocol.Taken(op, c, |b.held|)
  {
    var n := |b.held|;
    assert InstrInRange(b, j.todo[0]);
    if c == n {
      forall k | 0 <= k < |j.todo[1..]| ensures InstrInRange(b, j.todo[1..][k]) {
        assert InstrInRange(b, j.todo[k + 1]);
      }
      NotNeeded(b, j.todo[1..], Kept(j), c);
    }
  }

  /** One counter operation of a thread keeps the books balanced, and changes the ledger by what
      the thread is answerable for. */
  lemma StepAccounts(b: Books, j: Job)
    requires Balanced(b) && JobOk(b, j) && MayStep(b, j) && Backed(b, j)
    ensures var t, j' := StepBooks(b, j), Stepped(j, |b.held|);
      && Balanced(t) && JobOk(t, j') && |b.held| <= |t.held| <= |b.held| + 1
      && (forall c :: 0 <= c < |t.held| ==> t.held[c] + JobOwes(j, c) == Entry(b.held, c) + JobOwes(j', c))
  {
    var op := OpOf(j.todo[0], j.mine);
    var t, j' := StepBooks(b, j), Stepped(j, |b.held|);
    StepIsPermitted(b, j);
    ThenBalances(b, op, false);
    assert |b.held| == |b.state.net|;
    hide Balanced, Then, Need, Permitted;
    forall k | 0 <= k < |j'.todo| ensures InstrInRange(t, j'.todo[k]) {
      assert InstrInRange(b, j.todo[k + 1]);
    }
    forall c | 0 <= c < |t.held| ensures t.held[c] + JobOwes(j, c) == Entry(b.held, c) + JobOwes(j', c) {
      StepOwes(b, j, c);
    }
  }

  // ---------------------------------------------------------------- the scripts are sound

  predicate NoLifts(todo: seq<Instr>) {
    forall k :: 0 <= k < |todo| && todo[k].Lift? ==> todo[k].ref == Mine
  }

  /** A script that can be begun: only its first operation may raise a flow of somebody else,
      and so far it owes nothing but what it is to give away. */
  ghost predicate Begins(b: Books, j: Job, gives: Option<Id>) {
    && j.mine == None && JobOk(b, j) && (j.todo == [] ==> !j.keeps)
    && (j.todo != [] ==> NoLifts(j.todo[1..]) && MayStep(b, j))
    && forall c: Id :: JobOwes(j, c) == One(gives, c)
  }

  lemma SoundFirst(i: Instr, rest: seq<Instr>, kept: Option<Ref>, made: bool)
    ensures Sound([i] + rest, kept, made) <==>
      && Sound(rest, kept, made || i.Make?)
      && match i
         case Make => !made && Need(rest, kept, Mine) == 1
         case Lift(r) => (r == Mine ==> made) && Need(rest, kept, r) >= if r == Mine then 2 else 1
         case Lower(r) => r == Mine ==> made
         case Hook(_, _, _) => made
         case HookTask(_, _) => made
  {
    assert ([i] + rest)[1..] == rest;
  }

  /** A script of one operation, of two, and of three. */
  lemma OneStep(i: Instr, kept: Option<Ref>)
    ensures Sound([i], kept, false) <==>
      && (kept == Some(Mine) ==> i.Make?)
      && match i
         case Make => kept == Some(Mine)
         case Lift(r) => r != Mine && kept == Some(r)
         case Lower(r) => r != Mine
         case _ => false
    ensures forall r :: Need([i], kept, r) == HeldBefore(i, r, if kept == Some(r) then 1 else 0)
  {
    assert [i] == [i] + [];
    SoundFirst(i, [], kept, false);
    forall r {
      NeedFirst(i, [], kept, r);
    }
  }

  lemma MakeThen(i: Instr, kept: Option<Ref>)
    ensures Sound([Make, i], kept, false) <==>
      && HeldBefore(i, Mine, if kept == Some(Mine) then 1 else 0) == 1
      && !i.Make? && (i.Lift? ==> i.ref != Mine && kept == Some(i.ref))
    ensures forall r ::
      Need([Make, i], kept, r) == (if r == Mine then 0 else HeldBefore(i, r, if kept == Some(r) then 1 else 0))
  {
    assert [Make, i] == [Make] + [i];
    SoundFirst(Make, [i], kept, false);
    forall r {
      NeedFirst(Make, [i], kept, r);
    }
    assert [i] == [i] + [];
    SoundFirst(i, [], kept, true);
    forall r {
      NeedFirst(i, [], kept, r);
    }
  }

  lemma InScriptBegins(b: Books, rel: Relationship)
    requires InOk(b, rel)
    ensures Begins(b, InScript(rel), None) && !InScript(rel).keeps
  {
    var j := InScript(rel);
    if |j.todo| == 2 {
      MakeThen(j.todo[1], None);
    }
  }

  lemma AntiInScriptBegins(b: Books, rel: Relationship, antiDependency: bool)
    requires AntiInOk(b, rel, antiDependency)
    ensures var j := AntiInScript(rel, antiDependency);
      && Begins(b, j, None) && (j.result.Some? ==> j.keeps == !antiDependency || ResultOf(j) == None)
  {
    var j := AntiInScript(rel, antiDependency);
    if |j.todo| == 1 {
      OneStep(j.todo[0], Kept(j));
    } else if |j.todo| == 2 {
      MakeThen(j.todo[1], Kept(j));
    }
  }

  lemma PartScriptBegins(b: Books, whole: Id)
    requires whole < |b.held| && Live(b, whole)
    ensures Begins(b, PartScript(whole), None)
  {
    var j := PartScript(whole);
    var rest := [Make, Hook(Mine, Of(whole), false)];
    assert j.todo == [Lift(Of(whole))] + rest;
    SoundFirst(Lift(Of(whole)), rest, Some(Mine), false);
    MakeThen(Hook(Mine, Of(whole), false), Some(Mine));
    forall r {
      NeedFirst(Lift(Of(whole)), rest, Some(Mine), r);
    }
  }

  lemma OutScriptBegins(b: Books, rel: Relationship, inFlow: Option<Id>)
    requires OutOk(b, rel, inFlow)
    ensures var j := OutScript(rel, inFlow); Begins(b, j, None) && (j.result.Some? ==> j.keeps)
  {
    var j := OutScript(rel, inFlow);
    if rel.kind == IndexedLocal {
      PartScriptBegins(b, Target(Related(rel, inFlow)));
    } else if |j.todo| == 1 {
      OneStep(j.todo[0], Kept(j));
    }
  }

  lemma AntiOutScriptBegins(b: Books, rel: Relationship, antiInFlow: Option<Id>)
    requires AntiOutOk(b, rel, antiInFlow)
    ensures var j := AntiOutScript(rel, antiInFlow); Begins(b, j, None) && (j.result.Some? ==> j.keeps)
  {
    var j := AntiOutScript(rel, antiInFlow);
    if rel.kind == IndexedLocal {
      PartScriptBegins(b, Target(Related(rel, antiInFlow)));
    } else if |j.todo| == 1 {
      OneStep(j.todo[0], Kept(j));
    }
  }

  lemma DropScriptBegins(b: Books, flow: Option<Id>)
    requires InRange(b, flow)
    ensures Begins(b, DropScript(flow), flow) && !DropScript(flow).keeps
  {
    if flow.Some? {
      OneStep(Lower(Of(flow.value)), None);
    }
  }

  /** Once the prerequisites are added the setup count is all that is held. */
  lemma {:induction false} DependScriptIsSound(triggers: seq<Id>, rest: seq<Instr>, r: Ref)
    requires Sound(rest, None, true) && Need(rest, None, Mine) >= 1
    ensures Sound(DependScript(triggers) + rest, None, true)
    ensures Need(DependScript(triggers) + rest, None, r) == Need(rest, None, r)
    ensures Need(DependScript(triggers) + rest, None, Mine) == Need(rest, None, Mine)
  {
    if triggers == [] {
      assert [] + rest == rest;
    } else {
      var hook := Hook(Of(triggers[0]), Mine, false);
      var tail := DependScript(triggers[1..]) + rest;
      assert DependScript(triggers) + rest == [Lift(Mine)] + ([hook] + tail);
      DependScriptIsSound(triggers[1..], rest, r);
      SoundFirst(hook, tail, None, true);
      NeedFirst(hook, tail, None, r);
      NeedFirst(hook, tail, None, Mine);
      SoundFirst(Lift(Mine), [hook] + tail, None, true);
      NeedFirst(Lift(Mine), [hook] + tail, None, r);
      NeedFirst(Lift(Mine), [hook] + tail, None, Mine);
    }
  }

  lemma AwaitScriptIsSound(triggers: seq<Id>, last: Instr, r: Ref)
    requires last.Hook? || last.HookTask?
    requires last.Hook? ==> last.target != Mine
    ensures Sound(AwaitScript(triggers, last), None, false)
    ensures Need(AwaitScript(triggers, last), None, r) == if r != Mine && last.Hook? && last.target == r then 1 else 0
  {
    var rest := [Lower(Mine), last];
    assert [last] == [last] + [] && rest == [Lower(Mine)] + [last];
    SoundFirst(last, [], None, true);
    NeedFirst(last, [], None, r);
    NeedFirst(last, [], None, Mine);
    SoundFirst(Lower(Mine), [last], None, true);
    NeedFirst(Lower(Mine), [last], None, r);
    NeedFirst(Lower(Mine), [last], None, Mine);
    DependScriptIsSound(triggers, rest, r);
    var tail := DependScript(triggers) + rest;
    assert AwaitScript(triggers, last) == [Make] + tail;
    SoundFirst(Make, tail, None, false);
    NeedFirst(Make, tail, None, r);
  }

  lemma {:induction false} DependScriptRefs(b: Books, triggers: seq<Id>)
    requires AllKnown(b, triggers)
    ensures NoLifts(DependScript(triggers))
    ensures forall k :: 0 <= k < |DependScript(triggers)| ==> InstrInRange(b, DependScript(triggers)[k])
  {
    if triggers != [] {
      forall d | d in triggers[1..] ensures d in triggers {
      }
      DependScriptRefs(b, triggers[1..]);
      assert triggers[0] in triggers;
    }
  }

  lemma SubmitScriptBegins(b: Books, triggers: seq<Id>, task: nat)
    requires AllKnown(b, triggers)
    ensures Begins(b, SubmitScript(triggers, task), None) && NoLifts(SubmitScript(triggers, task).todo)
  {
    var j := SubmitScript(triggers, task);
    assert j.todo == AwaitScript(triggers, HookTask(Mine, task));
    DependScriptRefs(b, triggers);
    forall r ensures Need(j.todo, None, r) == 0 {
      AwaitScriptIsSound(triggers, HookTask(Mine, task), r);
    }
    AwaitScriptIsSound(triggers, HookTask(Mine, task), Mine);
  }

  lemma LinkScriptBegins(b: Books, source: Id, target: Id)
    requires source < |b.held| && target < |b.held| && Live(b, target)
    ensures Begins(b, LinkScript(source, target), None)
  {
    var j := LinkScript(source, target);
    var last := Hook(Mine, Of(target), true);
    var await := AwaitScript([source], last);
    DependScriptRefs(b, [source]);
    forall r ensures Need(j.todo, None, r) == 0 {
      AwaitScriptIsSound([source], last, r);
      NeedFirst(Lift(Of(target)), await, None, r);
    }
    AwaitScriptIsSound([source], last, Of(target));
    SoundFirst(Lift(Of(target)), await, None, false);
  }

  // ---------------------------------------------------------------- without interruption

  /** A thread that is not interrupted does what UseProtocol says. */
  ghost function Finish(b: Books, j: Job, now: bool): Part
    decreases |j.todo|
  {
    if j.todo == [] then Part(b, ResultOf(j))
    else Finish(Then(b, OpOf(j.todo[0], j.mine), now), Stepped(j, |b.held|), now)
  }

  lemma FinishFirst(b: Books, i: Instr, rest: seq<Instr>, mine: Option<Id>, result: Option<Ref>, keeps: bool, now: bool)
    ensures Finish(b, Job([i] + rest, mine, result, keeps), now) ==
      Finish(Then(b, OpOf(i, mine), now), Job(rest, if i.Make? then Some(|b.held|) else mine, result, keeps), now)
  {
    assert ([i] + rest)[1..] == rest;
  }

  lemma InScriptDoes(b: Books, rel: Relationship, now: bool)
    requires InOk(b, rel)
    ensures Finish(b, InScript(rel), now) == RegisterIn(b, rel, now)
  {
    hide Then;
    var j := InScript(rel);
    if |j.todo| == 2 {
      MakeThenDoes(b, j.todo[1], j.result, j.keeps, now);
    }
  }

  lemma MakeThenDoes(b: Books, i: Instr, result: Option<Ref>, keeps: bool, now: bool)
    ensures Finish(b, Doing([Make, i], result, keeps), now) ==
      var mine := if i.Make? then Some(|Fresh(b, now).held|) else Some(|b.held|);
      Finish(Then(Fresh(b, now), OpOf(i, Some(|b.held|)), now), Job([], mine, result, keeps), now)
  {
    hide Then;
    assert [Make, i] == [Make] + [i] && [i] == [i] + [];
    FinishFirst(b, Make, [i], None, result, keeps, now);
    FinishFirst(Fresh(b, now), i, [], Some(|b.held|), result, keeps, now);
  }

  lemma AntiInScriptDoes(b: Books, rel: Relationship, antiDependency: bool, now: bool)
    requires AntiInOk(b, rel, antiDependency)
    ensures Finish(b, AntiInScript(rel, antiDependency), now) == RegisterAntiIn(b, rel, antiDependency, now)
  {
    hide Then;
    var j := AntiInScript(rel, antiDependency);
    if |j.todo| == 2 {
      MakeThenDoes(b, j.todo[1], j.result, j.keeps, now);
    } else if |j.todo| == 1 {
      FinishFirst(b, j.todo[0], [], None, j.result, j.keeps, now);
    }
  }

  lemma PartScriptDoes(b: Books, whole: Id, now: bool)
    requires whole < |b.held|
    ensures Finish(b, PartScript(whole), now) == Part(FreshPartOf(b, whole, now), Some(|b.held|))
  {
    hide Then;
    var hook := Hook(Mine, Of(whole), false);
    assert PartScript(whole).todo == [Lift(Of(whole))] + [Make, hook];
    assert |Then(b, Raise(whole), now).held| == |b.held| by {
      RaiseKeepsSize(b, whole, now);
    }
    FinishFirst(b, Lift(Of(whole)), [Make, hook], None, Some(Mine), true, now);
    MakeThenDoes(Then(b, Raise(whole), now), hook, Some(Mine), true, now);
  }

  lemma RaiseKeepsSize(b: Books, c: Id, now: bool)
    ensures |Then(b, Raise(c), now).held| == |b.held|
  {
  }

  lemma OutScriptDoes(b: Books, rel: Relationship, inFlow: Option<Id>, now: bool)
    requires OutOk(b, rel, inFlow)
    ensures Finish(b, OutScript(rel, inFlow), now) == RegisterOut(b, rel, inFlow, now)
  {
    hide Then;
    var j := OutScript(rel, inFlow);
    if rel.kind == IndexedLocal {
      PartScriptDoes(b, Target(Related(rel, inFlow)), now);
    } else if |j.todo| == 1 {
      FinishFirst(b, j.todo[0], [], None, j.result, j.keeps, now);
    }
  }

  lemma AntiOutScriptDoes(b: Books, rel: Relationship, antiInFlow: Option<Id>, now: bool)
    requires AntiOutOk(b, rel, antiInFlow)
    ensures Finish(b, AntiOutScript(rel, antiInFlow), now) == RegisterAntiOut(b, rel, antiInFlow, now)
  {
    hide Then;
    var j := AntiOutScript(rel, antiInFlow);
    if rel.kind == IndexedLocal {
      PartScriptDoes(b, Target(Related(rel, antiInFlow)), now);
    } else if |j.todo| == 1 {
      FinishFirst(b, j.todo[0], [], None, j.result, j.keeps, now);
    }
  }

  lemma {:induction false} DependScriptDoes(b: Books, p: Id, triggers: seq<Id>, rest: seq<Instr>, now: bool)
    ensures Finish(b, Job(DependScript(triggers) + rest, Some(p), None, false), now) ==
            Finish(DependOn(b, p, triggers, now), Job(rest, Some(p), None, false), now)
    decreases |triggers|
  {
    hide Then;
    if triggers == [] {
      assert [] + rest == rest;
    } else {
      var hook := Hook(Of(triggers[0]), Mine, false);
      var tail := DependScript(triggers[1..]) + rest;
      assert DependScript(triggers) + rest == [Lift(Mine)] + ([hook] + tail);
      var raised := Then(b, Raise(p), now);
      FinishFirst(b, Lift(Mine), [hook] + tail, Some(p), None, false, now);
      FinishFirst(raised, hook, tail, Some(p), None, false, now);
      DependScriptDoes(Then(raised, Attach(triggers[0], Decrement(p)), now), p, triggers[1..], rest, now);
    }
  }

  /** Waiting for `triggers` and then doing `last` is the pending operation of the source. */
  lemma AwaitScriptDoes(b: Books, triggers: seq<Id>, last: Instr, now: bool)
    requires !last.Make?
    ensures Finish(b, Doing(AwaitScript(triggers, last), None, false), now) ==
            Part(Then(Awaiting(b, triggers, now), OpOf(last, Some(|b.held|)), now), None)
  {
    hide Then;
    var p := |b.held|;
    var rest := [Lower(Mine), last];
    assert AwaitScript(triggers, last) == [Make] + (DependScript(triggers) + rest);
    assert rest == [Lower(Mine)] + [last] && [last] == [last] + [];
    FinishFirst(b, Make, DependScript(triggers) + rest, None, None, false, now);
    DependScriptDoes(Fresh(b, now), p, triggers, rest, now);
    FinishFirst(DependOn(Fresh(b, now), p, triggers, now), Lower(Mine), [last], Some(p), None, false, now);
    FinishFirst(Awaiting(b, triggers, now), last, [], Some(p), None, false, now);
  }

  lemma SubmitScriptDoes(b: Books, triggers: seq<Id>, task: nat, now: bool)
    ensures Finish(b, SubmitScript(triggers, task), now).books == WhenAllReady(b, triggers, Launch(task), now)
  {
    AwaitScriptDoes(b, triggers, HookTask(Mine, task), now);
  }

  lemma LinkScriptDoes(b: Books, source: Id, target: Id, now: bool)
    ensures Finish(b, LinkScript(source, target), now).books == LinkBehind(b, source, target, now)
  {
    hide Then, Awaiting;
    var last := Hook(Mine, Of(target), true);
    FinishFirst(b, Lift(Of(target)), AwaitScript([source], last), None, None, false, now);
    AwaitScriptDoes(Then(b, Raise(target), now), [source], last, now);
  }

  lemma DropScriptDoes(b: Books, flow: Option<Id>, now: bool)
    ensures Finish(b, DropScript(flow), now) == Part(DropFlow(b, flow, now), None)
  {
    hide Then;
    if flow.Some? {
      FinishFirst(b, Lower(Of(flow.value)), [], None, None, false, now);
    }
  }

  // ---------------------------------------------------------------- why the counter starts at one

  /** Were the setup count let go of before the first prerequisite is added, other threads could
      trigger the counter at once, and raising it for the prerequisite would fail its assertion. */
  lemma SetupCountIsNeeded(b: Books)
    requires Balanced(b)
    ensures var p := |b.held|; var s := FreshReady(b, false).state;
      && Enabled(s, Do(Decrement(p)), true) && CanApply(s, Do(Decrement(p)))
      && var u := Apply(s, Do(Decrement(p)));
         && Enabled(u, Fire(p), true) && Apply(u, Fire(p)).net[p].triggered
         && !Permitted(FreshReady(b, false).(state := Apply(u, Fire(p))), OpOf(Lift(Mine), Some(p)))
  {
    CreateConserves(b.state, 1);
  }

  /** No script that does so is sound, whatever it does next. */
  lemma LettingGoEarlyIsUnsound(tail: seq<Instr>)
    ensures !Sound([Make] + ([Lower(Mine)] + ([Lift(Mine)] + tail)), None, false)
  {
    hide Sound, Need;
    SoundFirst(Make, [Lower(Mine)] + ([Lift(Mine)] + tail), None, false);
    SoundFirst(Lower(Mine), [Lift(Mine)] + tail, None, true);
    SoundFirst(Lift(Mine), tail, None, true);
    NeedFirst(Lift(Mine), tail, None, Mine);
    NeedFirst(Lower(Mine), [Lift(Mine)] + tail, None, Mine);
  }
}
