/**
  Pending operations in a running program: every submitted task is launched exactly once,
  and never before all its triggers have triggered.
  */
module TaskLaunches {
  import opened CounterNet
  import opened Dispatches
  import opened FlowOrder
  import opened Options
  import opened Scripts
  import opened TaskGraph
  import opened TaskInvariants
  import opened UseHistories
  import opened UseProtocol
  import opened Waiting
  import P = ProgramOrder

  // ---------------------------------------------------------------- steps that attach nothing

  /** Nothing was attached, and no launch was put into or taken out of a queue. */
  ghost predicate Quiet(s: State, t: State) {
    && |s.net| <= |t.net|
    && (forall i :: 0 <= i < |s.net| ==>
          t.net[i].actions == s.net[i].actions && t.net[i].triggered == s.net[i].triggered)
    && (forall i :: |s.net| <= i < |t.net| ==> t.net[i].actions == [])
    && (forall n: nat :: t.work[Launch(n)] == s.work[Launch(n)])
  }

  lemma QuietKeepsLaunches(s: State, t: State, n: nat)
    requires Quiet(s, t)
    ensures Launches(t, n) == Launches(s, n)
  {
    SameLaunches(s.net, t.net, n);
  }

  lemma QuietItself(s: State)
    ensures Quiet(s, s)
  {
  }

  predicate Hooks(i: Instr) {
    i.Hook? || i.HookTask?
  }

  lemma StepQuiet(b: Books, j: Job)
    requires j.todo == [] || !Hooks(j.todo[0])
    ensures Quiet(b.state, StepBooks(b, j).state)
  {
  }

  /** Plain uses wire up nothing. */
  lemma PlainHooksNothing(b: Books, k: Claim)
    requires Consistent(b, k) && IsPlain(k.request)
    ensures JobOf(k).todo == [] || !Hooks(JobOf(k).todo[0])
  {
    InOneGo(b, k);
    hide Consistent;
    if k.job.todo == [] {
      if InPlace(k) {
        ReleaseHooksNothing(k);
      } else {
        hide Script;
        ScriptIs(k);
        PlainScript(k);
      }
    }
  }

  lemma ReleaseHooksNothing(k: Claim)
    requires InPlace(k) && !k.use.aliases
    ensures Script(k).todo == [] || !Hooks(Script(k).todo[0])
  {
  }

  lemma PlainScript(k: Claim)
    requires IsPlain(k.request) && !InPlace(k)
    ensures Script(k).todo == [] || !Hooks(Script(k).todo[0])
  {
  }

  // ---------------------------------------------------------------- the script of a submission

  /** The hooks of a submission hang its counter on the triggers, and the launch comes last. */
  predicate SubmitsAt(triggers: seq<Id>, task: nat, todo: seq<Instr>, i: nat)
    requires i < |todo|
  {
    && (todo[i].Hook? ==> todo[i].target == Mine && !todo[i].deferred && todo[i].on.Of? && todo[i].on.id in triggers)
    && (todo[i].HookTask? <==> i == |todo| - 1)
    && (todo[i].HookTask? ==> todo[i] == HookTask(Mine, task))
    && (todo[i].Make? ==> i == 0)
  }

  lemma {:induction false} DependScriptHooks(triggers: seq<Id>)
    ensures forall i :: 0 <= i < |DependScript(triggers)| ==>
      var x := DependScript(triggers)[i];
      x == Lift(Mine) || (x.Hook? && x.target == Mine && !x.deferred && x.on.Of? && x.on.id in triggers)
    ensures forall c :: c in triggers ==> Hook(Of(c), Mine, false) in DependScript(triggers)
  {
    if triggers != [] {
      DependScriptHooks(triggers[1..]);
      var first, rest := [Lift(Mine), Hook(Of(triggers[0]), Mine, false)], DependScript(triggers[1..]);
      assert DependScript(triggers) == first + rest;
      forall c | c in triggers ensures Hook(Of(c), Mine, false) in DependScript(triggers) {
        if c == triggers[0] {
          assert first[1] == Hook(Of(c), Mine, false);
        } else {
          assert c in triggers[1..];
        }
      }
    }
  }

  lemma SubmitScriptShape(triggers: seq<Id>, task: nat)
    ensures var todo := SubmitScript(triggers, task).todo;
      && |todo| >= 2 && (forall i :: 0 <= i < |todo| ==> SubmitsAt(triggers, task, todo, i))
      && (forall c :: c in triggers ==> exists i :: 0 <= i < |todo| - 1 && todo[i] == Hook(Of(c), Mine, false))
  {
    var todo, depend := SubmitScript(triggers, task).todo, DependScript(triggers);
    DependScriptHooks(triggers);
    forall i | 0 <= i < |todo| ensures SubmitsAt(triggers, task, todo, i) {
      assert 1 <= i < |depend| + 1 ==> todo[i] == depend[i - 1];
    }
    forall c | c in triggers ensures exists i :: 0 <= i < |todo| - 1 && todo[i] == Hook(Of(c), Mine, false) {
      var k :| 0 <= k < |depend| && depend[k] == Hook(Of(c), Mine, false);
      assert todo[k + 1] == depend[k];
    }
  }

  // ---------------------------------------------------------------- the invariant

  /** No flow of a use has this counter. */
  ghost predicate NoFlow(claims: seq<Claim>, p: Id) {
    forall i :: 0 <= i < |claims| ==> NotIts(claims[i], p)
  }

  predicate NotIts(k: Claim, p: Id) {
    && k.use.inFlow != Some(p) && k.use.antiInFlow != Some(p) && k.use.outFlow != Some(p)
    && k.use.antiOutFlow != Some(p) && k.job.mine != Some(p)
  }

  function SubmissionOf(w: World, t: nat): Job {
    SubmitScript(Triggers(w.sys.claims, w.infos, t), t)
  }

  /** What has been done to submit task `t`: its counter belongs to no flow, and waits for
      each trigger that has been added. */
  ghost predicate SetupAt(w: World, t: nat)
    requires t < |w.sys.setups|
  {
    var s, j := w.sys.books.state, w.sys.setups[t];
    && Underway(j, SubmissionOf(w, t)) && HooksHold(s, DoneOf(j, SubmissionOf(w, t)), j.mine)
    && (t < |w.sys.setups| - 1 ==> j.todo == [])
    && (j.mine.Some? ==> j.mine.value < |s.net| && NoFlow(w.sys.claims, j.mine.value))
  }

  predicate Apart(setups: seq<Job>, t: nat, u: nat)
    requires t < |setups| && u < |setups|
  {
    t != u && setups[t].mine.Some? ==> setups[t].mine != setups[u].mine
  }

  ghost predicate SetupsOk(w: World) {
    && |w.sys.setups| == w.front && |w.infos| == |w.sys.claims|
    && (forall t :: 0 <= t < |w.sys.setups| ==> SetupAt(w, t))
    && (forall t, u :: 0 <= t < |w.sys.setups| && 0 <= u < |w.sys.setups| ==> Apart(w.sys.setups, t, u))
  }

  predicate IsSetUp(w: World, t: nat) {
    t < |w.sys.setups| && w.sys.setups[t].todo == []
  }

  /** A counter that carries a launch is that of the pending operation, carries nothing else,
      and is set up. */
  ghost predicate LaunchAt(w: World, p: Id)
    requires p < |w.sys.books.state.net|
  {
    var actions := w.sys.books.state.net[p].actions;
    forall t: nat :: Launch(t) in actions ==>
      actions == [Launch(t)] && IsSetUp(w, t) && w.sys.setups[t].mine == Some(p)
  }

  predicate AwaitedBy(w: World, t: nat, p: Id, c: Id) {
    t < |w.sys.setups| && w.sys.setups[t].mine == Some(p) && IsTrigger(w, t, c)
  }

  /** Otherwise counters carry decrements of pending operations that wait for them. */
  ghost predicate AttachedAt(w: World, i: Id)
    requires i < |w.sys.books.state.net|
  {
    forall a :: a in w.sys.books.state.net[i].actions && !a.Launch? ==>
      a.Decrement? && exists t: nat :: AwaitedBy(w, t, a.target, i)
  }

  /** The task is submitted, and no worker has taken it. */
  predicate Pending(program: seq<P.Task>, w: World, t: nat) {
    IsSetUp(w, t) && t < |w.exec.status| && w.exec.status[t] == P.Waiting
  }

  ghost predicate LaunchesOk(program: seq<P.Task>, w: World) {
    var s := w.sys.books.state;
    && (forall p: Id :: p < |s.net| ==> LaunchAt(w, p))
    && (forall i: Id :: i < |s.net| ==> AttachedAt(w, i))
    && (forall t: nat :: Launch(t) in s.work ==> IsSetUp(w, t) && TriggersFired(w, t))
    && (forall t: nat :: Launches(s, t) == if Pending(program, w, t) then 1 else 0)
    && (forall t: nat :: t < |w.exec.status| && w.exec.status[t] != P.Waiting ==> IsSetUp(w, t))
  }

  // ---------------------------------------------------------------- triggers do not change

  ghost predicate SameTriggers(v: World, w: World) {
    forall t: nat :: t < v.front ==> Triggers(v.sys.claims, v.infos, t) == Triggers(w.sys.claims, w.infos, t)
  }

  lemma {:induction false} TriggersComplete(claims: seq<Claim>, infos: seq<Info>, t: nat, c: Id)
    requires |claims| == |infos|
    ensures c in Triggers(claims, infos, t) <==>
            exists i :: 0 <= i < |infos| && Accesses(infos[i], t) && TriggerOf(claims[i], c)
  {
    if claims != [] {
      var n := |claims| - 1;
      TriggersComplete(claims[..n], infos[..n], t, c);
      var own := if Accesses(infos[n], t)
                 then AsSeq(claims[n].use.inFlow) +
                     if claims[n].use.antiDependency then AsSeq(claims[n].use.antiInFlow) else []
                 else [];
      assert Triggers(claims, infos, t) == Triggers(claims[..n], infos[..n], t) + own;
      assert c in own <==> Accesses(infos[n], t) && TriggerOf(claims[n], c);
      assert forall i :: 0 <= i < n ==> infos[..n][i] == infos[i] && claims[..n][i] == claims[i];
    }
  }

  lemma IsTriggerIsIn(w: World, t: nat, c: Id)
    requires |w.infos| == |w.sys.claims|
    ensures IsTrigger(w, t, c) <==> c in Triggers(w.sys.claims, w.infos, t)
  {
    TriggersComplete(w.sys.claims, w.infos, t, c);
  }

  lemma SameTriggersAreTriggers(v: World, w: World)
    requires SameTriggers(v, w) && |v.infos| == |v.sys.claims| && |w.infos| == |w.sys.claims|
    ensures forall t: nat, c: Id :: t < v.front ==> (IsTrigger(v, t, c) <==> IsTrigger(w, t, c))
  {
    forall t: nat, c: Id | t < v.front ensures IsTrigger(v, t, c) <==> IsTrigger(w, t, c) {
      IsTriggerIsIn(v, t, c);
      IsTriggerIsIn(w, t, c);
    }
  }

  lemma {:induction false} TriggersStay(claims: seq<Claim>, after: seq<Claim>, infos: seq<Info>, t: nat)
    requires |claims| == |after| == |infos|
    requires forall i :: 0 <= i < |infos| && Accesses(infos[i], t) ==> after[i].use == claims[i].use
    ensures Triggers(claims, infos, t) == Triggers(after, infos, t)
  {
    if claims != [] {
      TriggersStay(claims[..|claims| - 1], after[..|claims| - 1], infos[..|claims| - 1], t);
    }
  }

  /** The counters of a submission are no flows. */
  lemma NoFlowNoTrigger(w: World, t: nat, c: Id)
    requires IsTrigger(w, t, c)
    ensures !NoFlow(w.sys.claims, c)
  {
    var i :| 0 <= i < |w.infos| && i < |w.sys.claims| && Accesses(w.infos[i], t) && TriggerOf(w.sys.claims[i], c);
    assert !NotIts(w.sys.claims[i], c);
  }

  /** A counter whose submission has come to the launch waits for all triggers. */
  lemma SetUpWaits(w: World, t: nat, c: Id)
    requires SetupsOk(w) && t < |w.sys.setups| && |w.sys.setups[t].todo| <= 1 && IsTrigger(w, t, c)
    ensures w.sys.setups[t].mine.Some? && Waits(w.sys.books.state, w.sys.setups[t].mine.value, c)
  {
    hide Waits, NoFlow, Triggers, SubmitScript, IsTrigger;
    assert SetupAt(w, t);
    IsTriggerIsIn(w, t, c);
    SubmitScriptShape(Triggers(w.sys.claims, w.infos, t), t);
    var script := SubmissionOf(w, t);
    var done := DoneOf(w.sys.setups[t], script);
    var i :| 0 <= i < |script.todo| - 1 && script.todo[i] == Hook(Of(c), Mine, false);
    assert done[i] == script.todo[i];
  }

  // ---------------------------------------------------------------- steps that attach nothing keep the launches

  /** Submissions only move on, and what is set up stays as it is. */
  predicate SetupsGrow(v: World, w: World) {
    && |v.sys.setups| <= |w.sys.setups|
    && forall t :: 0 <= t < |v.sys.setups| ==>
         && (v.sys.setups[t].mine.Some? ==> w.sys.setups[t].mine == v.sys.setups[t].mine)
         && (v.sys.setups[t].todo == [] ==> w.sys.setups[t] == v.sys.setups[t])
  }

  ghost predicate SameTrigger(v: World, w: World) {
    forall t: nat, c: Id :: t < |v.sys.setups| ==> (IsTrigger(v, t, c) <==> IsTrigger(w, t, c))
  }

  lemma QuietAttachedAt(v: World, w: World, i: Id)
    requires i < |v.sys.books.state.net| && i < |w.sys.books.state.net| && AttachedAt(v, i)
    requires w.sys.books.state.net[i].actions == v.sys.books.state.net[i].actions
    requires SetupsGrow(v, w) && SameTrigger(v, w)
    ensures AttachedAt(w, i)
  {
    hide IsTrigger;
    var actions := w.sys.books.state.net[i].actions;
    forall a | a in actions && !a.Launch? ensures a.Decrement? && exists t: nat :: AwaitedBy(w, t, a.target, i) {
      var t: nat :| AwaitedBy(v, t, a.target, i);
      assert AwaitedBy(w, t, a.target, i);
    }
  }

  lemma TriggersStillFired(v: World, w: World, t: nat)
    requires TriggersFired(v, t) && SameTrigger(v, w) && t < |v.sys.setups|
    requires Keeps(v.sys.books.state, w.sys.books.state)
    ensures TriggersFired(w, t)
  {
    hide IsTrigger, Fired;
  }

  /** Steps that attach nothing and finish no submission keep the launches in order. */
  lemma QuietStep(program: seq<P.Task>, v: World, w: World)
    requires LaunchesOk(program, v) && SetupsGrow(v, w) && SameTrigger(v, w)
    requires Quiet(v.sys.books.state, w.sys.books.state) && Keeps(v.sys.books.state, w.sys.books.state)
    requires forall t: nat :: Pending(program, v, t) == Pending(program, w, t)
    requires forall t: nat :: t < |w.exec.status| && w.exec.status[t] != P.Waiting ==>
               t < |v.exec.status| && v.exec.status[t] != P.Waiting
    ensures LaunchesOk(program, w)
  {
    var s, u := v.sys.books.state, w.sys.books.state;
    hide Keeps, IsTrigger, Launches, AttachedAt, SameTrigger, TriggersFired, Pending;
    forall p: Id | p < |u.net| ensures LaunchAt(w, p) {
      assert p < |s.net| ==> LaunchAt(v, p);
    }
    forall i: Id | i < |u.net| ensures AttachedAt(w, i) {
      if i < |s.net| {
        QuietAttachedAt(v, w, i);
      } else {
        NothingAttached(w, i);
      }
    }
    forall t: nat | Launch(t) in u.work ensures IsSetUp(w, t) && TriggersFired(w, t) {
      assert Launch(t) in s.work;
      TriggersStillFired(v, w, t);
    }
    forall t: nat ensures Launches(u, t) == if Pending(program, w, t) then 1 else 0 {
      QuietKeepsLaunches(s, u, t);
    }
  }

  lemma NothingAttached(w: World, i: Id)
    requires i < |w.sys.books.state.net| && w.sys.books.state.net[i].actions == []
    ensures AttachedAt(w, i)
  {
  }

  /** A submission that nobody works on stays in shape. */
  lemma SetupStays(v: World, w: World, t: nat)
    requires SetupsOk(v) && t < |v.sys.setups| <= |w.sys.setups| && w.sys.setups[t] == v.sys.setups[t]
    requires SubmissionOf(v, t) == SubmissionOf(w, t) && Keeps(v.sys.books.state, w.sys.books.state)
    requires |v.sys.books.state.net| <= |w.sys.books.state.net|
    requires v.sys.setups[t].mine.Some? && NoFlow(v.sys.claims, v.sys.setups[t].mine.value) ==>
               NoFlow(w.sys.claims, v.sys.setups[t].mine.value)
    requires t < |w.sys.setups| - 1 ==> v.sys.setups[t].todo == []
    ensures SetupAt(w, t)
  {
    hide Underway, HooksHold, SubmissionOf, NoFlow, Keeps;
    assert SetupAt(v, t);
    HooksStillHold(v.sys.books.state, w.sys.books.state, DoneOf(v.sys.setups[t], SubmissionOf(v, t)),
        v.sys.setups[t].mine);
  }

  ghost predicate FreshFlows(v: World, w: World) {
    forall p: Id :: p < |v.sys.books.state.net| && NoFlow(v.sys.claims, p) ==> NoFlow(w.sys.claims, p)
  }

  /** Steps that have nothing to do with submissions keep them in shape. */
  lemma SetupsStay(v: World, w: World)
    requires SetupsOk(v) && SameTriggers(v, w) && FreshFlows(v, w) && w.sys.setups == v.sys.setups
    requires w.front == v.front && |w.infos| == |w.sys.claims|
    requires Keeps(v.sys.books.state, w.sys.books.state) && |v.sys.books.state.net| <= |w.sys.books.state.net|
    ensures SetupsOk(w) && SetupsGrow(v, w) && SameTrigger(v, w)
  {
    SameTriggersAreTriggers(v, w);
    hide NoFlow, Keeps, IsTrigger;
    forall t | 0 <= t < |w.sys.setups| ensures SetupAt(w, t) {
      assert SetupAt(v, t);
      SetupStays(v, w, t);
    }
    forall t, u | 0 <= t < |w.sys.setups| && 0 <= u < |w.sys.setups| ensures Apart(w.sys.setups, t, u) {
      assert Apart(v.sys.setups, t, u);
    }
  }

  // ---------------------------------------------------------------- captures, registrations, releases

  lemma CaptureKeepsLaunches(program: seq<P.Task>, w: World, role: Role, h: Handle)
    requires LaunchesOk(program, w) && SetupsOk(w)
    ensures var t := Happen(program, w, Capture(role, h));
      LaunchesOk(program, t) && SetupsOk(t) && SameTriggers(w, t)
  {
    var t := Happen(program, w, Capture(role, h));
    var n := |w.infos|;
    QuietItself(w.sys.books.state);
    KeepsItself(w.sys.books.state);
    assert t.infos[..n] == w.infos && t.sys.claims[..n] == w.sys.claims;
    assert SameTriggers(w, t);
    hide LaunchesOk, Keeps, Quiet, SetupsOk, Triggers;
    SetupsStay(w, t);
    QuietStep(program, w, t);
  }

  /** Where the flows of a use come from. */
  lemma PartFlows(b: Books, k: Claim, p: Id)
    requires Consistent(b, k) && IsPlain(k.request) && NotIts(k, p) && p < |b.held|
    requires k.request.inRel.Named() != Some(p) && k.request.antiInRel.Named() != Some(p)
    requires k.request.antiOutRel.Named() != Some(p)
    requires k.request.antiOutRel.kind == Same ==> !k.request.antiOutRel.inAsRelated
    ensures NotIts(NextClaim(k, |b.held|), p)
  {
    if InPlace(k) {
      ReleaseKeepsUse(b, k, |b.held|);
    } else {
      InOneGo(b, k);
      NextIs(b, k, |b.held|);
      hide NextClaim, Consistent;
    }
  }

  lemma RequestIsPlain(infos: seq<Info>, claims: seq<Claim>, i: nat, p: Id)
    requires i < |infos| == |claims| && ClaimFits(infos, claims, i)
    ensures IsPlain(claims[i].request)
    ensures NoFlow(claims, p) ==>
              var r := claims[i].request;
              && NotIts(claims[i], p) && r.inRel.Named() != Some(p) && r.antiInRel.Named() != Some(p)
              && r.antiOutRel.Named() != Some(p) && (r.antiOutRel.kind == Same ==> !r.antiOutRel.inAsRelated)
  {
    hide UseFits;
    if NoFlow(claims, p) {
      assert infos[i].role != Opening ==> NotIts(claims[infos[i].prev], p);
    }
  }

  /** The next operation of a registration or a release. */
  lemma AdvanceKeepsLaunches(program: seq<P.Task>, w: World, i: nat)
    requires LaunchesOk(program, w) && SetupsOk(w) && ClaimsOk(w.infos, w.sys.claims) && i < |w.sys.claims|
    requires Ordered(w.sys) && Obeys(w.sys, Advance(i))
    requires InPlace(w.sys.claims[i]) || w.infos[i].task >= w.front
    ensures var t := w.(sys := After(w.sys, Advance(i)));
      LaunchesOk(program, t) && SetupsOk(t) && SameTriggers(w, t)
  {
    var t := w.(sys := After(w.sys, Advance(i)));
    var b, k := w.sys.books, w.sys.claims[i];
    assert ClaimFits(w.infos, w.sys.claims, i) && Consistent(b, k);
    RequestIsPlain(w.infos, w.sys.claims, i, 0);
    PlainHooksNothing(b, k);
    SameSize(b);
    EventKeepsOrder(w.sys, Advance(i));
    SameSize(t.sys.books);
    hide LaunchesOk, SetupsOk, Keeps, Quiet, ClaimFits, IsPlain, Consistent, NextClaim, StepBooks, JobOf, Balanced;
    hide Ordered, Obeys, Triggers;
    StepQuiet(b, JobOf(k));
    if InPlace(k) {
      ReleaseKeepsUse(b, k, |b.held|);
    }
    forall u: nat | u < w.front
      ensures Triggers(w.sys.claims, w.infos, u) == Triggers(t.sys.claims, t.infos, u)
    {
      TriggersStay(w.sys.claims, t.sys.claims, w.infos, u);
    }
    forall p: Id | p < |b.state.net| && NoFlow(w.sys.claims, p) ensures NoFlow(t.sys.claims, p) {
      RequestIsPlain(w.infos, w.sys.claims, i, p);
      PartFlows(b, k, p);
    }
    SetupsStay(w, t);
    QuietStep(program, w, t);
  }

  // ---------------------------------------------------------------- submissions

  lemma SubmitKeepsLaunches(program: seq<P.Task>, w: World)
    requires LaunchesOk(program, w) && SetupsOk(w) && Can(program, w, Happening.Submit)
    ensures var t := Happen(program, w, Happening.Submit);
      LaunchesOk(program, t) && SetupsOk(t) && SameTriggers(w, t)
  {
    var t := Happen(program, w, Happening.Submit);
    KeepsItself(w.sys.books.state);
    QuietItself(w.sys.books.state);
    hide LaunchesOk, Keeps, Quiet, Triggers, NoFlow, IsTrigger;
    var script := SubmissionOf(w, w.front);
    SubmitScriptShape(Triggers(w.sys.claims, w.infos, w.front), w.front);
    SubmitStartsFresh(Triggers(w.sys.claims, w.infos, w.front), w.front);
    hide SubmitScript;
    forall u | 0 <= u < |t.sys.setups| ensures SetupAt(t, u) {
      if u < w.front {
        SetupStays(w, t, u);
      } else {
        assert script.todo[0..] == script.todo;
      }
    }
    forall u, v | 0 <= u < |t.sys.setups| && 0 <= v < |t.sys.setups| ensures Apart(t.sys.setups, u, v) {
      assert u < w.front && v < w.front ==> Apart(w.sys.setups, u, v);
    }
    assert SameTrigger(w, t) by {
      SameTriggersAreTriggers(w, t);
    }
    QuietStep(program, w, t);
  }

  lemma SubmitStartsFresh(triggers: seq<Id>, task: nat)
    ensures SubmitScript(triggers, task).mine == None
  {
  }

  /** What the next operation of the last submission changes. */
  ghost predicate Assembled(v: World, w: World) {
    var n := |v.sys.setups| - 1;
    && n >= 0 && v.sys.setups[n].todo != []
    && Balanced(v.sys.books) && JobOk(v.sys.books, v.sys.setups[n])
    && w == v.(sys := v.sys.(books := StepBooks(v.sys.books, v.sys.setups[n]),
                             setups := v.sys.setups[n := Stepped(v.sys.setups[n], |v.sys.books.held|)]))
  }

  lemma AssembleIsAssembled(program: seq<P.Task>, w: World)
    requires Conserved(w.sys) && Can(program, w, Happening.Assemble)
    ensures Assembled(w, Happen(program, w, Happening.Assemble))
  {
    hide Balanced, JobOk;
    assert SetupOk(w.sys.books, w.sys.setups[|w.sys.setups| - 1]);
  }

  lemma AssembledSetup(v: World, w: World)
    requires Assembled(v, w) && SetupsOk(v)
    requires forall i :: 0 <= i < |v.sys.claims| ==> NotIts(v.sys.claims[i], |v.sys.books.held|)
    ensures SetupAt(w, |w.sys.setups| - 1) && Keeps(v.sys.books.state, w.sys.books.state)
    ensures |v.sys.books.state.net| <= |w.sys.books.state.net|
  {
    var n := |v.sys.setups| - 1;
    var b, j := v.sys.books, v.sys.setups[n];
    var script := SubmissionOf(v, n);
    assert SetupAt(v, n);
    StepHooks(b, j, script);
    StepGrows(b, j);
    hide Balanced, HooksHold, StepBooks, NoFlow, SubmitScript, JobOk, Keeps;
    assert NoFlow(v.sys.claims, |b.held|) by {
      NoFlowWhenNone(v.sys.claims, |b.held|);
    }
    assert SubmissionOf(w, n) == script;
    assert j.todo[0] == script.todo[|script.todo| - |j.todo|];
  }

  lemma NoFlowWhenNone(claims: seq<Claim>, p: Id)
    requires forall i :: 0 <= i < |claims| ==> NotIts(claims[i], p)
    ensures NoFlow(claims, p)
  {
  }

  lemma StepGrows(b: Books, j: Job)
    requires Balanced(b) && j.todo != []
    ensures |StepBooks(b, j).state.net| == |b.held| + if j.todo[0].Make? then 1 else 0
  {
  }

  lemma AssembleKeepsSetups(v: World, w: World)
    requires Assembled(v, w) && SetupsOk(v) && Conserved(v.sys)
    ensures SetupsOk(w) && SameTrigger(v, w) && SetupsGrow(v, w) && Keeps(v.sys.books.state, w.sys.books.state)
  {
    var n := |v.sys.setups| - 1;
    forall i | 0 <= i < |v.sys.claims| ensures NotIts(v.sys.claims[i], |v.sys.books.held|) {
      assert Consistent(v.sys.books, v.sys.claims[i]);
      ClaimIsInRange(v.sys.books, v.sys.claims[i]);
    }
    SameSize(v.sys.books);
    hide Conserved, NoFlow, NotIts, Assembled, Keeps, StepBooks, SubmitScript, Triggers, IsTrigger, HooksHold, Underway;
    AssembledSetup(v, w);
    MadeIsNew(v, w);
    AssembledOthers(v, w);
    forall t | 0 <= t < |w.sys.setups| ensures SetupAt(w, t) {
      if t < n {
        assert SetupAt(v, t);
        SetupStays(v, w, t);
      }
    }
    SameTriggersAreTriggers(v, w);
  }

  lemma ClaimIsInRange(b: Books, k: Claim)
    requires Consistent(b, k)
    ensures NotIts(k, |b.held|)
  {
    hide Sound, Makes, NoLifts, Underway, Suits, Script;
  }

  lemma AssembledOthers(v: World, w: World)
    requires Assembled(v, w)
    ensures |w.sys.setups| == |v.sys.setups| && forall t :: 0 <= t < |v.sys.setups| - 1 ==>
              w.sys.setups[t] == v.sys.setups[t]
    ensures w.infos == v.infos && w.sys.claims == v.sys.claims && w.front == v.front && w.exec == v.exec
    ensures v.sys.setups[|v.sys.setups| - 1].todo != []
    ensures w.sys.books == StepBooks(v.sys.books, v.sys.setups[|v.sys.setups| - 1])
  {
  }

  /** The counter of a submission is no counter of another one. */
  lemma MadeIsNew(v: World, w: World)
    requires Assembled(v, w) && SetupsOk(v) && |v.sys.books.held| == |v.sys.books.state.net|
    ensures forall t, u :: 0 <= t < |w.sys.setups| && 0 <= u < |w.sys.setups| ==> Apart(w.sys.setups, t, u)
    ensures SetupsGrow(v, w)
  {
    var n := |v.sys.setups| - 1;
    hide HooksHold, Underway, NoFlow, StepBooks, Balanced;
    var j := v.sys.setups[n];
    assert JobOk(v.sys.books, j);
    forall t, u | 0 <= t < |w.sys.setups| && 0 <= u < |w.sys.setups| ensures Apart(w.sys.setups, t, u) {
      assert Apart(v.sys.setups, t, u) && SetupAt(v, t) && SetupAt(v, u);
    }
  }

  // ---------------------------------------------------------------- what a submission attaches

  /** The next instruction is one of the script: a hook goes onto a trigger, and the launch
      comes last. */
  lemma AssembledInstr(v: World)
    requires SetupsOk(v) && v.sys.setups != [] && v.sys.setups[|v.sys.setups| - 1].todo != []
    ensures var n := |v.sys.setups| - 1; var todo := v.sys.setups[n].todo;
      && (todo[0].Hook? ==>
            todo[0].target == Mine && !todo[0].deferred && todo[0].on.Of? && IsTrigger(v, n, todo[0].on.id))
      && (todo[0].HookTask? ==> todo[0] == HookTask(Mine, n))
      && (todo[0].HookTask? <==> |todo| == 1)
  {
    var n := |v.sys.setups| - 1;
    var triggers, todo := Triggers(v.sys.claims, v.infos, n), v.sys.setups[n].todo;
    var script := SubmitScript(triggers, n).todo;
    hide Triggers, NoFlow, HooksHold, IsTrigger;
    assert SetupAt(v, n);
    SubmitScriptShape(triggers, n);
    hide SubmitScript;
    var i := |script| - |todo|;
    assert todo[0] == script[i] && SubmitsAt(triggers, n, script, i);
    if todo[0].Hook? {
      IsTriggerIsIn(v, n, todo[0].on.id);
    }
  }

  lemma AssembledNext(v: World, w: World)
    requires Assembled(v, w)
    ensures w.sys.setups[|v.sys.setups| - 1].todo == v.sys.setups[|v.sys.setups| - 1].todo[1..]
  {
    hide Balanced, JobOk, StepBooks;
  }

  /** An operation that attaches nothing. */
  lemma AssembleQuietly(program: seq<P.Task>, v: World, w: World)
    requires LaunchesOk(program, v) && Assembled(v, w) && SetupsOk(v) && Conserved(v.sys)
    requires !Hooks(v.sys.setups[|v.sys.setups| - 1].todo[0])
    ensures LaunchesOk(program, w)
  {
    var n := |v.sys.setups| - 1;
    AssembledOthers(v, w);
    AssembledNext(v, w);
    hide LaunchesOk, SetupsOk, Assembled, Keeps, Quiet, Conserved, SameTrigger, IsTrigger, StepBooks;
    StepQuiet(v.sys.books, v.sys.setups[n]);
    AssembleKeepsSetups(v, w);
    AssembledInstr(v);
    assert w.sys.setups[n].todo != [];
    QuietStep(program, v, w);
  }

  /** From `s` to `t`, the action was attached to `c`, or put to work if that had triggered. */
  ghost predicate Attaches(s: State, t: State, c: Id, a: Action) {
    && |t.net| == |s.net| && c < |s.net|
    && (forall i: nat :: i < |s.net| ==> t.net[i].triggered == s.net[i].triggered)
    && (forall i: nat :: i < |s.net| && i != c ==> t.net[i].actions == s.net[i].actions)
    && t.net[c].actions == (if s.net[c].triggered then s.net[c].actions else s.net[c].actions + [a])
    && t.work == (if s.net[c].triggered then s.work + multiset{a} else s.work)
  }

  lemma HookAttaches(b: Books, j: Job)
    requires Balanced(b) && JobOk(b, j) && j.todo != [] && Hooks(j.todo[0])
    ensures OpOf(j.todo[0], j.mine).Attach?
    ensures var op := OpOf(j.todo[0], j.mine); Attaches(b.state, StepBooks(b, j).state, op.id, op.action)
    ensures j.mine.Some?
  {
    SameSize(b);
    assert InstrInRange(b, j.todo[0]);
  }

  lemma AttachesLaunches(s: State, t: State, c: Id, a: Action, n: nat)
    requires Attaches(s, t, c, a)
    ensures Launches(t, n) == Launches(s, n) + if a == Launch(n) then 1 else 0
  {
    LaunchesAttached(s.net, t.net, c, n);
    assert multiset(s.net[c].actions + [a]) == multiset(s.net[c].actions) + multiset{a};
  }

  lemma {:induction false} LaunchesAttached(a: seq<Counter>, b: seq<Counter>, c: Id, t: nat)
    requires |a| == |b| && c < |a| && forall i: nat :: i < |a| && i != c ==> b[i].actions == a[i].actions
    ensures LaunchesIn(b, t) + multiset(a[c].actions)[Launch(t)] == LaunchesIn(a, t) + multiset(b[c].actions)[Launch(t)]
  {
    var n := |a| - 1;
    if c < n {
      LaunchesAttached(a[..n], b[..n], c, t);
    } else {
      SameLaunches(a[..n], b[..n], t);
    }
  }

  lemma MineIsNoFlow(v: World, t: nat)
    requires SetupsOk(v) && t < |v.sys.setups| && v.sys.setups[t].mine.Some?
    ensures NoFlow(v.sys.claims, v.sys.setups[t].mine.value)
  {
    hide NoFlow, HooksHold, Underway;
    assert SetupAt(v, t);
  }

  /** A flow carries no launch. */
  lemma FlowsCarryNoLaunch(v: World, t: nat, c: Id, u: nat)
    requires SetupsOk(v) && IsTrigger(v, t, c) && c < |v.sys.books.state.net| && LaunchAt(v, c)
    ensures Launch(u) !in v.sys.books.state.net[c].actions
  {
    hide NoFlow, IsTrigger, SetupsOk;
    NoFlowNoTrigger(v, t, c);
    if u < |v.sys.setups| && v.sys.setups[u].mine.Some? {
      MineIsNoFlow(v, u);
    }
  }

  lemma AssembledAttaches(v: World, w: World)
    requires Assembled(v, w) && Hooks(v.sys.setups[|v.sys.setups| - 1].todo[0])
    ensures var j := v.sys.setups[|v.sys.setups| - 1]; var op := OpOf(j.todo[0], j.mine);
      op.Attach? && j.mine.Some? && Attaches(v.sys.books.state, w.sys.books.state, op.id, op.action)
    ensures w.sys.setups[|v.sys.setups| - 1].mine == v.sys.setups[|v.sys.setups| - 1].mine
    ensures w.sys.setups[|v.sys.setups| - 1].todo == v.sys.setups[|v.sys.setups| - 1].todo[1..]
  {
    hide Balanced, JobOk, StepBooks, Attaches;
    HookAttaches(v.sys.books, v.sys.setups[|v.sys.setups| - 1]);
  }

  /** A prerequisite is added. */
  lemma AssembleHook(program: seq<P.Task>, v: World, w: World)
    requires LaunchesOk(program, v) && Assembled(v, w) && SetupsOk(v) && Conserved(v.sys)
    requires v.sys.setups[|v.sys.setups| - 1].todo[0].Hook?
    ensures LaunchesOk(program, w)
  {
    var j := v.sys.setups[|v.sys.setups| - 1];
    AssembledAttaches(v, w);
    AssembledOthers(v, w);
    hide LaunchesOk, SetupsOk, Assembled, Keeps, Conserved, IsTrigger, StepBooks, SameTrigger, Attaches;
    AssembleKeepsSetups(v, w);
    AssembledInstr(v);
    HookKeepsLaunches(program, v, w, j.todo[0].on.id, j.mine.value);
  }

  lemma HookKeepsLaunches(program: seq<P.Task>, v: World, w: World, c: Id, p: Id)
    requires LaunchesOk(program, v) && SetupsOk(v) && v.sys.setups != [] && v.exec == w.exec
    requires SetupsGrow(v, w) && SameTrigger(v, w) && Keeps(v.sys.books.state, w.sys.books.state)
    requires Attaches(v.sys.books.state, w.sys.books.state, c, Decrement(p))
    requires var n := |v.sys.setups| - 1;
      && |w.sys.setups| == n + 1 && w.sys.setups[n].mine == Some(p) && IsTrigger(v, n, c)
      && v.sys.setups[n].todo != [] && w.sys.setups[n].todo != []
      && forall t :: 0 <= t < n ==> w.sys.setups[t] == v.sys.setups[t]
    ensures LaunchesOk(program, w)
  {
    var n := |v.sys.setups| - 1;
    var s, u := v.sys.books.state, w.sys.books.state;
    hide SetupsOk, Keeps, IsTrigger, TriggersFired, AttachedAt, LaunchAt, Launches, SameTrigger, Attaches;
    forall q: Id | q < |u.net| ensures LaunchAt(w, q) && AttachedAt(w, q) {
      AttachesInRange(s, u, c, Decrement(p));
      HookedLaunchAt(v, w, n, c, p, q);
      HookedAt(v, w, n, c, p, q);
    }
    forall t: nat | Launch(t) in u.work ensures IsSetUp(w, t) && TriggersFired(w, t) {
      AttachesWork(s, u, c, Decrement(p), t);
      TriggersStillFired(v, w, t);
    }
    forall t: nat ensures Launches(u, t) == if Pending(program, w, t) then 1 else 0 {
      AttachesLaunches(s, u, c, Decrement(p), t);
      assert Pending(program, v, t) == Pending(program, w, t);
    }
  }

  lemma AttachesInRange(s: State, t: State, c: Id, a: Action)
    requires Attaches(s, t, c, a)
    ensures c < |s.net| == |t.net|
  {
  }

  lemma AttachesWork(s: State, t: State, c: Id, a: Action, n: nat)
    requires Attaches(s, t, c, a) && Launch(n) in t.work
    ensures Launch(n) in s.work || (a == Launch(n) && s.net[c].triggered)
  {
  }

  lemma HookedLaunchAt(v: World, w: World, n: nat, c: Id, p: Id, q: Id)
    requires Attaches(v.sys.books.state, w.sys.books.state, c, Decrement(p)) && q < |v.sys.books.state.net|
    requires SetupsOk(v) && LaunchAt(v, q) && SetupsGrow(v, w) && IsTrigger(v, n, c)
    ensures LaunchAt(w, q)
  {
    hide SetupsOk, IsTrigger;
    if q == c {
      forall t: nat ensures Launch(t) !in v.sys.books.state.net[c].actions {
        FlowsCarryNoLaunch(v, n, c, t);
      }
    }
  }

  lemma HookedAt(v: World, w: World, n: nat, c: Id, p: Id, i: Id)
    requires Attaches(v.sys.books.state, w.sys.books.state, c, Decrement(p)) && i < |v.sys.books.state.net|
    requires AttachedAt(v, i) && SetupsGrow(v, w) && SameTrigger(v, w)
    requires n < |v.sys.setups| && w.sys.setups[n].mine == Some(p) && IsTrigger(v, n, c)
    ensures AttachedAt(w, i)
  {
    hide IsTrigger;
    var actions := w.sys.books.state.net[i].actions;
    forall a | a in actions && !a.Launch? ensures a.Decrement? && exists t: nat :: AwaitedBy(w, t, a.target, i) {
      if a in v.sys.books.state.net[i].actions {
        var t: nat :| AwaitedBy(v, t, a.target, i);
        assert AwaitedBy(w, t, a.target, i);
      } else {
        assert AwaitedBy(w, n, p, c);
      }
    }
  }

  lemma MineCarriesNoLaunch(v: World, t: nat)
    requires SetupsOk(v) && v.sys.setups != []
    requires var j := v.sys.setups[|v.sys.setups| - 1];
      j.todo != [] && j.mine.Some? && j.mine.value < |v.sys.books.state.net| && LaunchAt(v, j.mine.value)
    ensures Launch(t) !in v.sys.books.state.net[v.sys.setups[|v.sys.setups| - 1].mine.value].actions
  {
    hide SetupAt;
    assert t < |v.sys.setups| ==> Apart(v.sys.setups, t, |v.sys.setups| - 1);
  }

  lemma NoFlowAwaited(v: World, p: Id)
    requires NoFlow(v.sys.claims, p) && p < |v.sys.books.state.net| && AttachedAt(v, p)
    ensures forall a :: a in v.sys.books.state.net[p].actions ==> a.Launch?
  {
    hide NoFlow, IsTrigger;
    forall t: nat ensures !IsTrigger(v, t, p) {
      if IsTrigger(v, t, p) {
        NoFlowNoTrigger(v, t, p);
      }
    }
  }

  /** Until the launch is attached the counter of a submission carries nothing. */
  lemma MineCarriesNothing(program: seq<P.Task>, v: World)
    requires LaunchesOk(program, v) && SetupsOk(v) && v.sys.setups != []
    requires var j := v.sys.setups[|v.sys.setups| - 1]; j.todo != [] && j.mine.Some?
    ensures var p := v.sys.setups[|v.sys.setups| - 1].mine.value;
      p < |v.sys.books.state.net| && v.sys.books.state.net[p].actions == []
  {
    hide NoFlow, IsTrigger, Launches, LaunchAt, AttachedAt, HooksHold, Underway, Triggers, SubmitScript;
    var n := |v.sys.setups| - 1;
    var p := v.sys.setups[n].mine.value;
    assert SetupAt(v, n);
    var actions := v.sys.books.state.net[p].actions;
    NoFlowAwaited(v, p);
    forall t: nat ensures Launch(t) !in actions {
      MineCarriesNoLaunch(v, t);
    }
    SomeAction(actions);
  }

  lemma SomeAction(actions: seq<Action>)
    ensures actions == [] || (exists a :: a in actions && !a.Launch?) || exists t: nat :: Launch(t) in actions
  {
    if actions != [] {
      var a := actions[0];
      if a.Launch? {
        assert Launch(a.task) in actions;
      } else {
        assert a in actions && !a.Launch?;
      }
    }
  }

  lemma LaunchedLaunchAt(v: World, w: World, n: nat, p: Id, q: Id)
    requires Attaches(v.sys.books.state, w.sys.books.state, p, Launch(n)) && q < |v.sys.books.state.net|
    requires LaunchAt(v, q) && SetupsGrow(v, w) && v.sys.books.state.net[p].actions == []
    requires IsSetUp(w, n) && w.sys.setups[n].mine == Some(p)
    ensures LaunchAt(w, q)
  {
  }

  /** The launch is attached: to a counter that carries nothing, or, if everything the task
      waits for has triggered meanwhile and the counter with it, put to work at once. */
  lemma AssembleLaunch(program: seq<P.Task>, v: World, w: World)
    requires LaunchesOk(program, v) && Assembled(v, w) && SetupsOk(v) && Conserved(v.sys)
    requires v.sys.setups[|v.sys.setups| - 1].todo[0].HookTask?
    requires |v.exec.status| > |v.sys.setups| - 1
    ensures LaunchesOk(program, w)
  {
    var n := |v.sys.setups| - 1;
    var j := v.sys.setups[n];
    AssembledAttaches(v, w);
    AssembledOthers(v, w);
    hide LaunchesOk, SetupsOk, Assembled, Keeps, Conserved, IsTrigger, TriggersFired, StepBooks, SameTrigger, Attaches;
    AssembleKeepsSetups(v, w);
    AssembledInstr(v);
    MineCarriesNothing(program, v);
    var p := j.mine.value;
    if v.sys.books.state.net[p].triggered {
      AllTriggersFired(v, w, n, p);
    }
    LaunchKeepsLaunches(program, v, w, p);
  }

  lemma LaunchKeepsLaunches(program: seq<P.Task>, v: World, w: World, p: Id)
    requires LaunchesOk(program, v) && v.sys.setups != [] && v.exec == w.exec
    requires SetupsGrow(v, w) && SameTrigger(v, w) && Keeps(v.sys.books.state, w.sys.books.state)
    requires p < |v.sys.books.state.net| && v.sys.books.state.net[p].actions == []
    requires var n := |v.sys.setups| - 1;
      && Attaches(v.sys.books.state, w.sys.books.state, p, Launch(n)) && n < |v.exec.status|
      && |w.sys.setups| == n + 1 && w.sys.setups[n].mine == Some(p)
      && v.sys.setups[n].todo != [] && w.sys.setups[n].todo == []
      && (forall t :: 0 <= t < n ==> w.sys.setups[t] == v.sys.setups[t])
      && (v.sys.books.state.net[p].triggered ==> TriggersFired(w, n))
    ensures LaunchesOk(program, w)
  {
    var n := |v.sys.setups| - 1;
    var s, u := v.sys.books.state, w.sys.books.state;
    hide Keeps, IsTrigger, TriggersFired, AttachedAt, LaunchAt, Launches, SameTrigger, Attaches;
    forall q: Id | q < |u.net| ensures LaunchAt(w, q) && AttachedAt(w, q) {
      AttachesInRange(s, u, p, Launch(n));
      LaunchedLaunchAt(v, w, n, p, q);
      LaunchAttachedAt(v, w, n, p, q);
    }
    forall t: nat | Launch(t) in u.work ensures IsSetUp(w, t) && TriggersFired(w, t) {
      AttachesWork(s, u, p, Launch(n), t);
      if Launch(t) in s.work {
        TriggersStillFired(v, w, t);
      }
    }
    forall t: nat ensures Launches(u, t) == if Pending(program, w, t) then 1 else 0 {
      AttachesLaunches(s, u, p, Launch(n), t);
      assert t != n ==> Pending(program, v, t) == Pending(program, w, t);
      assert !Pending(program, v, n) && Launches(s, n) == 0;
      assert v.exec.status[n] == P.Waiting;
    }
  }

  lemma AllTriggersFired(v: World, w: World, n: nat, p: Id)
    requires SetupsOk(v) && Conserved(v.sys) && n < |v.sys.setups| && |v.sys.setups[n].todo| <= 1
    requires v.sys.setups[n].mine == Some(p) && SameTrigger(v, w) && Keeps(v.sys.books.state, w.sys.books.state)
    requires p < |v.sys.books.state.net| && (v.sys.books.state.net[p].triggered || v.sys.books.state.net[p].count == 0)
    ensures TriggersFired(v, n) && TriggersFired(w, n)
  {
    hide SetupsOk, IsTrigger, Consistent, SetupOk, Keeps;
    forall c: Id | IsTrigger(v, n, c) ensures Fired(v.sys.books.state, c) {
      SetUpWaits(v, n, c);
      WaitsInOrder(v.sys.books.state, p, c);
    }
    TriggersStillFired(v, w, n);
  }

  lemma LaunchAttachedAt(v: World, w: World, n: nat, p: Id, i: Id)
    requires Attaches(v.sys.books.state, w.sys.books.state, p, Launch(n)) && i < |v.sys.books.state.net|
    requires AttachedAt(v, i) && SetupsGrow(v, w) && SameTrigger(v, w)
    ensures AttachedAt(w, i)
  {
    hide IsTrigger;
    var actions := w.sys.books.state.net[i].actions;
    forall a | a in actions && !a.Launch? ensures a.Decrement? && exists t: nat :: AwaitedBy(w, t, a.target, i) {
      var t: nat :| AwaitedBy(v, t, a.target, i);
      assert AwaitedBy(w, t, a.target, i);
    }
  }

  lemma AssembleKeepsLaunches(program: seq<P.Task>, w: World)
    requires LaunchesOk(program, w) && SetupsOk(w) && Conserved(w.sys) && Can(program, w, Happening.Assemble)
    requires |w.exec.status| >= w.front
    ensures var t := Happen(program, w, Happening.Assemble);
      LaunchesOk(program, t) && SetupsOk(t) && SameTriggers(w, t)
  {
    var t := Happen(program, w, Happening.Assemble);
    AssembleIsAssembled(program, w);
    AssembleKeepsSetups(w, t);
    assert |w.exec.status| > |w.sys.setups| - 1;
    hide LaunchesOk, SetupsOk, Conserved;
    match w.sys.setups[|w.sys.setups| - 1].todo[0]
    case Hook(_, _, _) => AssembleHook(program, w, t);
    case HookTask(_, _) => AssembleLaunch(program, w, t);
    case _ => AssembleQuietly(program, w, t);
  }

  // ---------------------------------------------------------------- cascades

  lemma DoQuiet(s: State, a: Action)
    requires CanApply(s, Do(a))
    ensures Quiet(s, Apply(s, Do(a)))
  {
  }

  lemma FireMovesLaunches(s: State, c: Id, n: nat)
    requires c < |s.net|
    ensures Launches(Apply(s, Fire(c)), n) == Launches(s, n)
  {
    LaunchesUpdate(s.net, c, Apply(s, Fire(c)).net[c], n);
  }

  lemma FireLaunchAt(w: World, t: World, c: Id, p: Id)
    requires c < |w.sys.books.state.net| && p < |w.sys.books.state.net| && LaunchAt(w, p)
    requires t.sys.setups == w.sys.setups && t.sys.books.state == Apply(w.sys.books.state, Fire(c))
    ensures LaunchAt(t, p)
  {
  }

  lemma FireAttachedAt(w: World, t: World, c: Id, i: Id)
    requires c < |w.sys.books.state.net| && i < |w.sys.books.state.net| && AttachedAt(w, i)
    requires t.sys.setups == w.sys.setups && t.sys.books.state == Apply(w.sys.books.state, Fire(c))
    requires SameTrigger(w, t)
    ensures AttachedAt(t, i)
  {
    hide IsTrigger;
    var actions := t.sys.books.state.net[i].actions;
    forall a | a in actions && !a.Launch? ensures a.Decrement? && exists n: nat :: AwaitedBy(t, n, a.target, i) {
      assert a in w.sys.books.state.net[i].actions;
      var n: nat :| AwaitedBy(w, n, a.target, i);
      assert AwaitedBy(t, n, a.target, i);
    }
  }

  /** A pending operation triggers only after everything it waits for. */
  lemma FireFires(program: seq<P.Task>, w: World, t: World, c: Id, n: nat)
    requires LaunchesOk(program, w) && SetupsOk(w) && Conserved(w.sys) && SameTrigger(w, t)
    requires CounterNet.Enabled(w.sys.books.state, Fire(c), true)
    requires t.sys.setups == w.sys.setups && t.sys.books.state == Apply(w.sys.books.state, Fire(c))
    requires Keeps(w.sys.books.state, t.sys.books.state) && Launch(n) in t.sys.books.state.work
    ensures IsSetUp(t, n) && TriggersFired(t, n)
  {
    var s := w.sys.books.state;
    hide SetupsOk, Conserved, Launches, AttachedAt, TriggersFired, SameTrigger, Keeps;
    if Launch(n) in s.work {
      TriggersStillFired(w, t, n);
    } else {
      assert Launch(n) in s.net[c].actions && LaunchAt(w, c);
      AllTriggersFired(w, t, n, c);
    }
  }

  lemma FireKeepsLaunches(program: seq<P.Task>, w: World, t: World, c: Id)
    requires LaunchesOk(program, w) && SetupsOk(w) && Conserved(w.sys) && SameTrigger(w, t)
    requires CounterNet.Enabled(w.sys.books.state, Fire(c), true)
    requires t.sys.setups == w.sys.setups && t.exec == w.exec
    requires t.sys.books.state == Apply(w.sys.books.state, Fire(c)) && Keeps(w.sys.books.state, t.sys.books.state)
    ensures LaunchesOk(program, t)
  {
    var s, u := w.sys.books.state, t.sys.books.state;
    hide Keeps, Conserved, SetupsOk, LaunchAt, AttachedAt, TriggersFired, SameTrigger, Launches;
    forall p: Id | p < |u.net| ensures LaunchAt(t, p) && AttachedAt(t, p) {
      assert LaunchAt(w, p) && AttachedAt(w, p);
      FireLaunchAt(w, t, c, p);
      FireAttachedAt(w, t, c, p);
    }
    forall n: nat | Launch(n) in u.work ensures IsSetUp(t, n) && TriggersFired(t, n) {
      FireFires(program, w, t, c, n);
    }
    forall n: nat ensures Launches(u, n) == if Pending(program, t, n) then 1 else 0 {
      FireMovesLaunches(s, c, n);
      assert Pending(program, t, n) == Pending(program, w, n);
    }
  }

  lemma CascadeKeepsLaunches(program: seq<P.Task>, w: World, m: CounterNet.Move)
    requires LaunchesOk(program, w) && SetupsOk(w) && Conserved(w.sys) && Can(program, w, Cascade(m))
    ensures var t := Happen(program, w, Cascade(m)); LaunchesOk(program, t) && SetupsOk(t) && SameTriggers(w, t)
  {
    var t := Happen(program, w, Cascade(m));
    MoveBalances(w.sys.books, m);
    OpKeeps(w.sys.books.state, Step(m));
    assert SameTriggers(w, t) && FreshFlows(w, t);
    hide LaunchesOk, SetupsOk, Keeps, Quiet, Conserved, SameTrigger;
    SetupsStay(w, t);
    match m
    case Fire(c) => FireKeepsLaunches(program, w, t, c);
    case Do(a) =>
      DoQuiet(w.sys.books.state, a);
      QuietStep(program, w, t);
  }

  // ---------------------------------------------------------------- what workers do

  lemma TakenKeeps(s: State, t: nat)
    ensures Keeps(s, s.(work := s.work - multiset{Launch(t)}))
  {
  }

  lemma TakenLaunches(s: State, t: nat, n: nat)
    requires Launch(t) in s.work
    ensures Launches(s.(work := s.work - multiset{Launch(t)}), n) + (if n == t then 1 else 0) == Launches(s, n)
  {
  }

  lemma StartKeepsLaunches(program: seq<P.Task>, w: World, n: nat)
    requires LaunchesOk(program, w) && Can(program, w, Run(P.Start(n)))
    requires SameTrigger(w, Happen(program, w, Run(P.Start(n))))
    ensures LaunchesOk(program, Happen(program, w, Run(P.Start(n))))
  {
    var t := Happen(program, w, Run(P.Start(n)));
    var s, u := w.sys.books.state, t.sys.books.state;
    TakenKeeps(s, n);
    assert IsSetUp(w, n);
    hide Keeps, IsTrigger, TriggersFired, Launches, SameTrigger;
    forall p: Id | p < |u.net| ensures LaunchAt(t, p) {
      assert LaunchAt(w, p);
    }
    forall i: Id | i < |u.net| ensures AttachedAt(t, i) {
      assert AttachedAt(w, i);
      QuietAttachedAt(w, t, i);
    }
    forall m: nat | Launch(m) in u.work ensures IsSetUp(t, m) && TriggersFired(t, m) {
      assert Launch(m) in s.work;
      TriggersStillFired(w, t, m);
    }
    forall m: nat ensures Launches(u, m) == if Pending(program, t, m) then 1 else 0 {
      TakenLaunches(s, n, m);
      assert Launches(s, m) == if Pending(program, w, m) then 1 else 0;
    }
  }

  lemma RunKeepsLaunches(program: seq<P.Task>, w: World, a: P.Act)
    requires LaunchesOk(program, w) && SetupsOk(w) && Can(program, w, Run(a))
    ensures var t := Happen(program, w, Run(a)); LaunchesOk(program, t) && SetupsOk(t) && SameTriggers(w, t)
  {
    var t := Happen(program, w, Run(a));
    KeepsItself(w.sys.books.state);
    QuietItself(w.sys.books.state);
    TakenKeeps(w.sys.books.state, a.task);
    assert SameTriggers(w, t) && FreshFlows(w, t);
    SetupsStay(w, t);
    hide LaunchesOk, SetupsOk, Keeps, Quiet, SameTrigger;
    if a.Start? {
      StartKeepsLaunches(program, w, a.task);
    } else {
      QuietStep(program, w, t);
    }
  }

  /** The task a worker takes has all its triggers, and nobody will take it again. */
  lemma StartIsLaunched(program: seq<P.Task>, w: World, t: nat)
    requires LaunchesOk(program, w) && SetupsOk(w) && Can(program, w, Run(P.Start(t)))
    ensures IsSetUp(w, t) && TriggersFired(w, t)
    ensures Launches(Happen(program, w, Run(P.Start(t))).sys.books.state, t) == 0
  {
    RunKeepsLaunches(program, w, P.Start(t));
    var after := Happen(program, w, Run(P.Start(t)));
    assert after.exec.status[t] == P.Running(0);
    assert Launches(after.sys.books.state, t) == if Pending(program, after, t) then 1 else 0;
  }
}
