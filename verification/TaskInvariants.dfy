/**
  What every state of a program running on the flow protocol satisfies.
  */
module TaskInvariants {
  import opened CounterNet
  import opened FlowOrder
  import opened Options
  import opened Scripts
  import opened TaskGraph
  import opened UseHistories
  import opened UseProtocol
  import opened Waiting
  import P = ProgramOrder

  // ---------------------------------------------------------------- the order of the captures

  predicate IsAccess(i: Info) {
    i.role == Reading || i.role == Writing
  }

  /** Each version of a datum is made from the one before, and the creating thread takes
      hold of every new version at once. */
  predicate LinkedAt(infos: seq<Info>, i: nat)
    requires i < |infos|
  {
    && Newest(infos[..i], infos[i].handle) == (if infos[i].role == Opening then None else Some(infos[i].prev))
    && (infos[i].role == Keeping ==>
          && i > 0 && infos[i].prev == i - 1 && infos[i - 1].role == Writing
          && infos[i - 1].handle == infos[i].handle && infos[i - 1].task == infos[i].task)
    && (infos[i].role == Writing && i < |infos| - 1 ==>
          infos[i + 1].role == Keeping && infos[i + 1].handle == infos[i].handle && infos[i + 1].prev == i)
  }

  predicate DeclaredAt(program: seq<P.Task>, infos: seq<Info>, front: nat, i: nat)
    requires i < |infos|
  {
    && infos[i].task <= front
    && (IsAccess(infos[i]) ==> infos[i].task < |program| && P.Touches(program[infos[i].task], infos[i].handle))
    && (infos[i].role == Writing ==> infos[i].handle in program[infos[i].task].outputs)
    && (infos[i].role == Reading ==> infos[i].handle !in program[infos[i].task].outputs)
  }

  /** The captures come in program order, one for each datum a task touches. */
  predicate InOrder(infos: seq<Info>, i: nat, j: nat)
    requires i < |infos| && j < |infos|
  {
    i < j ==>
      && infos[i].task <= infos[j].task
      && (IsAccess(infos[i]) && IsAccess(infos[j]) && infos[i].handle == infos[j].handle ==>
          infos[i].task != infos[j].task)
  }

  ghost predicate InfosOk(program: seq<P.Task>, infos: seq<Info>, front: nat) {
    && front <= |program|
    && (MustKeep(infos) ==> infos[|infos| - 1].task == front)
    && (forall i :: 0 <= i < |infos| ==> LinkedAt(infos, i))
    && (forall i :: 0 <= i < |infos| ==> DeclaredAt(program, infos, front, i))
    && (forall i, j :: 0 <= i < |infos| && 0 <= j < |infos| ==> InOrder(infos, i, j))
    && (forall t, h: Handle :: 0 <= t < front && P.Touches(program[t], h) ==> Captured(infos, t, h))
  }

  lemma {:induction false} NewestIsLast(infos: seq<Info>, h: Handle)
    ensures Newest(infos, h).Some? ==>
              && Newest(infos, h).value < |infos| && MakesVersion(infos[Newest(infos, h).value], h)
              && forall j :: Newest(infos, h).value < j < |infos| ==> !MakesVersion(infos[j], h)
    ensures Newest(infos, h) == None ==> forall j :: 0 <= j < |infos| ==> !MakesVersion(infos[j], h)
  {
    if infos != [] && !MakesVersion(infos[|infos| - 1], h) {
      NewestIsLast(infos[..|infos| - 1], h);
    }
  }

  lemma CapturedStays(infos: seq<Info>, more: Info, t: nat, h: Handle)
    requires Captured(infos, t, h)
    ensures Captured(infos + [more], t, h)
  {
    var i :| 0 <= i < |infos| && Accesses(infos[i], t) && infos[i].handle == h;
    assert (infos + [more])[i] == infos[i];
  }

  lemma CaptureKeepsInfos(program: seq<P.Task>, w: World, role: Role, h: Handle)
    requires InfosOk(program, w.infos, w.front) && Can(program, w, Capture(role, h))
    ensures InfosOk(program, Happen(program, w, Capture(role, h)).infos, w.front)
  {
    var infos := w.infos;
    var i0 := Info(role, h, w.front, Target(Newest(infos, h)));
    var after, n := infos + [i0], |infos|;
    NewestIsLast(infos, h);
    forall i | 0 <= i < |after| ensures LinkedAt(after, i) {
      if i < n {
        assert LinkedAt(infos, i);
        assert after[..i] == infos[..i];
      } else {
        assert after[..n] == infos;
        assert role == Keeping ==> Newest(infos, h) == Some(n - 1);
      }
    }
    forall i | 0 <= i < |after| ensures DeclaredAt(program, after, w.front, i) {
      assert i < n ==> DeclaredAt(program, infos, w.front, i);
    }
    forall i, j | 0 <= i < |after| && 0 <= j < |after| ensures InOrder(after, i, j) {
      assert i < n && j < n ==> InOrder(infos, i, j);
      assert i < n && Accesses(infos[i], w.front) && infos[i].handle == h ==> Captured(infos, w.front, h);
      assert i < n ==> DeclaredAt(program, infos, w.front, i);
    }
    forall t, g: Handle | 0 <= t < w.front && P.Touches(program[t], g) ensures Captured(after, t, g) {
      CapturedStays(infos, i0, t, g);
    }
  }

  lemma SubmitKeepsInfos(program: seq<P.Task>, w: World)
    requires InfosOk(program, w.infos, w.front) && Can(program, w, Happening.Submit)
    ensures InfosOk(program, w.infos, w.front + 1)
  {
    var next := w.front + 1;
    forall i | 0 <= i < |w.infos| ensures DeclaredAt(program, w.infos, next, i) {
      assert DeclaredAt(program, w.infos, w.front, i);
    }
  }

  // ---------------------------------------------------------------- the flows of the claims

  predicate IsVersion(role: Role) {
    role == Opening || role == Writing
  }

  /** A use has the flows its request asks for. */
  predicate UseFits(k: Claim) {
    var r, u, n := k.request, k.use, Reached(k.stage);
    && (r.inRel.kind == Same && n >= 1 ==> u.inFlow == r.inRel.Named())
    && (r.inRel.kind == Initial && n >= 1 ==> u.inFlow.Some?)
    && (r.antiInRel.kind == Same && n >= 2 ==> u.antiInFlow == r.antiInRel.Named())
    && (r.antiInRel.kind == Insignificant ==> u.antiInFlow == None)
    && (r.outRel.kind == Kind.Next && n >= 3 ==> u.outFlow.Some?)
    && (r.outRel.kind == Insignificant ==> u.outFlow == None)
    && (r.antiOutRel.kind == Same && !r.antiOutRel.inAsRelated && n >= 4 ==> u.antiOutFlow == r.antiOutRel.Named())
    && (r.antiOutRel.kind in {Kind.Next, Initial} && n >= 4 ==> u.antiOutFlow.Some?)
    && (r.antiOutRel.kind == Insignificant ==> u.antiOutFlow == None)
    && Staged(k)
  }

  /** What the programs of RequestFor ask for. */
  predicate IsPlain(r: Request) {
    && r.inRel.kind in {Same, Initial} && r.antiInRel.kind in {Same, Insignificant}
    && r.outRel.kind in {Insignificant, Kind.Next} && r.antiOutRel.kind in {Same, Initial, Kind.Next, Insignificant}
    && !r.aliases
  }

  /** Only the first flow of a datum takes two operations. */
  lemma InOneGo(b: Books, k: Claim)
    requires Consistent(b, k) && IsPlain(k.request)
    ensures k.job.todo != [] ==>
        k.stage == Unregistered && k.request.inRel.kind == Initial && k.job == MadeOnly(k.job.mine)
    ensures k.job.todo != [] ==> k.job.mine.Some?
    ensures k.job.todo == [] ==> k.job == IDLE
    ensures Staged(k)
  {
    var script := Script(k);
    assert k.job.todo != [] ==> k.job.todo == script.todo[|script.todo| - |k.job.todo|..];
  }

  /** A first flow that has been made and must still be let go of. */
  function MadeOnly(mine: Option<Id>): Job {
    Job([Lower(Mine)], mine, Some(Mine), false)
  }

  /** So a flow is worked out at once, or is the first flow of a datum. */
  lemma NextIs(b: Books, k: Claim, made: Id)
    requires Consistent(b, k) && IsPlain(k.request) && !InPlace(k)
    ensures var r, u, k' := k.request, k.use, NextClaim(k, made);
      match k.stage
      case Unregistered =>
        if k.job.todo != [] then k' == Claim(r, u.(inFlow := k.job.mine), HasIn, IDLE)
        else if r.inRel.kind == Same then k' == Claim(r, u.(inFlow := r.inRel.Named()), HasIn, IDLE)
        else k' == k.(job := MadeOnly(Some(made)))
      case HasIn =>
        var flow := if r.antiInRel.kind == Same then r.antiInRel.Named() else None;
        k' == Claim(r, u.(antiInFlow := flow), HasAntiIn, IDLE)
      case HasAntiIn =>
        var flow := if r.outRel.kind == Kind.Next then Some(made) else None;
        k' == Claim(r, u.(outFlow := flow), HasOut, IDLE)
      case _ =>
        var flow := match r.antiOutRel.kind
                    case Same => Related(r.antiOutRel, u.antiInFlow)
                    case Insignificant => None
                    case _ => Some(made);
        k' == Claim(r, u.(antiOutFlow := flow), Stage.Held, IDLE)
  {
    InOneGo(b, k);
    hide Consistent, NextClaim, Script;
    if k.job.todo != [] {
      OpeningCompletes(k, made);
    } else {
      ScriptIs(k);
      if k.stage == Unregistered && k.request.inRel.kind == Initial {
        OpeningBegins(k, made);
      } else {
        OneStepCompletes(k, Script(k), made);
      }
    }
  }

  lemma OpeningBegins(k: Claim, made: Id)
    requires k.job == IDLE && Script(k) == Doing([Make, Lower(Mine)], Some(Mine), false)
    ensures NextClaim(k, made) == k.(job := MadeOnly(Some(made)))
  {
  }

  lemma OpeningCompletes(k: Claim, made: Id)
    requires k.job == MadeOnly(k.job.mine) && k.job.mine.Some?
    ensures NextClaim(k, made) == Completed(k.(job := Job([], k.job.mine, Some(Mine), false)))
  {
  }

  lemma OneStepCompletes(k: Claim, j: Job, made: Id)
    requires k.job == IDLE && Script(k) == j && |j.todo| <= 1
    ensures NextClaim(k, made) ==
            var mine := if j.todo != [] && j.todo[0].Make? then Some(made) else j.mine;
            Completed(k.(job := Job([], mine, j.result, j.keeps)))
  {
  }

  /** The scripts of a plain request. */
  lemma ScriptIs(k: Claim)
    requires IsPlain(k.request) && !InPlace(k) && Staged(k)
    ensures Script(k).mine == None
    ensures var r, u, j := k.request, k.use, Script(k);
      match k.stage
      case Unregistered =>
        if r.inRel.kind == Initial then j == Doing([Make, Lower(Mine)], Some(Mine), false)
        else j.todo == [] && ResultOf(j) == r.inRel.Named()
      case HasIn =>
        |j.todo| <= 1 && (j.todo != [] ==> !j.todo[0].Make?) && j.result != Some(Mine) &&
        ResultOf(j) == if r.antiInRel.kind == Same then r.antiInRel.Named() else None
      case HasAntiIn =>
        if r.outRel.kind == Kind.Next then j == Doing([Make], Some(Mine), true) else j == IDLE
      case _ =>
        match r.antiOutRel.kind
        case Same =>
          && |j.todo| == 1 && !j.todo[0].Make? && j.result != Some(Mine)
          && ResultOf(j) == Related(r.antiOutRel, u.antiInFlow)
        case Insignificant => j == IDLE
        case _ => j == Doing([Make], Some(Mine), true)
  {
  }

  lemma PartFits(b: Books, k: Claim, made: Id)
    requires UseFits(k) && Consistent(b, k) && IsPlain(k.request)
    ensures UseFits(NextClaim(k, made))
  {
    if InPlace(k) {
      ReleaseKeepsUse(b, k, made);
      NextKeepsRequest(k, made);
    } else {
      InOneGo(b, k);
      NextIs(b, k, made);
      hide NextClaim, Consistent;
    }
  }

  predicate ClaimFits(infos: seq<Info>, claims: seq<Claim>, i: nat)
    requires i < |infos| == |claims|
  {
    && UseFits(claims[i])
    && (i < |claims| - 1 ==> InPlace(claims[i]))
    && (if infos[i].role == Opening then claims[i].request == RequestFor(Opening, None, None)
        else
          && infos[i].prev < i
          && claims[i].request ==
             RequestFor(infos[i].role, FlowOf(infos[infos[i].prev], claims[infos[i].prev]),
                 AntiOf(claims[infos[i].prev])))
  }

  lemma RequestsArePlain(infos: seq<Info>, claims: seq<Claim>, i: nat)
    requires i < |infos| == |claims| && ClaimFits(infos, claims, i)
    ensures IsPlain(claims[i].request)
  {
  }

  /** The flow of the version, as soon as it is made. */
  function MadeFlow(i: Info, k: Claim): Option<Id> {
    if i.role == Opening && k.stage == Unregistered then k.job.mine else FlowOf(i, k)
  }

  /** Flows of later versions are younger, and no flow serves as anti-flow. */
  predicate RisingAt(infos: seq<Info>, claims: seq<Claim>, i: nat, j: nat)
    requires i < |infos| == |claims| && j < |infos|
  {
    IsVersion(infos[i].role) && IsVersion(infos[j].role) ==>
      && (i < j && MadeFlow(infos[j], claims[j]).Some? ==>
            AntiOf(claims[i]).Some? && AntiOf(claims[i]).value < MadeFlow(infos[j], claims[j]).value)
      && (AntiOf(claims[i]).Some? ==>
            FlowOf(infos[i], claims[i]).Some? && FlowOf(infos[i], claims[i]).value < AntiOf(claims[i]).value)
  }

  ghost predicate ClaimsOk(infos: seq<Info>, claims: seq<Claim>) {
    && |infos| == |claims|
    && (forall i :: 0 <= i < |claims| ==> ClaimFits(infos, claims, i))
    && (forall i, j :: 0 <= i < |claims| && 0 <= j < |claims| ==> RisingAt(infos, claims, i, j))
  }

  lemma CaptureKeepsClaims(program: seq<P.Task>, w: World, role: Role, h: Handle)
    requires ClaimsOk(w.infos, w.sys.claims) && InfosOk(program, w.infos, w.front) && Can(program, w, Capture(role, h))
    ensures var t := Happen(program, w, Capture(role, h)); ClaimsOk(t.infos, t.sys.claims)
  {
    var t := Happen(program, w, Capture(role, h));
    NewestIsLast(w.infos, h);
    var n := |w.infos|;
    forall i | 0 <= i <= n ensures ClaimFits(t.infos, t.sys.claims, i) {
      assert i < n ==> ClaimFits(w.infos, w.sys.claims, i);
    }
    forall i, j | 0 <= i <= n && 0 <= j <= n ensures RisingAt(t.infos, t.sys.claims, i, j) {
      assert i < n && j < n ==> RisingAt(w.infos, w.sys.claims, i, j);
      assert i < n ==> RisingAt(w.infos, w.sys.claims, i, i);
    }
  }

  /** From `k` to `k'` the flows of a version that are new are younger than any flow so far. */
  predicate Fresher(b: Books, role: Role, k: Claim, k': Claim) {
    var i := Info(role, 0, 0, 0);
    && (MadeFlow(i, k).Some? ==> MadeFlow(i, k') == MadeFlow(i, k))
    && (MadeFlow(i, k) == None && MadeFlow(i, k').Some? ==> MadeFlow(i, k').value == |b.held|)
    && (AntiOf(k) == None && AntiOf(k').Some? ==> AntiOf(k').value == |b.held| && FlowOf(i, k).Some?)
    && (FlowOf(i, k).Some? ==> FlowOf(i, k') == FlowOf(i, k) && FlowOf(i, k).value < |b.held|)
    && AntiOf(k) == None
  }

  lemma OpeningIsFresh(b: Books, k: Claim)
    requires k.request == RequestFor(Opening, None, None) && UseFits(k) && Consistent(b, k) && !InPlace(k)
    ensures Fresher(b, Opening, k, NextClaim(k, |b.held|))
  {
    InOneGo(b, k);
    NextIs(b, k, |b.held|);
    FlowsAreInRange(b, k);
    UseIsStaged(k);
    hide Consistent, NextClaim, UseFits;
  }

  lemma WriterIsFresh(b: Books, k: Claim, flow: Option<Id>, anti: Option<Id>)
    requires k.request == RequestFor(Writing, flow, anti) && UseFits(k) && Consistent(b, k) && !InPlace(k)
    ensures Fresher(b, Writing, k, NextClaim(k, |b.held|))
  {
    hide Consistent, NextClaim, UseFits, IsPlain, RequestFor;
    WritingIsPlain(flow, anti);
    InOneGo(b, k);
    NextIs(b, k, |b.held|);
    FlowsAreInRange(b, k);
    UseIsStaged(k);
  }

  lemma WritingIsPlain(flow: Option<Id>, anti: Option<Id>)
    ensures var r := RequestFor(Writing, flow, anti);
      && IsPlain(r) && r.inRel.kind == Same && r.antiInRel.kind == Same && r.antiDependency
      && r.outRel.kind == Kind.Next && r.antiOutRel.kind == Kind.Next
  {
  }

  lemma UseIsStaged(k: Claim)
    requires UseFits(k)
    ensures Staged(k) && (k.request.inRel.kind == Initial && Reached(k.stage) >= 1 ==> k.use.inFlow.Some?)
    ensures k.request.outRel.kind == Kind.Next && Reached(k.stage) >= 3 ==> k.use.outFlow.Some?
  {
  }

  lemma RegisterIsFresh(infos: seq<Info>, claims: seq<Claim>, b: Books)
    requires claims != [] && |infos| == |claims| && ClaimFits(infos, claims, |claims| - 1)
    requires IsVersion(infos[|infos| - 1].role)
    requires Consistent(b, claims[|claims| - 1]) && !InPlace(claims[|claims| - 1])
    ensures var k := claims[|claims| - 1]; Fresher(b, infos[|infos| - 1].role, k, NextClaim(k, |b.held|))
  {
    var n := |claims| - 1;
    hide Fresher, NextClaim, Consistent;
    if infos[n].role == Opening {
      OpeningIsFresh(b, claims[n]);
    } else {
      WriterIsFresh(b, claims[n], FlowOf(infos[infos[n].prev], claims[infos[n].prev]), AntiOf(claims[infos[n].prev]));
    }
  }

  lemma RegisterKeepsRising(infos: seq<Info>, claims: seq<Claim>, b: Books, k': Claim, i: nat, j: nat)
    requires ClaimsOk(infos, claims) && claims != [] && i < |claims| && j < |claims|
    requires IsVersion(infos[|infos| - 1].role) ==> Fresher(b, infos[|infos| - 1].role, claims[|claims| - 1], k')
    requires forall l :: 0 <= l < |claims| - 1 ==> Consistent(b, claims[l])
    ensures RisingAt(infos, claims[|claims| - 1 := k'], i, j)
  {
    var n := |claims| - 1;
    hide UseFits, Consistent;
    assert RisingAt(infos, claims, i, j) && ClaimFits(infos, claims, i);
    hide ClaimsOk;
    if i < n && IsVersion(infos[i].role) {
      VersionHasAnti(infos, claims, i);
      FlowsAreInRange(b, claims[i]);
    }
    hide RequestFor;
  }

  lemma RegisterKeepsFits(infos: seq<Info>, claims: seq<Claim>, k': Claim, i: nat)
    requires ClaimsOk(infos, claims) && i < |claims|
    requires k'.request == claims[|claims| - 1].request && UseFits(k')
    ensures ClaimFits(infos, claims[|claims| - 1 := k'], i)
  {
    hide UseFits, RisingAt;
    assert ClaimFits(infos, claims, i);
  }

  lemma RegisterFits(infos: seq<Info>, claims: seq<Claim>, b: Books)
    requires |infos| == |claims| && claims != [] && ClaimFits(infos, claims, |claims| - 1)
    requires Consistent(b, claims[|claims| - 1]) && !InPlace(claims[|claims| - 1])
    ensures var k := claims[|claims| - 1]; var k' := NextClaim(k, |b.held|);
      && k'.request == k.request && UseFits(k')
      && (IsVersion(infos[|infos| - 1].role) ==> Fresher(b, infos[|infos| - 1].role, k, k'))
  {
    var k := claims[|claims| - 1];
    hide NextClaim, Consistent, Fresher, IsPlain;
    RequestsArePlain(infos, claims, |claims| - 1);
    PartFits(b, k, |b.held|);
    NextKeepsRequest(k, |b.held|);
    hide UseFits;
    if IsVersion(infos[|infos| - 1].role) {
      RegisterIsFresh(infos, claims, b);
    }
  }

  lemma RegisterKeepsClaims(infos: seq<Info>, claims: seq<Claim>, b: Books)
    requires ClaimsOk(infos, claims) && claims != [] && !InPlace(claims[|claims| - 1])
    requires forall i :: 0 <= i < |claims| ==> Consistent(b, claims[i])
    ensures ClaimsOk(infos, claims[|claims| - 1 := NextClaim(claims[|claims| - 1], |b.held|)])
  {
    var n := |claims| - 1;
    var k' := NextClaim(claims[n], |b.held|);
    var after := claims[n := k'];
    hide NextClaim, Consistent, Fresher, RisingAt, ClaimFits;
    RegisterFits(infos, claims, b);
    hide UseFits;
    forall i | 0 <= i <= n ensures ClaimFits(infos, after, i) {
      RegisterKeepsFits(infos, claims, k', i);
    }
    forall i, j | 0 <= i <= n && 0 <= j <= n ensures RisingAt(infos, after, i, j) {
      RegisterKeepsRising(infos, claims, b, k', i, j);
    }
  }

  lemma FlowsAreInRange(b: Books, k: Claim)
    requires Consistent(b, k)
    ensures FlowsInRange(b, k.use)
  {
  }

  lemma NextKeepsRequest(k: Claim, made: Id)
    ensures NextClaim(k, made).request == k.request
    ensures NextClaim(k, made).use.antiDependency == k.use.antiDependency
    ensures NextClaim(k, made).use.aliases == k.use.aliases
  {
  }

  lemma VersionHasAnti(infos: seq<Info>, claims: seq<Claim>, i: nat)
    requires i < |infos| == |claims| && ClaimFits(infos, claims, i) && IsVersion(infos[i].role) && InPlace(claims[i])
    ensures AntiOf(claims[i]).Some? && FlowOf(infos[i], claims[i]).Some?
  {
  }

  /** A release changes no flow. */
  lemma ReleaseKeepsUse(b: Books, k: Claim, made: Id)
    requires Consistent(b, k) && InPlace(k) && IsPlain(k.request)
    ensures NextClaim(k, made).use == k.use && NextClaim(k, made).job == IDLE && k.job == IDLE
    ensures Reached(NextClaim(k, made).stage) == (if k.stage == Released then 9 else Reached(k.stage) + 1)
  {
    InOneGo(b, k);
    hide JobOk, Underway;
  }

  lemma ReleaseKeepsClaims(infos: seq<Info>, claims: seq<Claim>, b: Books, i: nat)
    requires ClaimsOk(infos, claims) && i < |claims| && InPlace(claims[i]) && Consistent(b, claims[i])
    ensures ClaimsOk(infos, claims[i := NextClaim(claims[i], |b.held|)])
    ensures NextClaim(claims[i], |b.held|).use == claims[i].use
    ensures Reached(NextClaim(claims[i], |b.held|).stage) >= Reached(claims[i].stage)
  {
    hide NextClaim, Consistent;
    var after := claims[i := NextClaim(claims[i], |b.held|)];
    assert ClaimFits(infos, claims, i);
    RequestsArePlain(infos, claims, i);
    PartFits(b, claims[i], |b.held|);
    ReleaseKeepsUse(b, claims[i], |b.held|);
    NextKeepsRequest(claims[i], |b.held|);
    hide UseFits;
    forall j | 0 <= j < |claims| ensures ClaimFits(infos, after, j) {
      assert ClaimFits(infos, claims, j);
    }
    forall j, l | 0 <= j < |claims| && 0 <= l < |claims| ensures RisingAt(infos, after, j, l) {
      assert RisingAt(infos, claims, j, l);
    }
  }

  // ---------------------------------------------------------------- starts and releases

  ghost predicate ReleasesOk(program: seq<P.Task>, w: World) {
    && |w.infos| == |w.sys.claims|
    && (forall i :: 0 <= i < |w.sys.claims| && Reached(w.sys.claims[i].stage) >= 5 ==> MayRelease(program, w, i))
    && (forall i :: 0 <= i < |w.sys.claims| && w.infos[i].task < w.front ==> InPlace(w.sys.claims[i]))
  }

  ghost predicate TriggersFired(w: World, t: nat) {
    forall c: Id :: IsTrigger(w, t, c) ==> Fired(w.sys.books.state, c)
  }

  ghost predicate StartsOk(program: seq<P.Task>, w: World) {
    && |w.exec.status| == |program|
    && forall t :: 0 <= t < |program| && w.exec.status[t] != P.Waiting ==> t < w.front && TriggersFired(w, t)
  }

  ghost predicate OrderKept(program: seq<P.Task>, w: World) {
    && Ordered(w.sys) && InfosOk(program, w.infos, w.front) && ClaimsOk(w.infos, w.sys.claims)
    && ReleasesOk(program, w) && StartsOk(program, w)
  }

  predicate DoneBy(w: World, i: nat) {
    i < |w.infos| && w.infos[i].task < |w.exec.status| && w.exec.status[w.infos[i].task] == P.Done
  }

  /** The in-flow of a use that is registered is the flow of the version before, and the
      anti-in-flow of a writer its anti-flow. */
  lemma StartsFrom(program: seq<P.Task>, w: World, j: nat)
    requires OrderKept(program, w) && j < |w.infos| && w.infos[j].role != Opening && InPlace(w.sys.claims[j])
    ensures var p := w.infos[j].prev;
      && p < j && MakesVersion(w.infos[p], w.infos[j].handle) && InPlace(w.sys.claims[p])
      && (forall i :: p < i < j ==> !MakesVersion(w.infos[i], w.infos[j].handle))
      && w.sys.claims[j].use.inFlow == FlowOf(w.infos[p], w.sys.claims[p])
      && (w.infos[j].role == Writing ==>
            w.sys.claims[j].use.antiInFlow == AntiOf(w.sys.claims[p]) && w.sys.claims[j].use.antiDependency)
      && (w.infos[j].role == Reading ==> AntiOf(w.sys.claims[j]) == AntiOf(w.sys.claims[p]))
      && FlowOf(w.infos[p], w.sys.claims[p]).Some? && AntiOf(w.sys.claims[p]).Some?
  {
    hide Ordered, ReleasesOk, StartsOk;
    var p := w.infos[j].prev;
    assert LinkedAt(w.infos, j) && ClaimFits(w.infos, w.sys.claims, j) && ClaimFits(w.infos, w.sys.claims, p);
    NewestIsLast(w.infos[..j], w.infos[j].handle);
    forall i | p < i < j ensures !MakesVersion(w.infos[i], w.infos[j].handle) {
      assert w.infos[..j][i] == w.infos[i];
    }
    VersionHasAnti(w.infos, w.sys.claims, p);
  }

  /** A task that has started found the flow of its version ready; a writer, its anti-flow, too. */
  lemma StartedFrom(program: seq<P.Task>, w: World, j: nat)
    requires OrderKept(program, w) && j < |w.infos| && IsAccess(w.infos[j])
    requires w.infos[j].task < |program| && w.exec.status[w.infos[j].task] != P.Waiting
    ensures InPlace(w.sys.claims[j]) && w.infos[j].prev < j
    ensures var p := w.sys.claims[w.infos[j].prev];
      && Triggered(w.sys.books.state, FlowOf(w.infos[w.infos[j].prev], p))
      && (w.infos[j].role == Writing ==> Triggered(w.sys.books.state, AntiOf(p)))
  {
    var t := w.infos[j].task;
    assert InPlace(w.sys.claims[j]);
    StartsFrom(program, w, j);
    var k := w.sys.claims[j];
    assert Accesses(w.infos[j], t) && TriggerOf(k, k.use.inFlow.value);
    assert IsTrigger(w, t, k.use.inFlow.value);
    if w.infos[j].role == Writing {
      assert TriggerOf(k, k.use.antiInFlow.value);
      assert IsTrigger(w, t, k.use.antiInFlow.value);
    }
  }

  /** A version that is there was made by a task that is done. */
  lemma MadeByDone(program: seq<P.Task>, w: World, p: nat)
    requires OrderKept(program, w) && p < |w.infos| && w.infos[p].role == Writing
    requires Triggered(w.sys.books.state, w.sys.claims[p].use.outFlow)
    ensures DoneBy(w, p) && w.infos[p].task < |program|
  {
    hide WiredSoFar, Conserved;
    ReadyMeansReleased(w.sys, p);
    assert MayRelease(program, w, p);
    assert DeclaredAt(program, w.infos, w.front, p);
  }

  /** A reader that let go of its version belongs to a task that is done. */
  lemma ReadByDone(program: seq<P.Task>, w: World, i: nat)
    requires OrderKept(program, w) && i < |w.infos| && w.infos[i].role == Reading
    requires Triggered(w.sys.books.state, AntiOf(w.sys.claims[i]))
    ensures DoneBy(w, i)
  {
    hide WiredSoFar, Conserved;
    ReadyMeansReleased(w.sys, i);
    assert MayRelease(program, w, i);
  }

  /** Once the version that `j` starts from is there, all earlier writers are done. */
  lemma {:induction false} EarlierWritersDone(program: seq<P.Task>, w: World, j: nat, i: nat)
    requires OrderKept(program, w) && j < |w.infos| && w.infos[j].role != Opening && InPlace(w.sys.claims[j])
    requires w.infos[j].prev < j
    requires Triggered(w.sys.books.state, FlowOf(w.infos[w.infos[j].prev], w.sys.claims[w.infos[j].prev]))
    requires i < j && w.infos[i].role == Writing && w.infos[i].handle == w.infos[j].handle
    ensures DoneBy(w, i)
    decreases j
  {
    hide Ordered, ClaimsOk, ReleasesOk, StartsOk, Triggered;
    StartsFrom(program, w, j);
    var p := w.infos[j].prev;
    assert i <= p;
    assert LinkedAt(w.infos, p);
    NewestIsLast(w.infos[..p], w.infos[p].handle);
    assert i < p ==> MakesVersion(w.infos[..p][i], w.infos[p].handle);
    if w.infos[p].role == Writing {
      MadeByDone(program, w, p);
      if i < p {
        StartedFrom(program, w, p);
        EarlierWritersDone(program, w, p, i);
      }
    }
  }

  /** Once the anti-flow of the version that the writer `j` overwrites is ready, all earlier
      readers are done. */
  lemma {:induction false} EarlierReadersDone(program: seq<P.Task>, w: World, j: nat, i: nat)
    requires OrderKept(program, w) && j < |w.infos| && w.infos[j].role == Writing && InPlace(w.sys.claims[j])
    requires w.infos[j].prev < j
    requires Triggered(w.sys.books.state, FlowOf(w.infos[w.infos[j].prev], w.sys.claims[w.infos[j].prev]))
    requires Triggered(w.sys.books.state, AntiOf(w.sys.claims[w.infos[j].prev]))
    requires i < j && w.infos[i].role == Reading && w.infos[i].handle == w.infos[j].handle
    ensures DoneBy(w, i)
    decreases j
  {
    hide Ordered, ReleasesOk, ClaimsOk, StartsOk, Triggered;
    StartsFrom(program, w, j);
    var p := w.infos[j].prev;
    assert LinkedAt(w.infos, p) && LinkedAt(w.infos, i);
    NewestIsLast(w.infos[..p], w.infos[p].handle);
    ReaderInPlace(program, w, i, j);
    StartsFrom(program, w, i);
    if p < i {
      assert w.infos[i].prev == p;
      ReadByDone(program, w, i);
    } else {
      assert MakesVersion(w.infos[..p][w.infos[i].prev], w.infos[p].handle);
      MadeByDone(program, w, p);
      StartedFrom(program, w, p);
      EarlierReadersDone(program, w, p, i);
    }
  }

  lemma ReaderInPlace(program: seq<P.Task>, w: World, i: nat, j: nat)
    requires OrderKept(program, w) && i < j < |w.infos|
    ensures InPlace(w.sys.claims[i])
  {
    assert ClaimFits(w.infos, w.sys.claims, i);
  }

  /** In every state: no task has started before all earlier tasks it conflicts with were
      done. */
  lemma OrderIsRespected(program: seq<P.Task>, w: World)
    requires OrderKept(program, w)
    ensures P.Respects(program, w.exec.status)
  {
    hide Ordered, ClaimsOk, ReleasesOk, Triggered;
    forall u, t, h: Handle |
      0 <= u < t < |program| && w.exec.status[t] != P.Waiting && P.ConflictOn(program[u], program[t], h)
      ensures w.exec.status[u] == P.Done
    {
      assert Captured(w.infos, u, h) && Captured(w.infos, t, h);
      var i :| 0 <= i < |w.infos| && Accesses(w.infos[i], u) && w.infos[i].handle == h;
      var j :| 0 <= j < |w.infos| && Accesses(w.infos[j], t) && w.infos[j].handle == h;
      assert InOrder(w.infos, j, i);
      assert DeclaredAt(program, w.infos, w.front, i) && DeclaredAt(program, w.infos, w.front, j);
      StartedFrom(program, w, j);
      if w.infos[i].role == Writing {
        EarlierWritersDone(program, w, j, i);
      } else {
        EarlierReadersDone(program, w, j, i);
      }
    }
  }
}
