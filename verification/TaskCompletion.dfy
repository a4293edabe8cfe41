/**
  Every program can be brought to its end, wherever it is: all tasks registered, submitted and
  done, all uses released, and the sequential result in memory.
  */
module TaskCompletion {
  import opened CounterNet
  import opened FlowOrder
  import opened Options
  import opened Scripts
  import opened TaskGraph
  import opened TaskInvariants
  import opened TaskLaunches
  import opened TaskProgress
  import opened TaskRuns
  import opened UseHistories
  import opened UseProtocol
  import P = ProgramOrder

  // ---------------------------------------------------------------- what the creating thread has left to do

  /** Data of the next task it has not captured yet. */
  ghost function Uncaptured(program: seq<P.Task>, infos: seq<Info>, front: nat): set<Handle> {
    if front < |program|
    then set h | h in program[front].inputs + program[front].outputs && !Captured(infos, front, h)
    else {}
  }

  /** Those among them that have no version yet. */
  ghost function Unopened(program: seq<P.Task>, infos: seq<Info>, front: nat): set<Handle> {
    set h | h in Uncaptured(program, infos, front) && Newest(infos, h) == None
  }

  ghost function CapturesLeft(program: seq<P.Task>, infos: seq<Info>, front: nat): nat {
    2 * |Uncaptured(program, infos, front)| + |Unopened(program, infos, front)| + if MustKeep(infos) then 1 else 0
  }

  function RegistrationLeft(k: Claim): nat {
    if Reached(k.stage) >= 4 then 0 else 2 * (4 - Reached(k.stage)) - if k.job.todo != [] then 1 else 0
  }

  /** Counter operations of the registration or submission under way. */
  function OperationsLeft(w: World): nat {
    (if w.sys.claims == [] then 0 else RegistrationLeft(w.sys.claims[|w.sys.claims| - 1])) +
    if w.sys.setups == [] then 0 else |w.sys.setups[|w.sys.setups| - 1].todo|
  }

  /** Fewer tasks to submit, or fewer captures, or fewer counter operations. */
  ghost predicate Nearer(program: seq<P.Task>, v: World, w: World) {
    || w.front > v.front
    || (w.front == v.front &&
        (CapturesLeft(program, w.infos, w.front) < CapturesLeft(program, v.infos, v.front) ||
         (CapturesLeft(program, w.infos, w.front) == CapturesLeft(program, v.infos, v.front) &&
          OperationsLeft(w) < OperationsLeft(v))))
  }

  lemma FewerElements<T>(a: set<T>, b: set<T>)
    requires a <= b
    ensures |a| <= |b| && (a != b ==> |a| < |b|)
  {
    var c := b - a;
    assert b == a + c;
  }

  lemma CaptureKeepsCaptured(infos: seq<Info>, i: Info, t: nat, h: Handle)
    ensures Captured(infos + [i], t, h) <==> Captured(infos, t, h) || (Accesses(i, t) && i.handle == h)
  {
    var n := |infos|;
    if Captured(infos + [i], t, h) {
      var j :| 0 <= j <= n && Accesses((infos + [i])[j], t) && (infos + [i])[j].handle == h;
      assert j < n ==> infos[j] == (infos + [i])[j];
    }
    if Captured(infos, t, h) {
      CapturedStays(infos, i, t, h);
    }
    if Accesses(i, t) && i.handle == h {
      assert (infos + [i])[n] == i;
    }
  }

  lemma NewestAfter(infos: seq<Info>, i: Info, h: Handle)
    ensures Newest(infos + [i], h) == if MakesVersion(i, h) then Some(|infos|) else Newest(infos, h)
  {
    assert (infos + [i])[..|infos|] == infos;
  }

  /** Every capture is one less to go. */
  lemma CaptureIsNearer(program: seq<P.Task>, w: World, role: Role, h: Handle)
    requires Can(program, w, Capture(role, h))
    requires role == Opening ==> w.front < |program| && P.Touches(program[w.front], h) && !Captured(w.infos, w.front, h)
    ensures Nearer(program, w, Happen(program, w, Capture(role, h)))
  {
    var t := Happen(program, w, Capture(role, h));
    var i := t.infos[|w.infos|];
    var before, after := Uncaptured(program, w.infos, w.front), Uncaptured(program, t.infos, w.front);
    var open, still := Unopened(program, w.infos, w.front), Unopened(program, t.infos, w.front);
    forall g: Handle
      ensures Captured(t.infos, w.front, g) <==> Captured(w.infos, w.front, g) || (Accesses(i, w.front) && h == g)
    {
      CaptureKeepsCaptured(w.infos, i, w.front, g);
    }
    forall g: Handle ensures Newest(t.infos, g) == if MakesVersion(i, g) then Some(|w.infos|) else Newest(w.infos, g) {
      NewestAfter(w.infos, i, g);
    }
    hide Captured, Newest;
    assert after <= before && still <= open;
    FewerElements(after, before);
    FewerElements(still, open);
    match role
    case Opening => assert h in open && h !in still;
    case Keeping => assert after == before;
    case Reading => assert h in before && h !in after;
    case Writing => assert h in before && h !in after;
  }

  lemma RegistrationGoesOn(b: Books, k: Claim, made: Id)
    requires Consistent(b, k) && IsPlain(k.request) && !InPlace(k)
    ensures RegistrationLeft(NextClaim(k, made)) < RegistrationLeft(k)
  {
    NextIs(b, k, made);
    InOneGo(b, k);
    hide NextClaim, Consistent, IsPlain;
  }

  lemma LastIsPlain(program: seq<P.Task>, w: World)
    requires OrderKept(program, w) && w.sys.claims != []
    ensures var k := w.sys.claims[|w.sys.claims| - 1]; Consistent(w.sys.books, k) && IsPlain(k.request)
  {
    hide WiredSoFar, SharesFlows, Balanced, Consistent, SetupOk, InfosOk, ReleasesOk, StartsOk;
    var n := |w.sys.claims| - 1;
    assert ClaimFits(w.infos, w.sys.claims, n);
    RequestsArePlain(w.infos, w.sys.claims, n);
  }

  lemma RegisterIsNearer(program: seq<P.Task>, w: World)
    requires OrderKept(program, w) && Can(program, w, Register)
    ensures Nearer(program, w, Happen(program, w, Register))
  {
    hide OrderKept, NextClaim, Consistent, IsPlain, RegistrationLeft, StepBooks, JobOf, CapturesLeft;
    LastIsPlain(program, w);
    RegistrationGoesOn(w.sys.books, w.sys.claims[|w.sys.claims| - 1], |w.sys.books.held|);
  }

  lemma AssembleIsNearer(program: seq<P.Task>, w: World)
    requires Can(program, w, Happening.Assemble)
    ensures Nearer(program, w, Happen(program, w, Happening.Assemble))
  {
  }

  lemma CreatorIsNearer(program: seq<P.Task>, w: World, e: Happening)
    requires OrderKept(program, w) && Can(program, w, e) && (e.Capture? || e.Register? || e.Submit? || e.Assemble?)
    requires e.Capture? && e.role == Opening ==>
               w.front < |program| && P.Touches(program[w.front], e.handle) && !Captured(w.infos, w.front, e.handle)
    ensures Nearer(program, w, Happen(program, w, e))
  {
    hide OrderKept, Nearer;
    match e
    case Capture(role, h) => CaptureIsNearer(program, w, role, h);
    case Register => RegisterIsNearer(program, w);
    case Assemble => AssembleIsNearer(program, w);
    case Submit => SubmitIsNearer(program, w);
  }

  lemma SubmitIsNearer(program: seq<P.Task>, w: World)
    requires Can(program, w, Happening.Submit)
    ensures Nearer(program, w, Happen(program, w, Happening.Submit))
  {
  }

  // ---------------------------------------------------------------- to the end

  lemma Prepend(program: seq<P.Task>, w: World, e: Happening, more: seq<Happening>)
    requires Can(program, w, e) && AllCan(program, Happen(program, w, e), more)
    ensures AllCan(program, w, [e] + more)
    ensures Outcome(program, w, [e] + more) == Outcome(program, Happen(program, w, e), more)
  {
    assert ([e] + more)[1..] == more;
  }

  lemma {:induction false} Continue(program: seq<P.Task>, w: World, first: seq<Happening>, second: seq<Happening>)
    requires AllCan(program, w, first) && AllCan(program, Outcome(program, w, first), second)
    ensures AllCan(program, w, first + second)
    ensures Outcome(program, w, first + second) == Outcome(program, Outcome(program, w, first), second)
    decreases |first|
  {
    hide Can, Happen;
    if first == [] {
      assert [] + second == second;
    } else {
      Continue(program, Happen(program, w, first[0]), first[1..], second);
      assert (first + second)[1..] == first[1..] + second;
    }
  }

  /** The creating thread alone can submit all the tasks. */
  lemma {:induction false} CreatorGetsThrough(program: seq<P.Task>, start: P.Memory, w: World)
    returns (events: seq<Happening>)
    requires P.WellBehaved(program) && Invariant(program, start, w)
    ensures AllCan(program, w, events) && Invariant(program, start, Outcome(program, w, events))
    ensures AllSubmitted(program, Outcome(program, w, events))
    decreases if w.front <= |program| then |program| - w.front else 0, CapturesLeft(program, w.infos, w.front),
              OperationsLeft(w)
  {
    hide OrderKept, SetupsOk, LaunchesOk, P.Faithful, Can, Happen, AllSubmitted, CapturesLeft, OperationsLeft;
    events := [];
    if !AllSubmitted(program, w) {
      var e := CreatorCanGoOn(program, w);
      CreatorIsNearer(program, w, e);
      HappeningKeepsInvariant(program, start, w, e);
      StatusOfEach(program, w);
      StatusOfEach(program, Happen(program, w, e));
      events := CreatorGetsThrough(program, start, Happen(program, w, e));
      Prepend(program, w, e, events);
      events := [e] + events;
    }
  }

  /** All tasks are done, all their uses and those of the creating thread are released, and
      nothing is in flight. */
  ghost predicate AllOver(program: seq<P.Task>, w: World) {
    && AllSubmitted(program, w) && AllDone(program, w) && Settled(w.sys.books.state, true)
    && forall i :: 0 <= i < |w.sys.claims| ==> w.sys.claims[i].stage == Released
  }

  lemma WorkersFinish(program: seq<P.Task>, start: P.Memory, w: World) returns (e: Happening)
    requires Invariant(program, start, w) && AllSubmitted(program, w) && !AllOver(program, w)
    ensures Can(program, w, e) && (e.Cascade? || e.Run? || e.Release?)
  {
    if !AllDone(program, w) {
      e := WorkersCanGoOn(program, start, w);
    } else if m :| CounterNet.Enabled(w.sys.books.state, m, true) {
      e := Cascade(m);
    } else {
      var i :| 0 <= i < |w.sys.claims| && w.sys.claims[i].stage != Released;
      TaskIsKnown(program, w, i);
      e := Release(i);
    }
  }

  lemma TaskIsKnown(program: seq<P.Task>, w: World, i: nat)
    requires OrderKept(program, w) && i < |w.sys.claims|
    ensures i < |w.infos| && (IsAccess(w.infos[i]) ==> w.infos[i].task < |program|)
  {
    hide Ordered, ClaimsOk, ReleasesOk, StartsOk;
    assert i < |w.infos| by {
      ReleasesKnowAll(program, w);
    }
    assert DeclaredAt(program, w.infos, w.front, i);
  }

  lemma ReleasesKnowAll(program: seq<P.Task>, w: World)
    requires ReleasesOk(program, w)
    ensures |w.infos| == |w.sys.claims|
  {
  }

  lemma WorkersKeepSubmitted(program: seq<P.Task>, start: P.Memory, w: World, e: Happening)
    requires Invariant(program, start, w) && AllSubmitted(program, w) && Can(program, w, e)
    requires e.Cascade? || e.Run? || e.Release?
    ensures AllSubmitted(program, Happen(program, w, e))
  {
    hide SetupsOk, LaunchesOk, P.Faithful;
    match e
    case Release(i) => ReleaseStaysInPlace(program, w, i);
    case _ =>
  }

  lemma ReleaseStaysInPlace(program: seq<P.Task>, w: World, i: nat)
    requires OrderKept(program, w) && i < |w.sys.claims| && InPlace(w.sys.claims[i])
    ensures InPlace(NextClaim(w.sys.claims[i], |w.sys.books.held|))
  {
    StageGoesUp(w.sys.claims[i], |w.sys.books.held|);
  }

  lemma {:induction false} WorkersGetThrough(program: seq<P.Task>, start: P.Memory, w: World)
    returns (events: seq<Happening>)
    requires P.WellBehaved(program) && Invariant(program, start, w) && AllSubmitted(program, w)
    requires |w.exec.status| == |program|
    ensures AllCan(program, w, events) && Invariant(program, start, Outcome(program, w, events))
    ensures AllOver(program, Outcome(program, w, events)) && |events| <= Remaining(program, w)
    decreases Remaining(program, w)
  {
    hide OrderKept, SetupsOk, LaunchesOk, P.Faithful, Can, Happen, AllSubmitted, AllOver, Remaining;
    events := [];
    if !AllOver(program, w) {
      var e := WorkersFinish(program, start, w);
      EverythingEnds(program, start, w, e);
      HappeningKeepsInvariant(program, start, w, e);
      WorkersKeepSubmitted(program, start, w, e);
      events := WorkersGetThrough(program, start, Happen(program, w, e));
      Prepend(program, w, e, events);
      events := [e] + events;
    }
  }

  /** Every program can be brought to its end.  From every state that any run has led to some run
      leads on to the end: all tasks submitted and done, all uses released, nothing in flight, and
      the memory that of the sequential execution. */
  lemma ProgramsComplete(program: seq<P.Task>, start: P.Memory, events: seq<Happening>) returns (more: seq<Happening>)
    requires P.WellBehaved(program) && AllCan(program, Idle(program, start), events)
    ensures var w := Outcome(program, Idle(program, start), events);
      && AllCan(program, w, more) && AllOver(program, Outcome(program, w, more))
      && forall h: Handle ::
           Outcome(program, w, more).exec.memory(h) == P.Sequential(program, start, |program|)(h)
  {
    hide OrderKept, SetupsOk, LaunchesOk, P.Faithful, Outcome, AllCan, AllSubmitted;
    IdleIsInvariant(program, start);
    RunKeepsInvariant(program, start, Idle(program, start), events);
    var w := Outcome(program, Idle(program, start), events);
    var first := CreatorGetsThrough(program, start, w);
    var mid := Outcome(program, w, first);
    StatusOfEach(program, mid);
    var second := WorkersGetThrough(program, start, mid);
    Continue(program, w, first, second);
    more := first + second;
    var end := Outcome(program, w, more);
    forall h: Handle ensures end.exec.memory(h) == P.Sequential(program, start, |program|)(h) {
      EndIsSequential(program, start, end, h);
    }
  }

  lemma EndIsSequential(program: seq<P.Task>, start: P.Memory, w: World, h: Handle)
    requires Invariant(program, start, w) && AllOver(program, w)
    ensures w.exec.memory(h) == P.Sequential(program, start, |program|)(h)
  {
    hide OrderKept, SetupsOk, LaunchesOk, P.Faithful;
    StatusOfEach(program, w);
    P.AllDoneIsSequential(program, start, w.exec, h);
  }
}
