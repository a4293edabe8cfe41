/**
  A program running on the flow protocol: the thread that creates tasks registers their
  uses and submits them, worker threads run them, and the cascades of all the threads
  interleave in any order.

  How the frontend turns accesses into relationships is a hypothesis, stated by RequestFor:
  the writer of a version waits for the out-flow of the writer before (its in-flow is that
  flow), and for the anti-out-flow that writer made, which every reader of the version in
  between holds until it is released (its anti-in-flow is that anti-flow).  The creating
  thread itself holds the anti-flow of the newest version until the next writer is there.

  Every thread does one counter operation at a time, and others step in wherever they like.  A
  task that runs in place is one that is started as soon as its submission has launched it.
  */
module TaskGraph {
  import opened CounterNet
  import opened Options
  import opened UseHistories
  import opened UseProtocol
  import P = ProgramOrder

  type Handle = P.Handle

  /** What a use is for: the first version of a datum, the newest version of a datum, or an
      access of a task. */
  datatype Role = Opening | Keeping | Reading | Writing

  /** `prev` is the claim that made the version this one starts from. */
  datatype Info = Info(role: Role, handle: Handle, task: nat, prev: nat)

  datatype World = World(sys: System, infos: seq<Info>, front: nat, exec: P.Execution)

  predicate Accesses(i: Info, t: nat) {
    i.task == t && (i.role == Reading || i.role == Writing)
  }

  predicate MakesVersion(i: Info, h: Handle) {
    i.handle == h && (i.role == Opening || i.role == Writing)
  }

  /** The claim that made the newest version of `h`. */
  function Newest(infos: seq<Info>, h: Handle): Option<nat> {
    if infos == [] then None
    else if MakesVersion(infos[|infos| - 1], h) then Some(|infos| - 1)
    else Newest(infos[..|infos| - 1], h)
  }

  /** The flow that is ready when the version of this claim is there to be read, and the
      anti-flow that is ready when it may be overwritten. */
  function FlowOf(i: Info, k: Claim): Option<Id> {
    if i.role == Opening then k.use.inFlow else k.use.outFlow
  }

  function AntiOf(k: Claim): Option<Id> {
    k.use.antiOutFlow
  }

  const NOTHING := Relationship(Insignificant, Nowhere, false)

  function RequestFor(role: Role, flow: Option<Id>, anti: Option<Id>): Request {
    var same, antiSame := Relationship(Same, To(flow), false), Relationship(Same, To(anti), false);
    var initial, next := Relationship(Initial, Nowhere, false), Relationship(Kind.Next, Nowhere, true);
    match role
    case Opening => Request(initial, NOTHING, NOTHING, initial, false, false)
    case Keeping => Request(same, antiSame, NOTHING, NOTHING, false, false)
    case Reading => Request(same, NOTHING, NOTHING, antiSame, false, false)
    case Writing => Request(same, antiSame, next, next, true, false)
  }

  predicate InPlace(k: Claim) {
    Reached(k.stage) >= 4
  }

  predicate AllRegistered(claims: seq<Claim>) {
    forall i :: 0 <= i < |claims| ==> InPlace(claims[i])
  }

  predicate Captured(infos: seq<Info>, t: nat, h: Handle) {
    exists i :: 0 <= i < |infos| && Accesses(infos[i], t) && infos[i].handle == h
  }

  /** The triggers a task waits for: the in-flows of its uses, and the anti-in-flows of
      those that are anti-dependencies. */
  predicate IsTrigger(w: World, t: nat, c: Id) {
    exists i :: 0 <= i < |w.infos| && i < |w.sys.claims| && Accesses(w.infos[i], t) && TriggerOf(w.sys.claims[i], c)
  }

  function AsSeq(flow: Option<Id>): seq<Id> {
    if flow.Some? then [flow.value] else []
  }

  function Triggers(claims: seq<Claim>, infos: seq<Info>, t: nat): seq<Id> {
    if claims == [] || infos == [] then []
    else
      Triggers(claims[..|claims| - 1], infos[..|infos| - 1], t) +
      var k := claims[|claims| - 1];
      if Accesses(infos[|infos| - 1], t)
      then AsSeq(k.use.inFlow) + if k.use.antiDependency then AsSeq(k.use.antiInFlow) else []
      else []
  }

  // ---------------------------------------------------------------- what can happen

  /** The creating thread registers and submits one counter operation after the other; so do
      the workers when they release. */
  datatype Happening =
    | Capture(role: Role, handle: Handle) // the creating thread starts on a use
    | Register                            // the next operation of its registration
    | Submit                              // it starts to hand over the task with all its uses
    | Assemble                            // the next operation of that
    | Cascade(move: CounterNet.Move)      // some thread runs an action in flight
    | Run(act: P.Act)                     // a worker starts a task, does a step of it, or finishes it
    | Release(claim: nat)                 // the next operation of a release

  /** A newer version of the datum is registered. */
  predicate Superseded(w: World, i: nat) {
    exists j :: i < j < |w.infos| && j < |w.sys.claims| && i < |w.infos| && w.infos[j].role == Writing &&
                w.infos[j].handle == w.infos[i].handle && InPlace(w.sys.claims[j])
  }

  /** Uses of a task are released when it is done; those of the creating thread when a newer
      version is there, or when no more tasks will come. */
  predicate MayRelease(program: seq<P.Task>, w: World, i: nat) {
    i < |w.infos| &&
    if w.infos[i].role == Reading || w.infos[i].role == Writing
    then w.infos[i].task < |w.exec.status| && w.exec.status[w.infos[i].task] == P.Done
    else Superseded(w, i) || w.front == |program|
  }

  /** The creating thread has made a version and not taken hold of it yet. */
  predicate MustKeep(infos: seq<Info>) {
    infos != [] && infos[|infos| - 1].role == Writing
  }

  ghost predicate Can(program: seq<P.Task>, w: World, e: Happening) {
    match e
    case Capture(role, h) =>
      && AllRegistered(w.sys.claims) && AllAssembled(w.sys.setups)
      && (MustKeep(w.infos) ==> role == Keeping)
      && (match role
          case Opening => Newest(w.infos, h) == None
          case Keeping => MustKeep(w.infos) && h == w.infos[|w.infos| - 1].handle
          case Reading =>
            && w.front < |program| && h in program[w.front].inputs && h !in program[w.front].outputs
            && Newest(w.infos, h).Some? && !Captured(w.infos, w.front, h)
          case Writing =>
            && w.front < |program| && h in program[w.front].outputs
            && Newest(w.infos, h).Some? && !Captured(w.infos, w.front, h))
    case Register => w.sys.claims != [] && !InPlace(w.sys.claims[|w.sys.claims| - 1])
    case Submit =>
      && AllRegistered(w.sys.claims) && AllAssembled(w.sys.setups) && !MustKeep(w.infos) && w.front < |program|
      && forall h: Handle :: P.Touches(program[w.front], h) ==> Captured(w.infos, w.front, h)
    case Assemble => w.sys.setups != [] && w.sys.setups[|w.sys.setups| - 1].todo != []
    case Cascade(m) => CounterNet.Enabled(w.sys.books.state, m, true)
    case Run(a) =>
      && P.Enabled(program, w.exec, a)
      && (a.Start? ==> Launch(a.task) in w.sys.books.state.work)
    case Release(i) =>
      && i < |w.sys.claims| && InPlace(w.sys.claims[i]) && w.sys.claims[i].stage != Released
      && MayRelease(program, w, i)
  }

  ghost function Happen(program: seq<P.Task>, w: World, e: Happening): World {
    match e
    case Capture(role, h) =>
      var prev := Target(Newest(w.infos, h));
      var request :=
        if prev < |w.infos| && prev < |w.sys.claims|
        then RequestFor(role, FlowOf(w.infos[prev], w.sys.claims[prev]), AntiOf(w.sys.claims[prev]))
        else RequestFor(role, None, None);
      w.(sys := After(w.sys, Begin(request)), infos := w.infos + [Info(role, h, w.front, prev)])
    case Register => w.(sys := if w.sys.claims == [] then w.sys else After(w.sys, Advance(|w.sys.claims| - 1)))
    case Submit =>
      w.(sys := After(w.sys, Event.Submit(Triggers(w.sys.claims, w.infos, w.front), w.front)), front := w.front + 1)
    case Assemble =>
      w.(sys := if w.sys.setups == [] then w.sys else After(w.sys, Event.Assemble(|w.sys.setups| - 1)))
    case Cascade(m) => w.(sys := After(w.sys, Event.Move(m)))
    case Run(a) =>
      w.(sys := if a.Start? then Taken(w.sys, a.task) else w.sys,
         exec := if P.Enabled(program, w.exec, a) then P.Perform(program, w.exec, a) else w.exec)
    case Release(i) => w.(sys := After(w.sys, Advance(i)))
  }

  /** A worker takes a launched task out of its queue. */
  ghost function Taken(s: System, t: nat): System {
    s.(books := s.books.(state := s.books.state.(work := s.books.state.work - multiset{Launch(t)})))
  }

  ghost function Idle(program: seq<P.Task>, start: P.Memory): World {
    World(UseHistories.INITIAL, [], 0, P.NotStarted(program, start))
  }

  ghost predicate AllCan(program: seq<P.Task>, w: World, events: seq<Happening>)
    decreases |events|
  {
    events != [] ==> Can(program, w, events[0]) && AllCan(program, Happen(program, w, events[0]), events[1..])
  }

  ghost function Outcome(program: seq<P.Task>, w: World, events: seq<Happening>): World
    decreases |events|
  {
    if events == [] then w else Outcome(program, Happen(program, w, events[0]), events[1..])
  }
}
