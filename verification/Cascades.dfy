/**
  Cascades: what becomes of the network when the actions in flight run to their end.

  A cascade terminates, ends in the same state whatever the order of its actions and wherever
  other operations step in, and triggers exactly the counters that the attachment graph forces.
  */
module Cascades {
  import opened CounterNet

  // ---------------------------------------------------------------- termination and confluence

  /** Actions still attached, plus counters still to trigger. */
  function Stored(net: seq<Counter>): nat {
    if net == [] then 0
    else
      Stored(net[..|net| - 1]) + |net[|net| - 1].actions| + if net[|net| - 1].triggered then 0 else 1
  }

  function Potential(s: State): nat {
    Stored(s.net) + |s.work|
  }

  lemma {:induction false} StoredUpdate(net: seq<Counter>, i: Id, k: Counter)
    requires i < |net|
    ensures Stored(net[i := k]) ==
            Stored(net)
            - |net[i].actions| - (if net[i].triggered then 0 else 1)
            + |k.actions| + (if k.triggered then 0 else 1)
  {
    var n := |net| - 1;
    if i == n {
      assert net[i := k][..n] == net[..n];
    } else {
      StoredUpdate(net[..n], i, k);
      assert net[i := k][..n] == net[..n][i := k];
    }
  }

  /** The cascade cannot go on for ever: every move uses up exactly one unit. */
  lemma MoveSpendsOne(s: State, m: Move, drain: bool)
    requires Safe(s) && Enabled(s, m, drain)
    ensures CanApply(s, m) && Potential(Apply(s, m)) == Potential(s) - 1
  {
    MoveConserves(s, m, drain);
    match m
    case Do(a) => StoredUpdate(s.net, a.target, Apply(s, m).net[a.target]);
    case Fire(c) => StoredUpdate(s.net, c, Apply(s, m).net[c]);
  }

  /** Let everything in flight run to the end, in an arbitrary order. */
  ghost function Settle(s: State, drain: bool): (t: State)
    requires Safe(s)
    ensures Safe(t) && Settled(t, drain) && |t.net| == |s.net| && Potential(t) <= Potential(s)
    ensures forall c :: 0 <= c < |s.net| ==> Held(t, c) == Held(s, c)
    decreases Potential(s)
  {
    if Settled(s, drain) then s
    else
      var m := NextMove(s, drain);
      MoveConserves(s, m, drain);
      MoveSpendsOne(s, m, drain);
      Settle(Apply(s, m), drain)
  }

  ghost function NextMove(s: State, drain: bool): (m: Move)
    requires !Settled(s, drain)
    ensures Enabled(s, m, drain)
  {
    var m :| Enabled(s, m, drain);
    m
  }

  /** Two moves of two threads commute. */
  lemma MovesCommute(s: State, m: Move, n: Move, drain: bool)
    requires Safe(s) && Enabled(s, m, drain) && Enabled(s, n, drain) && m != n
    ensures CanApply(s, m) && CanApply(s, n)
    ensures Enabled(Apply(s, m), n, drain) && CanApply(Apply(s, m), n)
    ensures Enabled(Apply(s, n), m, drain) && CanApply(Apply(s, n), m)
    ensures Apply(Apply(s, m), n) == Apply(Apply(s, n), m)
  {
    MoveConserves(s, m, drain);
    MoveConserves(s, n, drain);
    match (m, n)
    case (Do(a), Do(b)) => DosCommute(s, a, b);
    case (Do(a), Fire(c)) => FireAndDoCommute(s, a, c);
    case (Fire(c), Do(a)) => FireAndDoCommute(s, a, c);
    case (Fire(c), Fire(d)) =>
      var u, v := Apply(Apply(s, m), n), Apply(Apply(s, n), m);
      assert u.net == v.net;
  }

  lemma DosDoNotCollide(s: State, a: Action, b: Action)
    requires Safe(s) && CanApply(s, Do(a)) && CanApply(s, Do(b)) && a != b
    ensures CanApply(Apply(s, Do(a)), Do(b)) && CanApply(Apply(s, Do(b)), Do(a))
  {
    assert Held(s, a.target) >= 0;
    assert b in Apply(s, Do(a)).work && a in Apply(s, Do(b)).work;
  }

  lemma DosCommute(s: State, a: Action, b: Action)
    requires Safe(s) && CanApply(s, Do(a)) && CanApply(s, Do(b)) && a != b
    ensures CanApply(Apply(s, Do(a)), Do(b)) && CanApply(Apply(s, Do(b)), Do(a))
    ensures Apply(Apply(s, Do(a)), Do(b)) == Apply(Apply(s, Do(b)), Do(a))
  {
    DosDoNotCollide(s, a, b);
    hide Safe, Held;
    var u, v := Apply(Apply(s, Do(a)), Do(b)), Apply(Apply(s, Do(b)), Do(a));
    assert u.net == v.net;
    assert u.work == v.work;
  }

  lemma FireAndDoCommute(s: State, a: Action, c: Id)
    requires Safe(s) && CanApply(s, Do(a)) && c < |s.net| && s.net[c].count == 0
    ensures a.target != c
    ensures CanApply(Apply(s, Do(a)), Fire(c)) && CanApply(Apply(s, Fire(c)), Do(a))
    ensures Apply(Apply(s, Do(a)), Fire(c)) == Apply(Apply(s, Fire(c)), Do(a))
  {
    var u, v := Apply(Apply(s, Do(a)), Fire(c)), Apply(Apply(s, Fire(c)), Do(a));
    assert u.net == v.net;
    assert u.work == v.work;
  }

  /** Whichever move comes first, the cascade ends in the same state. */
  lemma {:induction false} MoveKeepsOutcome(s: State, m: Move, drain: bool)
    requires Safe(s) && Enabled(s, m, drain)
    ensures CanApply(s, m) && Safe(Apply(s, m))
    ensures Settle(Apply(s, m), drain) == Settle(s, drain)
    decreases Potential(s)
  {
    MoveConserves(s, m, drain);
    var n := NextMove(s, drain);
    MoveConserves(s, n, drain);
    if n != m {
      MovesCommute(s, m, n, drain);
      MoveSpendsOne(s, m, drain);
      MoveSpendsOne(s, n, drain);
      MoveKeepsOutcome(Apply(s, n), m, drain);
      MoveKeepsOutcome(Apply(s, m), n, drain);
    }
  }

  /** A run: each state follows from the one before by some enabled move. */
  ghost predicate IsRun(run: seq<State>, drain: bool) {
    && run != []
    && (|run| > 1 ==> Follows(run[0], run[1], drain) && IsRun(run[1..], drain))
  }

  ghost predicate Follows(s: State, t: State, drain: bool) {
    exists m :: Enabled(s, m, drain) && CanApply(s, m) && t == Apply(s, m)
  }

  /** Confluence and termination.  Every run from a safe state stays safe, is no longer
      than the potential of its first state, and can only end in one state: whatever
      order the threads ran the actions in, the same counters are triggered, with the
      same counts left on the others. */
  lemma {:induction false} AllRunsAgree(run: seq<State>, drain: bool)
    requires IsRun(run, drain) && Safe(run[0])
    ensures |run| - 1 <= Potential(run[0])
    ensures Safe(run[|run| - 1])
    ensures Settle(run[|run| - 1], drain) == Settle(run[0], drain)
    ensures Settled(run[|run| - 1], drain) ==> run[|run| - 1] == Settle(run[0], drain)
  {
    hide Safe, Potential, Apply, Settled;
    if |run| > 1 {
      var m :| Enabled(run[0], m, drain) && CanApply(run[0], m) && run[1] == Apply(run[0], m);
      MoveConserves(run[0], m, drain);
      MoveSpendsOne(run[0], m, drain);
      MoveKeepsOutcome(run[0], m, drain);
      AllRunsAgree(run[1..], drain);
    }
  }

  // ---------------------------------------------------------------- the least fixpoint

  /** `x` contains what is triggered, and every counter whose remaining count would be
      used up by the decrements in flight and those attached to members of `x`. */
  ghost predicate Closed(s: State, x: set<Id>) {
    forall c :: 0 <= c < |s.net| ==>
      (s.net[c].triggered || s.net[c].count <= AttachedFrom(s.net, x, c) + Aimed(s.work, c)) ==> c in x
  }

  ghost function TriggeredSet(net: seq<Counter>): set<Id> {
    set c | 0 <= c < |net| && net[c].triggered
  }

  /** How far a counter is from triggering, if exactly the members of `x` trigger. */
  function Missing(s: State, x: set<Id>, c: Id): int
    requires c < |s.net|
  {
    s.net[c].count - AttachedFrom(s.net, x, c) - Aimed(s.work, c)
  }

  lemma MissingIsKept(s: State, m: Move, x: set<Id>, c: Id)
    requires CanApply(s, m) && c < |s.net| && (m.Fire? ==> m.id in x)
    ensures Missing(Apply(s, m), x, c) == Missing(s, x, c)
  {
    var t := Apply(s, m);
    match m
    case Do(a) => AttachedFromUpdate(s.net, a.target, t.net[a.target], x, c);
    case Fire(f) => AttachedFromUpdate(s.net, f, t.net[f], x, c);
  }

  lemma ClosedIsKept(s: State, m: Move, drain: bool, x: set<Id>)
    requires Safe(s) && Enabled(s, m, drain)
    ensures CanApply(s, m) && (Closed(s, x) <==> Closed(Apply(s, m), x))
  {
    MoveConserves(s, m, drain);
    var t := Apply(s, m);
    hide Safe, AttachedFrom, Aimed;
    if m.Fire? && m.id !in x {
      NobodyMissing(s, x, m.id);
      assert t.net[m.id].triggered;
    } else {
      forall c: Id | c < |s.net|
        ensures s.net[c].count - AttachedFrom(s.net, x, c) - Aimed(s.work, c) ==
                t.net[c].count - AttachedFrom(t.net, x, c) - Aimed(t.work, c)
      {
        MissingIsKept(s, m, x, c);
      }
    }
  }

  lemma NobodyMissing(s: State, x: set<Id>, c: Id)
    requires c < |s.net| && s.net[c].count == 0
    ensures s.net[c].count <= AttachedFrom(s.net, x, c) + Aimed(s.work, c)
  {
  }

  lemma {:induction false} ClosedAtTheEnd(s: State, drain: bool, x: set<Id>)
    requires Safe(s)
    ensures Closed(s, x) <==> Closed(Settle(s, drain), x)
    decreases Potential(s)
  {
    if !Settled(s, drain) {
      var m := NextMove(s, drain);
      MoveConserves(s, m, drain);
      MoveSpendsOne(s, m, drain);
      ClosedIsKept(s, m, drain, x);
      ClosedAtTheEnd(Apply(s, m), drain, x);
    }
  }

  lemma {:induction false} TriggeredCarryNothing(net: seq<Counter>, x: set<Id>, c: Id)
    requires forall i :: i in x && 0 <= i < |net| ==> net[i].actions == []
    ensures AttachedFrom(net, x, c) == 0
  {
    if net != [] {
      TriggeredCarryNothing(net[..|net| - 1], x, c);
    }
  }

  /** When everything in flight has run, the triggered counters are exactly the least
      closed set: a counter triggers if and only if the attachment graph forces it. */
  lemma TriggeredIsLeastFixpoint(s: State)
    requires Safe(s)
    ensures Closed(s, TriggeredSet(Settle(s, true).net))
    ensures forall x :: Closed(s, x) ==> TriggeredSet(Settle(s, true).net) <= x
  {
    var t := Settle(s, true);
    var set0 := TriggeredSet(t.net);
    forall c | 0 <= c < |t.net| && t.net[c].count <= AttachedFrom(t.net, set0, c) + Aimed(t.work, c)
      ensures c in set0
    {
      TriggeredCarryNothing(t.net, set0, c);
      assert !Enabled(t, Fire(c), true);
      assert !Enabled(t, Do(Decrement(c)), true);
      assert !Enabled(t, Do(Alias(c)), true);
    }
    assert Closed(t, set0);
    ClosedAtTheEnd(s, true, set0);
    forall x | Closed(s, x) ensures set0 <= x {
      ClosedAtTheEnd(s, true, x);
    }
  }

  // ---------------------------------------------------------------- one cascade inside another

  function Plus(s: State, more: multiset<Action>): State {
    State(s.net, s.work + more)
  }

  lemma PartIsSafe(s: State, more: multiset<Action>)
    requires Safe(Plus(s, more))
    ensures Safe(s)
  {
    var whole := Plus(s, more);
    forall c | 0 <= c < |s.net| ensures Held(s, c) >= 0 {
      assert Held(whole, c) >= 0;
    }
    forall a | a in s.work ensures Within(a, |s.net|) {
      assert a in whole.work;
    }
  }

  lemma ApplyPlus(s: State, more: multiset<Action>, m: Move)
    requires CanApply(s, m)
    ensures CanApply(Plus(s, more), m) && Apply(Plus(s, more), m) == Plus(Apply(s, m), more)
    ensures forall drain :: Enabled(s, m, drain) ==> Enabled(Plus(s, more), m, drain)
  {
    assert Apply(Plus(s, more), m).work == Plus(Apply(s, m), more).work;
  }

  /** Running part of the work to the end first does not change the final outcome. */
  lemma {:induction false} SettleInPieces(s: State, more: multiset<Action>, drain: bool)
    requires Safe(Plus(s, more))
    ensures Safe(s) && Safe(Plus(Settle(s, drain), more))
    ensures Settle(Plus(Settle(s, drain), more), drain) == Settle(Plus(s, more), drain)
    decreases Potential(s)
  {
    hide Safe, Apply, Potential, Plus;
    PartIsSafe(s, more);
    if !Settled(s, drain) {
      var m := NextMove(s, drain);
      MoveConserves(s, m, drain);
      MoveSpendsOne(s, m, drain);
      ApplyPlus(s, more, m);
      MoveConserves(Plus(s, more), m, drain);
      MoveKeepsOutcome(Plus(s, more), m, drain);
      SettleInPieces(Apply(s, m), more, drain);
    }
  }

  // ---------------------------------------------------------------- cascades among operations

  ghost predicate AllAllowed(s: State, ops: seq<Op>)
    decreases |ops|
  {
    ops != [] ==> Allowed(s, ops[0]) && AllAllowed(Perform(s, ops[0]), ops[1..])
  }

  function PerformAll(s: State, ops: seq<Op>): State
    decreases |ops|
  {
    if ops == [] then s else PerformAll(Perform(s, ops[0]), ops[1..])
  }

  /** What the clients do, without the cascade steps in between. */
  function ClientOps(ops: seq<Op>): seq<Op> {
    if ops == [] then []
    else (if ops[0].Step? then [] else [ops[0]]) + ClientOps(ops[1..])
  }

  lemma {:induction false} AllStaysSafe(s: State, ops: seq<Op>)
    requires Safe(s) && AllAllowed(s, ops)
    ensures Safe(PerformAll(s, ops))
    decreases |ops|
  {
    hide Safe, Allowed;
    if ops != [] {
      OpConserves(s, ops[0]);
      AllStaysSafe(Perform(s, ops[0]), ops[1..]);
    }
  }

  lemma CreateFirst(s: State, m: Move, k: nat)
    requires CanApply(s, m) && CanApply(Perform(s, Create(k)), m)
    ensures Perform(Apply(s, m), Create(k)) == Apply(Perform(s, Create(k)), m)
  {
    assert Perform(Apply(s, m), Create(k)).net == Apply(Perform(s, Create(k)), m).net;
  }

  lemma RaiseFirst(s: State, m: Move, c: Id)
    requires CanApply(s, m) && CanApply(Perform(s, Raise(c)), m)
    ensures Perform(Apply(s, m), Raise(c)) == Apply(Perform(s, Raise(c)), m)
  {
    assert Perform(Apply(s, m), Raise(c)).net == Apply(Perform(s, Raise(c)), m).net;
  }

  lemma DropFirst(s: State, m: Move, c: Id)
    requires CanApply(s, m) && CanApply(Perform(s, Drop(c)), m)
    ensures Perform(Apply(s, m), Drop(c)) == Apply(Perform(s, Drop(c)), m)
  {
    assert Perform(Apply(s, m), Drop(c)).work == Apply(Perform(s, Drop(c)), m).work;
  }

  lemma DoThenQueue(s: State, x: Action, c: Id, a: Action)
    requires CanApply(s, Do(x)) && c < |s.net| && s.net[c].triggered
    ensures CanApply(Perform(s, Attach(c, a)), Do(x))
    ensures Perform(Apply(s, Do(x)), Attach(c, a)) == Apply(Perform(s, Attach(c, a)), Do(x))
  {
    TakeThenPut(s.work, x, a);
  }

  lemma TakeThenPut(work: multiset<Action>, x: Action, a: Action)
    requires x in work
    ensures work - multiset{x} + multiset{a} == work + multiset{a} - multiset{x}
  {
  }

  lemma DoThenHook(s: State, x: Action, c: Id, a: Action)
    requires CanApply(s, Do(x)) && c < |s.net| && !s.net[c].triggered
    ensures CanApply(Perform(s, Attach(c, a)), Do(x))
    ensures Perform(Apply(s, Do(x)), Attach(c, a)) == Apply(Perform(s, Attach(c, a)), Do(x))
  {
    DoThenStore(s.net, x.target, c, a);
  }

  lemma DoThenAttach(s: State, x: Action, c: Id, a: Action)
    requires CanApply(s, Do(x)) && c < |s.net|
    ensures CanApply(Perform(s, Attach(c, a)), Do(x))
    ensures Perform(Apply(s, Do(x)), Attach(c, a)) == Apply(Perform(s, Attach(c, a)), Do(x))
  {
    hide Apply, Perform;
    if s.net[c].triggered {
      DoThenQueue(s, x, c, a);
    } else {
      DoThenHook(s, x, c, a);
    }
  }

  /** Lowering one counter and storing an action at another, or the same. */
  lemma DoThenStore(net: seq<Counter>, d: Id, c: Id, a: Action)
    requires d < |net| && c < |net| && net[d].count > 0
    ensures var low := net[d := net[d].(count := net[d].count - 1)];
      var stored := net[c := net[c].(actions := net[c].actions + [a])];
      low[c := low[c].(actions := low[c].actions + [a])] == stored[d := stored[d].(count := stored[d].count - 1)]
  {
  }

  lemma FireThenAttachElsewhere(s: State, f: Id, c: Id, a: Action)
    requires f < |s.net| && (c == f ==> s.net[f].triggered)
    ensures Perform(Apply(s, Fire(f)), Attach(c, a)) == Apply(Perform(s, Attach(c, a)), Fire(f))
  {
    var u, v := Perform(Apply(s, Fire(f)), Attach(c, a)), Apply(Perform(s, Attach(c, a)), Fire(f));
    assert u.net == v.net;
    assert u.work == v.work;
  }

  lemma FireThenAttach(s: State, f: Id, a: Action)
    requires f < |s.net| && !s.net[f].triggered
    ensures Perform(Apply(s, Fire(f)), Attach(f, a)) == Apply(Perform(s, Attach(f, a)), Fire(f))
  {
    var u, v := Perform(Apply(s, Fire(f)), Attach(f, a)), Apply(Perform(s, Attach(f, a)), Fire(f));
    assert multiset(s.net[f].actions + [a]) == multiset(s.net[f].actions) + multiset{a};
    assert u.net == v.net;
    assert u.work == v.work;
  }

  lemma StillEnabled(s: State, m: Move, op: Op)
    requires Enabled(s, m, true) && CanApply(s, m) && !op.Step?
    requires m.Fire? && op.Raise? ==> m.id != op.id
    ensures Enabled(Perform(s, op), m, true) && CanApply(Perform(s, op), m)
  {
  }

  lemma AllowedBefore(s: State, m: Move, op: Op)
    requires Safe(s) && Enabled(s, m, true) && CanApply(s, m) && !op.Step? && Allowed(Apply(s, m), op)
    ensures Allowed(s, op) && (m.Fire? && op.Raise? ==> m.id != op.id)
  {
    MoveConserves(s, m, true);
    hide Held, Safe;
  }

  /** An operation that is allowed after a step of a cascade is allowed before it, and it makes
      no difference which comes first. */
  lemma OpFirst(s: State, m: Move, op: Op)
    requires Safe(s) && Enabled(s, m, true) && CanApply(s, m) && !op.Step? && Allowed(Apply(s, m), op)
    ensures Allowed(s, op) && Enabled(Perform(s, op), m, true) && CanApply(Perform(s, op), m)
    ensures Perform(Apply(s, m), op) == Apply(Perform(s, op), m)
  {
    AllowedBefore(s, m, op);
    StillEnabled(s, m, op);
    hide Safe, Allowed, Perform, Apply;
    match op
    case Create(k) => CreateFirst(s, m, k);
    case Raise(c) => RaiseFirst(s, m, c);
    case Drop(c) => DropFirst(s, m, c);
    case Attach(c, a) =>
      if m.Do? {
        DoThenAttach(s, m.action, c, a);
      } else if m.id == c && !s.net[c].triggered {
        FireThenAttach(s, c, a);
      } else {
        FireThenAttachElsewhere(s, m.id, c, a);
      }
  }

  lemma {:induction false} MoveLast(s: State, m: Move, ops: seq<Op>)
    requires Safe(s) && Enabled(s, m, true) && CanApply(s, m) && AllAllowed(Apply(s, m), ops)
    requires forall i :: 0 <= i < |ops| ==> !ops[i].Step?
    ensures AllAllowed(s, ops) && Safe(PerformAll(s, ops)) && Safe(PerformAll(Apply(s, m), ops))
    ensures Settle(PerformAll(Apply(s, m), ops), true) == Settle(PerformAll(s, ops), true)
    decreases |ops|
  {
    hide Safe, Allowed;
    if ops == [] {
      MoveKeepsOutcome(s, m, true);
    } else {
      OpFirst(s, m, ops[0]);
      OpConserves(s, ops[0]);
      MoveLast(Perform(s, ops[0]), m, ops[1..]);
    }
  }

  /** Where in between the operations of the clients the cascades step in, and which, makes no
      difference: in the end there is the outcome of the operations alone. */
  lemma {:induction false} StepsInBetween(s: State, ops: seq<Op>)
    requires Safe(s) && AllAllowed(s, ops)
    ensures AllAllowed(s, ClientOps(ops)) && Safe(PerformAll(s, ops)) && Safe(PerformAll(s, ClientOps(ops)))
    ensures Settle(PerformAll(s, ops), true) == Settle(PerformAll(s, ClientOps(ops)), true)
    decreases |ops|
  {
    hide Safe, Allowed, Settle;
    if ops != [] {
      OpConserves(s, ops[0]);
      StepsInBetween(Perform(s, ops[0]), ops[1..]);
      NoSteps(ops[1..]);
      if ops[0].Step? {
        StepIsMove(s, ops[0].move);
        assert ClientOps(ops) == ClientOps(ops[1..]);
        MoveLast(s, ops[0].move, ClientOps(ops[1..]));
      } else {
        assert ClientOps(ops)[1..] == ClientOps(ops[1..]);
      }
    }
  }

  lemma StepIsMove(s: State, m: Move)
    requires Safe(s) && Allowed(s, Step(m))
    ensures Enabled(s, m, true) && CanApply(s, m) && Perform(s, Step(m)) == Apply(s, m)
  {
    MoveConserves(s, m, true);
  }

  lemma {:induction false} NoSteps(ops: seq<Op>)
    ensures forall i :: 0 <= i < |ClientOps(ops)| ==> !ClientOps(ops)[i].Step?
  {
    if ops != [] {
      NoSteps(ops[1..]);
    }
  }

  lemma {:induction false} PerformMore(s: State, first: seq<Op>, second: seq<Op>)
    ensures PerformAll(s, first + second) == PerformAll(PerformAll(s, first), second)
    decreases |first|
  {
    if first == [] {
      assert [] + second == second;
    } else {
      assert (first + second)[1..] == first[1..] + second;
      PerformMore(Perform(s, first[0]), first[1..], second);
    }
  }

  // ---------------------------------------------------------------- how far counts go down

  lemma {:induction false} MissingAtTheEnd(s: State, x: set<Id>, c: Id)
    requires Safe(s) && c < |s.net| && x == TriggeredSet(Settle(s, true).net)
    ensures Missing(Settle(s, true), x, c) == Missing(s, x, c)
    decreases Potential(s)
  {
    hide Safe, Apply, Potential, Missing;
    if !Settled(s, true) {
      var m := NextMove(s, true);
      MoveConserves(s, m, true);
      MoveSpendsOne(s, m, true);
      var t := Apply(s, m);
      MissingAtTheEnd(t, x, c);
      if m.Fire? {
        FiredIsTriggered(s, m.id);
        TriggeredStays(t, true, m.id);
      }
      MissingIsKept(s, m, x, c);
    }
  }

  lemma FiredIsTriggered(s: State, c: Id)
    requires c < |s.net|
    ensures Apply(s, Fire(c)).net[c].triggered && |Apply(s, Fire(c)).net| == |s.net|
  {
  }

  /** The final count: what was there, less the decrements in flight and those attached
      to the counters that triggered. */
  lemma CountAtTheEnd(s: State, x: set<Id>, c: Id)
    requires Safe(s) && c < |s.net| && x == TriggeredSet(Settle(s, true).net)
    ensures Settle(s, true).net[c].count == s.net[c].count - AttachedFrom(s.net, x, c) - Aimed(s.work, c)
  {
    var t := Settle(s, true);
    MissingAtTheEnd(s, x, c);
    hide Settle;
    TriggeredCarryNothing(t.net, x, c);
    assert !Enabled(t, Do(Decrement(c)), true);
    assert !Enabled(t, Do(Alias(c)), true);
  }

  lemma {:induction false} TriggeredStays(s: State, drain: bool, c: Id)
    requires Safe(s) && c < |s.net| && s.net[c].triggered
    ensures Settle(s, drain).net[c].triggered
    decreases Potential(s)
  {
    if !Settled(s, drain) {
      var m := NextMove(s, drain);
      MoveConserves(s, m, drain);
      MoveSpendsOne(s, m, drain);
      TriggeredStays(Apply(s, m), drain, c);
    }
  }

  // ---------------------------------------------------------------- progress

  /** No counter waits for itself: attachments go from lower to higher ranks. */
  predicate Acyclic(s: State, rank: seq<nat>) {
    && |rank| == |s.net|
    && forall i, a :: 0 <= i < |s.net| && a in s.net[i].actions && !a.Launch? && a.target < |s.net| ==>
         rank[i] < rank[a.target]
  }

  lemma {:induction false} AttachedSomewhere(net: seq<Counter>, c: Id) returns (i: Id)
    requires Attached(net, c) > 0
    ensures i < |net| && Aimed(multiset(net[i].actions), c) > 0
  {
    i := |net| - 1;
    if Aimed(multiset(net[i].actions), c) == 0 {
      i := AttachedSomewhere(net[..i], c);
    }
  }

  /** Whenever everything in flight has run and a counter has not triggered, somebody
      still holds it or a counter it waits for, directly or at some remove. */
  lemma {:induction false} SomebodyHoldsItBack(s: State, rank: seq<nat>, c: Id) returns (d: Id)
    requires Safe(s) && Settled(s, true) && Acyclic(s, rank)
    requires c < |s.net| && !s.net[c].triggered
    ensures d < |s.net| && Held(s, d) > 0 && !s.net[d].triggered && rank[d] <= rank[c]
    decreases rank[c]
  {
    d := c;
    assert Held(s, c) >= 0;
    if Held(s, c) == 0 {
      TriggeredIffDischarged(s, c);
      var i := AttachedSomewhere(s.net, c);
      assert Decrement(c) in s.net[i].actions || Alias(c) in s.net[i].actions;
      d := SomebodyHoldsItBack(s, rank, i);
    }
  }

  /** Once nobody holds anything, every counter triggers. */
  lemma NothingHeldEverythingTriggers(s: State, rank: seq<nat>)
    requires Safe(s) && Settled(s, true) && Acyclic(s, rank)
    requires forall c :: 0 <= c < |s.net| ==> Held(s, c) == 0
    ensures forall c :: 0 <= c < |s.net| ==> s.net[c].triggered
  {
    forall c | 0 <= c < |s.net| ensures s.net[c].triggered {
      if !s.net[c].triggered {
        var d := SomebodyHoldsItBack(s, rank, c);
      }
    }
  }
}
