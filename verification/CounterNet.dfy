/**
  The network of join counters behind the flows and anti-flows of the runtime.

  Every flow and anti-flow owns one join counter.  A counter that reaches zero is
  triggered, and the actions attached to it run: most of them decrement other
  counters, which may trigger in turn.  Threads run these cascades concurrently.

  A state is the network together with the multiset of actions in flight: those some
  thread has taken off a triggered counter and not finished yet, and those waiting in
  a worker's queue.  Any action in flight may be the next to run, so a run of this
  machine covers every interleaving of any number of threads.  A counter that has
  reached zero but has not stored its `triggered` flag yet is visible as a separate
  state, because the source does the subtraction and the store in two steps.
  */
module CounterNet {

  type Id = nat

  /** What may be attached to a counter. */
  datatype Action =
    | Decrement(target: Id)   // subtract one from another counter
    | Alias(target: Id)       // enqueue an operation that subtracts one from a counter
    | Launch(task: nat)       // enqueue a task

  datatype Counter = Counter(count: nat, triggered: bool, actions: seq<Action>)

  datatype State = State(net: seq<Counter>, work: multiset<Action>)

  datatype Move = Do(action: Action) | Fire(id: Id)

  predicate Aims(a: Action, c: Id) {
    a == Decrement(c) || a == Alias(c)
  }

  /** How many of these actions will decrement `c`. */
  function Aimed(actions: multiset<Action>, c: Id): nat {
    actions[Decrement(c)] + actions[Alias(c)]
  }

  /** How many decrements of `c` are still attached to counters of the network. */
  function Attached(net: seq<Counter>, c: Id): nat {
    if net == [] then 0
    else Attached(net[..|net| - 1], c) + Aimed(multiset(net[|net| - 1].actions), c)
  }

  /** The same, counting only what is attached to the counters in `from`. */
  function AttachedFrom(net: seq<Counter>, from: set<Id>, c: Id): nat {
    if net == [] then 0
    else
      AttachedFrom(net[..|net| - 1], from, c) +
      if |net| - 1 in from then Aimed(multiset(net[|net| - 1].actions), c) else 0
  }

  /** The obligations on `c` that nothing in the network or in flight will discharge:
      what is left over must be held by clients. */
  function Held(s: State, c: Id): int
    requires c < |s.net|
  {
    s.net[c].count - Attached(s.net, c) - Aimed(s.work, c)
  }

  predicate Within(a: Action, n: nat) {
    !a.Launch? ==> a.target < n
  }

  ghost predicate WellFormed(s: State) {
    && (forall a :: a in s.work ==> Within(a, |s.net|))
    && (forall i, a :: 0 <= i < |s.net| && a in s.net[i].actions ==> Within(a, |s.net|))
    && (forall i :: 0 <= i < |s.net| && s.net[i].triggered ==> s.net[i].count == 0 && s.net[i].actions == [])
  }

  /** Nobody will ever decrement a counter below zero, or after it triggered. */
  ghost predicate Safe(s: State) {
    && WellFormed(s)
    && forall c :: 0 <= c < |s.net| ==> Held(s, c) >= 0
  }

  // ---------------------------------------------------------------- moves

  /** `drain` says whether the operations waiting in the work queues may run, too. */
  predicate Enabled(s: State, m: Move, drain: bool) {
    match m
    case Do(a) => a in s.work && (a.Decrement? || (drain && a.Alias?))
    case Fire(c) => c < |s.net| && s.net[c].count == 0 && !s.net[c].triggered
  }

  /** The move does not fail an assertion of the source. */
  predicate CanApply(s: State, m: Move) {
    match m
    case Do(a) => a in s.work && !a.Launch? && a.target < |s.net| && s.net[a.target].count > 0
    case Fire(c) => c < |s.net|
  }

  function Apply(s: State, m: Move): State
    requires CanApply(s, m)
  {
    match m
    case Do(a) =>
      var k := s.net[a.target];
      State(s.net[a.target := k.(count := k.count - 1)], s.work - multiset{a})
    case Fire(c) =>
      var k := s.net[c];
      State(s.net[c := k.(triggered := true, actions := [])], s.work + multiset(k.actions))
  }

  ghost predicate Settled(s: State, drain: bool) {
    forall m :: !Enabled(s, m, drain)
  }

  // ---------------------------------------------------------------- counting lemmas

  lemma {:induction false} AttachedUpdate(net: seq<Counter>, i: Id, k: Counter, c: Id)
    requires i < |net|
    ensures Attached(net[i := k], c) ==
            Attached(net, c) - Aimed(multiset(net[i].actions), c) + Aimed(multiset(k.actions), c)
  {
    var n := |net| - 1;
    if i == n {
      assert net[i := k][..n] == net[..n];
    } else {
      AttachedUpdate(net[..n], i, k, c);
      assert net[i := k][..n] == net[..n][i := k];
    }
  }

  lemma {:induction false} AttachedFromUpdate(net: seq<Counter>, i: Id, k: Counter, from: set<Id>, c: Id)
    requires i < |net|
    ensures AttachedFrom(net[i := k], from, c) ==
            AttachedFrom(net, from, c) +
            if i in from then Aimed(multiset(k.actions), c) - Aimed(multiset(net[i].actions), c) else 0
  {
    var n := |net| - 1;
    if i == n {
      assert net[i := k][..n] == net[..n];
    } else {
      AttachedFromUpdate(net[..n], i, k, from, c);
      assert net[i := k][..n] == net[..n][i := k];
    }
  }

  lemma {:induction false} AttachedAtLeast(net: seq<Counter>, i: Id, c: Id)
    requires i < |net|
    ensures Attached(net, c) >= Aimed(multiset(net[i].actions), c)
  {
    if i < |net| - 1 {
      AttachedAtLeast(net[..|net| - 1], i, c);
    }
  }

  lemma {:induction false} AttachedZero(net: seq<Counter>, c: Id)
    requires forall i, a :: 0 <= i < |net| && a in net[i].actions ==> !Aims(a, c)
    ensures Attached(net, c) == 0
  {
    if net != [] {
      assert Aims(Decrement(c), c) && Aims(Alias(c), c);
      assert Decrement(c) !in net[|net| - 1].actions && Alias(c) !in net[|net| - 1].actions;
      AttachedZero(net[..|net| - 1], c);
    }
  }

  // ---------------------------------------------------------------- conservation

  /** Conservation of obligations: no move of any thread changes what the clients hold,
      and every move keeps the network safe.  In particular the assertion in
      `decrement_count` holds whenever a decrement runs. */
  lemma {:induction false} MoveConserves(s: State, m: Move, drain: bool)
    requires Safe(s) && Enabled(s, m, drain)
    ensures CanApply(s, m)
    ensures m.Do? ==> !s.net[m.action.target].triggered
    ensures Safe(Apply(s, m)) && |Apply(s, m).net| == |s.net|
    ensures forall c :: 0 <= c < |s.net| ==> Held(Apply(s, m), c) == Held(s, c)
  {
    match m
    case Do(a) =>
      assert Held(s, a.target) >= 0;
      assert Aimed(s.work, a.target) >= 1;
      var t := Apply(s, m);
      forall c | 0 <= c < |s.net| ensures Held(t, c) == Held(s, c) {
        AttachedUpdate(s.net, a.target, t.net[a.target], c);
      }
    case Fire(f) =>
      var t := Apply(s, m);
      forall c | 0 <= c < |s.net| ensures Held(t, c) == Held(s, c) {
        AttachedUpdate(s.net, f, t.net[f], c);
      }
      forall a | a in t.work ensures Within(a, |s.net|) {
        assert a in s.work || a in s.net[f].actions;
      }
  }

  /** Once every obligation is discharged the counter has triggered, and not before:
      in a settled state a counter is triggered exactly when no client holds it and no
      attached decrement aims at it. */
  lemma TriggeredIffDischarged(s: State, c: Id)
    requires Safe(s) && Settled(s, true) && c < |s.net|
    ensures s.net[c].triggered <==> Held(s, c) == 0 && Attached(s.net, c) == 0
  {
    assert !Enabled(s, Fire(c), true);
    assert !Enabled(s, Do(Decrement(c)), true);
    assert !Enabled(s, Do(Alias(c)), true);
  }

  /** At any time, settled or not: a counter somebody holds, or that is still the
      target of a pending decrement, has not triggered and is not about to. */
  lemma OwedMeansNotTriggered(s: State, c: Id)
    requires Safe(s) && c < |s.net|
    requires Held(s, c) > 0 || Attached(s.net, c) > 0 || Aimed(s.work, c) > 0
    ensures !s.net[c].triggered && s.net[c].count > 0
  {
    assert Held(s, c) >= 0;
  }

  // ---------------------------------------------------------------- what clients do to the network

  /** Operations of the threads that register and release uses. */
  datatype Op =
    | Create(count: nat)            // a new flow or anti-flow, its whole count held by the client
    | Raise(id: Id)                 // increment: the client now holds one more
    | Drop(id: Id)                  // the client starts a decrement of something it holds
    | Attach(id: Id, action: Action) // hand an obligation to an action, to run when `id` triggers
    | Step(move: Move)              // some thread runs an action in flight

  /** The source asserts that a counter being raised has not triggered.  A client can
      only be sure of that while the counter is owed something, so that is the demand. */
  ghost predicate Allowed(s: State, op: Op) {
    match op
    case Create(k) => k > 0
    case Raise(c) => c < |s.net| && s.net[c].count > 0
    case Drop(c) => c < |s.net| && Held(s, c) > 0
    case Attach(c, a) => c < |s.net| && (!a.Launch? ==> a.target < |s.net| && Held(s, a.target) > 0)
    case Step(m) => Enabled(s, m, true)
  }

  function Perform(s: State, op: Op): State {
    match op
    case Create(k) => State(s.net + [Counter(k, false, [])], s.work)
    case Raise(c) =>
      if c < |s.net| then State(s.net[c := s.net[c].(count := s.net[c].count + 1)], s.work) else s
    case Drop(c) => State(s.net, s.work + multiset{Decrement(c)})
    case Attach(c, a) =>
      if c >= |s.net| then s
      else if s.net[c].triggered then State(s.net, s.work + multiset{a})
      else State(s.net[c := s.net[c].(actions := s.net[c].actions + [a])], s.work)
    case Step(m) => if CanApply(s, m) then Apply(s, m) else s
  }

  /** What the operation does to the holdings of the clients. */
  function Gain(op: Op, c: Id, n: nat): int {
    match op
    case Create(k) => if c == n then k else 0
    case Raise(d) => if c == d then 1 else 0
    case Drop(d) => if c == d then -1 else 0
    case Attach(_, a) => if Aims(a, c) then -1 else 0
    case Step(_) => 0
  }

  /** Conservation for clients: the network stays safe under every operation, and the
      holdings change by exactly what the operation takes or gives back. */
  lemma OpConserves(s: State, op: Op)
    requires Safe(s) && Allowed(s, op)
    ensures Safe(Perform(s, op)) && |Perform(s, op).net| == |s.net| + if op.Create? then 1 else 0
    ensures forall c :: 0 <= c < |s.net| ==> Held(Perform(s, op), c) == Held(s, c) + Gain(op, c, |s.net|)
    ensures op.Create? ==> Held(Perform(s, op), |s.net|) == op.count
  {
    match op
    case Create(k) => CreateConserves(s, k);
    case Raise(c) => RaiseConserves(s, c);
    case Drop(c) => DropConserves(s, c);
    case Attach(c, a) => AttachConserves(s, c, a);
    case Step(m) => MoveConserves(s, m, true);
  }

  lemma CreateConserves(s: State, k: nat)
    requires Safe(s) && k > 0
    ensures var t := Perform(s, Create(k));
            && Safe(t) && Held(t, |s.net|) == k
            && forall c :: 0 <= c < |s.net| ==> Held(t, c) == Held(s, c)
  {
    var t, n := Perform(s, Create(k)), |s.net|;
    assert t.net[..n] == s.net;
    assert !Within(Decrement(n), n) && !Within(Alias(n), n);
    forall i, a | 0 <= i < n && a in s.net[i].actions ensures Within(a, n) && !Aims(a, n) {
    }
    AttachedZero(s.net, n);
    forall i, a | 0 <= i <= n && a in t.net[i].actions ensures Within(a, n + 1) {
      assert i < n && Within(a, n);
    }
    forall c | 0 <= c < n ensures Held(t, c) == Held(s, c) {
      assert Attached(t.net, c) == Attached(s.net, c);
    }
  }

  lemma DropConserves(s: State, d: Id)
    requires Safe(s) && Allowed(s, Drop(d))
    ensures var t := Perform(s, Drop(d));
            && Safe(t)
            && forall c :: 0 <= c < |s.net| ==> Held(t, c) == Held(s, c) - if c == d then 1 else 0
  {
    var t := Perform(s, Drop(d));
    forall c | 0 <= c < |s.net| ensures Held(t, c) == Held(s, c) - if c == d then 1 else 0 {
    }
  }

  lemma RaiseConserves(s: State, d: Id)
    requires Safe(s) && d < |s.net| && s.net[d].count > 0
    ensures var t := Perform(s, Raise(d));
            && Safe(t)
            && forall c :: 0 <= c < |s.net| ==> Held(t, c) == Held(s, c) + if c == d then 1 else 0
  {
    var t := Perform(s, Raise(d));
    forall c | 0 <= c < |s.net| ensures Held(t, c) == Held(s, c) + if c == d then 1 else 0 {
      AttachedUpdate(s.net, d, t.net[d], c);
    }
  }

  lemma StoringConserves(s: State, d: Id, a: Action)
    requires Safe(s) && Allowed(s, Attach(d, a)) && !s.net[d].triggered
    ensures var t := Perform(s, Attach(d, a));
            forall c :: 0 <= c < |s.net| ==> Held(t, c) == Held(s, c) - if Aims(a, c) then 1 else 0
  {
    var t := Perform(s, Attach(d, a));
    assert multiset(t.net[d].actions) == multiset(s.net[d].actions) + multiset{a};
    forall c | 0 <= c < |s.net| ensures Held(t, c) == Held(s, c) - if Aims(a, c) then 1 else 0 {
      AttachedUpdate(s.net, d, t.net[d], c);
    }
  }

  lemma AttachConserves(s: State, d: Id, a: Action)
    requires Safe(s) && Allowed(s, Attach(d, a))
    ensures var t := Perform(s, Attach(d, a));
            && Safe(t)
            && forall c :: 0 <= c < |s.net| ==> Held(t, c) == Held(s, c) - if Aims(a, c) then 1 else 0
  {
    var t := Perform(s, Attach(d, a));
    if !s.net[d].triggered {
      StoringConserves(s, d, a);
      hide Held;
      assert forall b :: b in t.net[d].actions ==> b in s.net[d].actions || b == a;
    } else {
      forall c | 0 <= c < |s.net| ensures Held(t, c) == Held(s, c) - if Aims(a, c) then 1 else 0 {
      }
    }
  }
}
