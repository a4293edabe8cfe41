/**
  How many operations still wait for their counter to trigger, and where launches are.
  */
module Dispatches {
  import opened Cascades
  import opened CounterNet
  import opened UseProtocol

  /** The action puts an operation into a work queue when it runs. */
  predicate IsDispatch(a: Action) {
    a.Alias? || a.Launch?
  }

  function DispatchesOf(actions: seq<Action>): nat {
    if actions == [] then 0
    else DispatchesOf(actions[..|actions| - 1]) + if IsDispatch(actions[|actions| - 1]) then 1 else 0
  }

  /** The dispatches attached to counters that have not triggered. */
  function DispatchesIn(net: seq<Counter>): nat {
    if net == [] then 0 else DispatchesIn(net[..|net| - 1]) + DispatchesOf(net[|net| - 1].actions)
  }

  /** The operations among the work in flight. */
  ghost function Operations(work: multiset<Action>): nat {
    if work == multiset{} then 0
    else
      var a :| a in work;
      Operations(work - multiset{a}) + if IsDispatch(a) then 1 else 0
  }

  ghost function Outstanding(s: State): nat {
    DispatchesIn(s.net) + Operations(s.work)
  }

  lemma {:induction false} DispatchesUpdate(net: seq<Counter>, i: Id, k: Counter)
    requires i < |net|
    ensures DispatchesIn(net[i := k]) + DispatchesOf(net[i].actions) == DispatchesIn(net) + DispatchesOf(k.actions)
  {
    var n := |net| - 1;
    if i == n {
      assert net[i := k][..n] == net[..n];
    } else {
      DispatchesUpdate(net[..n], i, k);
      assert net[i := k][..n] == net[..n][i := k];
    }
  }

  lemma {:induction false} TakeOne(work: multiset<Action>, a: Action)
    requires a in work
    ensures Operations(work) == Operations(work - multiset{a}) + if IsDispatch(a) then 1 else 0
    decreases |work|
  {
    var b :| b in work && Operations(work) == Operations(work - multiset{b}) + if IsDispatch(b) then 1 else 0;
    if a != b {
      TakeOne(work - multiset{b}, a);
      TakeOne(work - multiset{a}, b);
      assert work - multiset{b} - multiset{a} == work - multiset{a} - multiset{b};
    }
  }

  lemma AddOne(work: multiset<Action>, a: Action)
    ensures Operations(work + multiset{a}) == Operations(work) + if IsDispatch(a) then 1 else 0
  {
    TakeOne(work + multiset{a}, a);
    assert work + multiset{a} - multiset{a} == work;
  }

  lemma LastAction(work: multiset<Action>, actions: seq<Action>)
    requires actions != []
    ensures var n := |actions| - 1;
      work + multiset(actions) == work + multiset(actions[..n]) + multiset{actions[n]}
  {
    var n := |actions| - 1;
    assert actions == actions[..n] + [actions[n]];
    assert multiset(actions) == multiset(actions[..n]) + multiset{actions[n]};
  }

  lemma {:induction false} AddAll(work: multiset<Action>, actions: seq<Action>)
    ensures Operations(work + multiset(actions)) == Operations(work) + DispatchesOf(actions)
  {
    if actions == [] {
      assert work + multiset(actions) == work;
    } else {
      var n := |actions| - 1;
      AddAll(work, actions[..n]);
      AddOne(work + multiset(actions[..n]), actions[n]);
      LastAction(work, actions);
    }
  }

  /** A cascade that leaves the queues alone dispatches, but does not create or finish
      operations. */
  lemma MoveKeepsOutstanding(s: State, m: Move)
    requires Safe(s) && Enabled(s, m, false)
    ensures CanApply(s, m) && Outstanding(Apply(s, m)) == Outstanding(s)
  {
    MoveConserves(s, m, false);
    var t := Apply(s, m);
    hide Safe, Held;
    match m
    case Do(a) =>
      DispatchesUpdate(s.net, a.target, t.net[a.target]);
      TakeOne(s.work, a);
    case Fire(c) =>
      DispatchesUpdate(s.net, c, t.net[c]);
      AddAll(s.work, s.net[c].actions);
  }

  lemma {:induction false} SettleKeepsOutstanding(s: State)
    requires Safe(s)
    ensures Outstanding(Settle(s, false)) == Outstanding(s)
    decreases Potential(s)
  {
    hide Outstanding, Apply;
    if !Settled(s, false) {
      var m := NextMove(s, false);
      MoveConserves(s, m, false);
      MoveSpendsOne(s, m, false);
      MoveKeepsOutstanding(s, m);
      SettleKeepsOutstanding(Apply(s, m));
    }
  }

  /** At rest only operations are in flight. */
  lemma {:induction false} OnlyOperations(work: multiset<Action>)
    requires forall a :: a in work ==> IsDispatch(a)
    ensures Operations(work) == |work|
    decreases |work|
  {
    if work != multiset{} {
      var a :| a in work;
      TakeOne(work, a);
      OnlyOperations(work - multiset{a});
    }
  }

  lemma SettledWork(s: State)
    requires Settled(s, false)
    ensures Outstanding(s) == DispatchesIn(s.net) + |s.work|
  {
    forall a | a in s.work ensures IsDispatch(a) {
      assert !Enabled(s, Do(a), false);
    }
    OnlyOperations(s.work);
  }

  function NewDispatch(op: Op): nat {
    if op.Attach? && IsDispatch(op.action) then 1 else 0
  }

  lemma PerformOutstanding(s: State, op: Op)
    requires Allowed(s, op) && !op.Step?
    ensures Outstanding(Perform(s, op)) == Outstanding(s) + NewDispatch(op)
  {
    match op
    case Create(k) => assert Perform(s, op).net[..|s.net|] == s.net;
    case Raise(c) => DispatchesUpdate(s.net, c, Perform(s, op).net[c]);
    case Drop(c) => AddOne(s.work, Decrement(c));
    case Attach(c, a) =>
      if s.net[c].triggered {
        AddOne(s.work, a);
      } else {
        DispatchesUpdate(s.net, c, Perform(s, op).net[c]);
        assert (s.net[c].actions + [a])[..|s.net[c].actions|] == s.net[c].actions;
      }
  }

  /** Only attaching a dispatch adds to what is attached or queued. */
  lemma ThenOutstanding(b: Books, op: Op)
    requires Balanced(b) && Permitted(b, op) && Settled(b.state, false)
    ensures var s, t := b.state, Then(b, op, true).state;
      DispatchesIn(t.net) + |t.work| == DispatchesIn(s.net) + |s.work| + NewDispatch(op)
  {
    ThenBalances(b, op, true);
    OpBalances(b, op);
    hide Safe, Outstanding, Settled, Perform;
    SettledWork(b.state);
    PerformOutstanding(b.state, op);
    SettleKeepsOutstanding(Perform(b.state, op));
    SettledWork(Then(b, op, true).state);
  }

  // ---------------------------------------------------------------- counting launches

  /** Launches of task `t` attached to counters. */
  function LaunchesIn(net: seq<Counter>, t: nat): nat {
    if net == [] then 0
    else LaunchesIn(net[..|net| - 1], t) + multiset(net[|net| - 1].actions)[Launch(t)]
  }

  /** Launches of task `t` attached to counters or waiting in a work queue. */
  function Launches(s: State, t: nat): nat {
    LaunchesIn(s.net, t) + s.work[Launch(t)]
  }

  lemma {:induction false} LaunchesUpdate(net: seq<Counter>, i: Id, k: Counter, t: nat)
    requires i < |net|
    ensures LaunchesIn(net[i := k], t) + multiset(net[i].actions)[Launch(t)] ==
            LaunchesIn(net, t) + multiset(k.actions)[Launch(t)]
  {
    var n := |net| - 1;
    if i == n {
      assert net[i := k][..n] == net[..n];
    } else {
      LaunchesUpdate(net[..n], i, k, t);
      assert net[i := k][..n] == net[..n][i := k];
    }
  }

  lemma {:induction false} LaunchedSomewhere(net: seq<Counter>, t: nat) returns (i: Id)
    requires LaunchesIn(net, t) > 0
    ensures i < |net| && Launch(t) in net[i].actions
  {
    i := |net| - 1;
    if Launch(t) !in net[i].actions {
      i := LaunchedSomewhere(net[..i], t);
    }
  }

  /** The same launches are attached to the counters of both networks. */
  lemma {:induction false} SameLaunches(a: seq<Counter>, b: seq<Counter>, t: nat)
    requires |a| <= |b|
    requires forall i :: 0 <= i < |a| ==> multiset(a[i].actions)[Launch(t)] == multiset(b[i].actions)[Launch(t)]
    requires forall i :: |a| <= i < |b| ==> b[i].actions == []
    ensures LaunchesIn(a, t) == LaunchesIn(b, t)
    decreases |b|
  {
    if |a| < |b| {
      SameLaunches(a, b[..|b| - 1], t);
    } else if a != [] {
      SameLaunches(a[..|a| - 1], b[..|b| - 1], t);
    }
  }

  lemma MoveKeepsLaunches(s: State, m: Move, t: nat)
    requires CanApply(s, m)
    ensures Launches(Apply(s, m), t) == Launches(s, t)
  {
    match m
    case Do(a) => LaunchesUpdate(s.net, a.target, Apply(s, m).net[a.target], t);
    case Fire(c) => LaunchesUpdate(s.net, c, Apply(s, m).net[c], t);
  }

  lemma {:induction false} SettleKeepsLaunches(s: State, t: nat)
    requires Safe(s)
    ensures Launches(Settle(s, false), t) == Launches(s, t)
    decreases Potential(s)
  {
    hide Launches, Apply;
    if !Settled(s, false) {
      var m := NextMove(s, false);
      MoveConserves(s, m, false);
      MoveSpendsOne(s, m, false);
      MoveKeepsLaunches(s, m, t);
      SettleKeepsLaunches(Apply(s, m), t);
    }
  }

  predicate Launching(op: Op, t: nat) {
    op.Attach? && op.action == Launch(t)
  }

  lemma PerformLaunches(s: State, op: Op, t: nat)
    requires !op.Step? && (op.Attach? ==> op.id < |s.net|)
    ensures Launches(Perform(s, op), t) == Launches(s, t) + if Launching(op, t) then 1 else 0
  {
    match op
    case Create(k) => assert Perform(s, op).net[..|s.net|] == s.net;
    case Raise(c) =>
      if c < |s.net| {
        LaunchesUpdate(s.net, c, Perform(s, op).net[c], t);
      }
    case Drop(c) =>
    case Attach(c, a) =>
      if !s.net[c].triggered {
        LaunchesUpdate(s.net, c, Perform(s, op).net[c], t);
        assert multiset(s.net[c].actions + [a]) == multiset(s.net[c].actions) + multiset{a};
      }
  }

  /** Only attaching a launch adds to the launches attached or queued. */
  lemma ThenLaunches(b: Books, op: Op, t: nat)
    requires Balanced(b) && Permitted(b, op)
    ensures Launches(Then(b, op, true).state, t) == Launches(b.state, t) + if Launching(op, t) then 1 else 0
  {
    OpBalances(b, op);
    hide Safe, Launches, Perform;
    PerformLaunches(b.state, op, t);
    SettleKeepsLaunches(Perform(b.state, op), t);
  }
}
