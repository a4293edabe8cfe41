/**
  Counters that wait for other counters, and when the counter of a pending operation
  triggers.
  */
module Waiting {
  import opened Cascades
  import opened CounterNet
  import opened UseProtocol

  /** `d` cannot trigger before `c` has: `c` has triggered, or a decrement of `d` is
      still attached to it. */
  predicate Waits(s: State, d: Id, c: Id) {
    c < |s.net| && (s.net[c].triggered || Decrement(d) in s.net[c].actions || Alias(d) in s.net[c].actions)
  }

  /** At any time, settled or not. */
  lemma WaitsInOrder(s: State, d: Id, c: Id)
    requires Safe(s) && Waits(s, d, c) && d < |s.net|
    ensures s.net[d].count == 0 || s.net[d].triggered ==> s.net[c].triggered
  {
    if !s.net[c].triggered {
      AttachedAtLeast(s.net, c, d);
      OwedMeansNotTriggered(s, d);
    }
  }

  /** No operation of any thread makes `d` stop waiting for `c`. */
  lemma OpKeepsWaits(s: State, op: Op, d: Id, c: Id)
    requires Waits(s, d, c)
    ensures Waits(Perform(s, op), d, c)
  {
  }

  predicate Fired(s: State, c: Id) {
    c < |s.net| && s.net[c].triggered
  }

  /** What has triggered stays so, and nothing stops waiting. */
  ghost predicate Keeps(s: State, t: State) {
    && (forall c: Id :: Fired(s, c) ==> Fired(t, c))
    && (forall d: Id, c: Id :: Waits(s, d, c) ==> Waits(t, d, c))
  }

  lemma OpKeeps(s: State, op: Op)
    ensures Keeps(s, Perform(s, op))
  {
    forall d: Id, c: Id | Waits(s, d, c) ensures Waits(Perform(s, op), d, c) {
      OpKeepsWaits(s, op, d, c);
    }
  }

  lemma KeepsItself(s: State)
    ensures Keeps(s, s)
  {
  }

  lemma KeepsTwice(s: State, t: State, u: State)
    requires Keeps(s, t) && Keeps(t, u)
    ensures Keeps(s, u)
  {
  }

  lemma KeepsOne(s: State, t: State, d: Id, c: Id)
    requires Keeps(s, t) && Waits(s, d, c)
    ensures Waits(t, d, c)
  {
  }

  lemma {:induction false} SettleKeeps(s: State, drain: bool)
    requires Safe(s)
    ensures Keeps(s, Settle(s, drain))
    decreases Potential(s)
  {
    hide Keeps;
    if Settled(s, drain) {
      KeepsItself(s);
    } else {
      var m := NextMove(s, drain);
      MoveConserves(s, m, drain);
      MoveSpendsOne(s, m, drain);
      OpKeeps(s, Step(m));
      SettleKeeps(Apply(s, m), drain);
      KeepsTwice(s, Apply(s, m), Settle(s, drain));
    }
  }

  lemma ThenKeeps(b: Books, op: Op, now: bool)
    ensures Keeps(b.state, Then(b, op, now).state)
  {
    hide Keeps;
    var s := Perform(b.state, op);
    OpKeeps(b.state, op);
    if now && Safe(s) {
      SettleKeeps(s, false);
      KeepsTwice(b.state, s, Then(b, op, now).state);
    }
  }

  lemma AttachWaits(b: Books, c: Id, d: Id, a: Action, now: bool)
    requires c < |b.state.net| && Aims(a, d)
    ensures Waits(Then(b, Attach(c, a), now).state, d, c)
  {
    var s := Perform(b.state, Attach(c, a));
    assert Waits(s, d, c);
    if now && Safe(s) {
      SettleKeeps(s, false);
    }
  }

  // ---------------------------------------------------------------- the counter of a pending operation

  /** Decrements of `p` hang only on counters in `on`, and none waits in a work queue. */
  ghost predicate HangsOn(s: State, p: Id, on: seq<Id>) {
    && Alias(p) !in s.work
    && forall i: nat, a :: i < |s.net| && a in s.net[i].actions && Aims(a, p) ==> a == Decrement(p) && i in on
  }

  lemma OpKeepsHanging(s: State, op: Op, p: Id, on: seq<Id>)
    requires HangsOn(s, p, on)
    requires op.Attach? && Aims(op.action, p) ==> op.action == Decrement(p) && op.id in on
    ensures HangsOn(Perform(s, op), p, on)
  {
    match op
    case Attach(c, a) => AttachKeepsHanging(s, c, a, p, on);
    case Step(m) => MoveKeepsHanging(s, m, p, on);
    case _ =>
  }

  lemma AttachKeepsHanging(s: State, c: Id, a: Action, p: Id, on: seq<Id>)
    requires HangsOn(s, p, on) && (Aims(a, p) ==> a == Decrement(p) && c in on)
    ensures HangsOn(Perform(s, Attach(c, a)), p, on)
  {
    assert Aims(Alias(p), p);
    var t := Perform(s, Attach(c, a));
    forall i: nat, x | i < |t.net| && x in t.net[i].actions && Aims(x, p) ensures x == Decrement(p) && i in on {
      assert x in s.net[i].actions || (x == a && i == c);
    }
  }

  lemma MoveKeepsHanging(s: State, m: Move, p: Id, on: seq<Id>)
    requires HangsOn(s, p, on)
    ensures HangsOn(Perform(s, Step(m)), p, on)
  {
    assert Aims(Alias(p), p);
    if m.Fire? && m.id < |s.net| {
      assert Alias(p) !in s.net[m.id].actions;
    }
  }

  lemma {:induction false} SettleKeepsHanging(s: State, p: Id, on: seq<Id>)
    requires Safe(s) && HangsOn(s, p, on)
    ensures HangsOn(Settle(s, false), p, on)
    decreases Potential(s)
  {
    hide HangsOn;
    if !Settled(s, false) {
      var m := NextMove(s, false);
      MoveConserves(s, m, false);
      MoveSpendsOne(s, m, false);
      OpKeepsHanging(s, Step(m), p, on);
      SettleKeepsHanging(Apply(s, m), p, on);
    }
  }

  lemma ThenKeepsHanging(b: Books, op: Op, p: Id, on: seq<Id>, now: bool)
    requires HangsOn(b.state, p, on)
    requires op.Attach? && Aims(op.action, p) ==> op.action == Decrement(p) && op.id in on
    ensures HangsOn(Then(b, op, now).state, p, on)
  {
    hide HangsOn;
    OpKeepsHanging(b.state, op, p, on);
    var s := Perform(b.state, op);
    if now && Safe(s) {
      SettleKeepsHanging(s, p, on);
    }
  }

  lemma {:induction false} DependOnWaits(b: Books, p: Id, triggers: seq<Id>, on: seq<Id>, now: bool)
    requires Balanced(b) && p < |b.held| && b.held[p] > 0 && AllKnown(b, triggers)
    requires HangsOn(b.state, p, on) && forall c :: c in triggers ==> c in on
    ensures var t := DependOn(b, p, triggers, now);
      && HangsOn(t.state, p, on) && Keeps(b.state, t.state)
      && forall c: Id :: c in triggers ==> Waits(t.state, p, c)
    decreases |triggers|
  {
    hide HangsOn, Keeps, Then, Waits, Balanced;
    if triggers == [] {
      KeepsItself(b.state);
    } else {
      var raised := Then(b, Raise(p), now);
      var next := Then(raised, Attach(triggers[0], Decrement(p)), now);
      var t := DependOn(b, p, triggers, now);
      assert triggers[0] in triggers;
      HeldIsLive(b, p);
      ThenBalances(b, Raise(p), now);
      ThenBalances(raised, Attach(triggers[0], Decrement(p)), now);
      ThenKeepsHanging(b, Raise(p), p, on, now);
      ThenKeepsHanging(raised, Attach(triggers[0], Decrement(p)), p, on, now);
      forall d | d in triggers[1..] ensures d < |next.held| && d in on {
        assert d in triggers;
      }
      DependOnWaits(next, p, triggers[1..], on, now);
      SameSize(raised);
      AttachWaits(raised, triggers[0], p, Decrement(p), now);
      ThenKeeps(b, Raise(p), now);
      ThenKeeps(raised, Attach(triggers[0], Decrement(p)), now);
      KeepsTwice(b.state, raised.state, next.state);
      KeepsTwice(b.state, next.state, t.state);
      KeepsOne(next.state, t.state, p, triggers[0]);
      forall c: Id | c in triggers ensures Waits(t.state, p, c) {
        assert c == triggers[0] || c in triggers[1..];
      }
    }
  }

  lemma SameSize(b: Books)
    requires Balanced(b)
    ensures |b.held| == |b.state.net|
  {
  }

  lemma FreshHangsOnNothing(b: Books, on: seq<Id>)
    requires Balanced(b)
    ensures HangsOn(Fresh(b, true).state, |b.held|, on)
  {
    var p, s := |b.held|, b.state;
    assert HangsOn(s, p, on) by {
      assert forall a :: Aims(a, p) ==> !Within(a, |s.net|);
    }
    ThenKeepsHanging(b, Create(1), p, on, true);
  }

  /** Nobody holds the counter, nothing in flight aims at it, and it waits for `triggers` and
      for nothing else: it has triggered exactly when they all have. */
  lemma ReadyWhenAllAre(b: Books, p: Id, triggers: seq<Id>)
    requires Balanced(b) && Settled(b.state, false) && p < |b.held| && b.held[p] == 0
    requires HangsOn(b.state, p, triggers) && forall c: Id :: c in triggers ==> Waits(b.state, p, c)
    ensures b.state.net[p].triggered <==> forall c: Id :: c in triggers ==> Fired(b.state, c)
  {
    var s := b.state;
    if s.net[p].triggered {
      forall c: Id | c in triggers ensures Fired(s, c) {
        WaitsInOrder(s, p, c);
      }
    }
    if forall c: Id :: c in triggers ==> Fired(s, c) {
      assert forall i: nat :: i < |s.net| && Fired(s, i) ==> s.net[i].actions == [];
      assert forall i: nat, a :: i < |s.net| && a in s.net[i].actions ==> !Aims(a, p);
      AttachedZero(s.net, p);
      assert !Enabled(s, Do(Decrement(p)), false);
      assert !Enabled(s, Fire(p), false);
    }
  }

  /** The counter of a pending operation, set up with any list of prerequisites, with repeats
      and with some that have triggered before: it has triggered exactly when all of them have. */
  lemma AwaitingIsReadyWhenAllAre(b: Books, triggers: seq<Id>)
    requires Balanced(b) && AllKnown(b, triggers)
    ensures var t := Awaiting(b, triggers, true);
      && |t.state.net| == |b.held| + 1
      && (t.state.net[|b.held|].triggered <==> forall c: Id :: c in triggers ==> Fired(t.state, c))
  {
    hide HangsOn, Keeps, Then, Waits, Balanced, Fired, Settled;
    var p := |b.held|;
    var made := Fresh(b, true);
    var set_up := DependOn(made, p, triggers, true);
    var t := Awaiting(b, triggers, true);
    FreshGrows(b, true);
    FreshHangsOnNothing(b, triggers);
    assert AllKnown(made, triggers);
    DependOnBalances(made, p, triggers, true);
    DependOnWaits(made, p, triggers, triggers, true);
    ThenBalances(set_up, Drop(p), true);
    ThenKeepsHanging(set_up, Drop(p), p, triggers, true);
    ThenKeeps(set_up, Drop(p), true);
    forall c: Id | c in triggers ensures Waits(t.state, p, c) {
      KeepsOne(set_up.state, t.state, p, c);
    }
    SameSize(t);
    ReadyWhenAllAre(t, p, triggers);
  }

  // ---------------------------------------------------------------- setting it up disturbs nothing

  /** Only `p` has anything to do, and `p` has nothing attached. */
  ghost predicate OnlyAt(s: State, p: Id) {
    && p < |s.net| && s.net[p].actions == []
    && forall m :: Enabled(s, m, false) ==> m == Do(Decrement(p)) || m == Fire(p)
  }

  predicate SameBelow(s: State, t: State, p: Id) {
    && p <= |s.net| && p <= |t.net|
    && forall c :: 0 <= c < p ==> t.net[c].triggered == s.net[c].triggered
  }

  lemma MoveStaysAt(s: State, m: Move, p: Id)
    requires Safe(s) && OnlyAt(s, p) && Enabled(s, m, false)
    ensures CanApply(s, m) && OnlyAt(Apply(s, m), p) && SameBelow(s, Apply(s, m), p)
  {
    MoveConserves(s, m, false);
    var t := Apply(s, m);
    forall n | Enabled(t, n, false) ensures n == Do(Decrement(p)) || n == Fire(p) {
      assert n != Fire(p) ==> Enabled(s, n, false);
    }
  }

  lemma {:induction false} SettleStaysAt(s: State, p: Id)
    requires Safe(s) && OnlyAt(s, p)
    ensures OnlyAt(Settle(s, false), p) && SameBelow(s, Settle(s, false), p)
    decreases Potential(s)
  {
    hide OnlyAt;
    if Settled(s, false) {
      StaysAt(s, p);
    } else {
      var m := NextMove(s, false);
      MoveConserves(s, m, false);
      MoveSpendsOne(s, m, false);
      MoveStaysAt(s, m, p);
      SettleStaysAt(Apply(s, m), p);
    }
  }

  lemma StaysAt(s: State, p: Id)
    requires OnlyAt(s, p)
    ensures p < |s.net|
  {
  }

  predicate ConcernsOnly(op: Op, p: Id) {
    match op
    case Raise(c) => c == p
    case Drop(c) => c == p
    case Attach(c, a) => c < p && a == Decrement(p)
    case _ => false
  }

  lemma ThenStaysAt(b: Books, op: Op, p: Id)
    requires Balanced(b) && Permitted(b, op) && Settled(b.state, false)
    requires p < |b.state.net| && b.state.net[p].actions == [] && ConcernsOnly(op, p)
    ensures var t := Then(b, op, true).state;
      SameBelow(b.state, t, p) && p < |t.net| && t.net[p].actions == [] && Settled(t, false)
  {
    ThenBalances(b, op, true);
    OpBalances(b, op);
    PerformStaysAt(b.state, op, p);
    hide Safe, OnlyAt, Perform, Settled;
    SettleStaysAt(Perform(b.state, op), p);
    NothingAttachedAt(Then(b, op, true).state, p);
  }

  lemma NothingAttachedAt(s: State, p: Id)
    requires OnlyAt(s, p)
    ensures p < |s.net| && s.net[p].actions == []
  {
  }

  lemma PerformStaysAt(s: State, op: Op, p: Id)
    requires Settled(s, false) && p < |s.net| && s.net[p].actions == [] && ConcernsOnly(op, p)
    ensures OnlyAt(Perform(s, op), p) && SameBelow(s, Perform(s, op), p)
  {
    var t := Perform(s, op);
    forall m | Enabled(t, m, false) ensures m == Do(Decrement(p)) || m == Fire(p) {
      assert !Enabled(s, m, false);
    }
  }

  lemma {:induction false} DependOnStaysAt(b: Books, p: Id, triggers: seq<Id>)
    requires Balanced(b) && Settled(b.state, false) && p < |b.held| && b.held[p] > 0
    requires b.state.net[p].actions == [] && forall c :: c in triggers ==> c < p
    ensures var t := DependOn(b, p, triggers, true).state;
      SameBelow(b.state, t, p) && p < |t.net| && t.net[p].actions == [] && Settled(t, false)
    decreases |triggers|
  {
    hide Then, Balanced, Settled;
    SameSize(b);
    if triggers != [] {
      var raised := Then(b, Raise(p), true);
      var next := Then(raised, Attach(triggers[0], Decrement(p)), true);
      assert triggers[0] in triggers;
      HeldIsLive(b, p);
      ThenBalances(b, Raise(p), true);
      ThenStaysAt(b, Raise(p), p);
      ThenBalances(raised, Attach(triggers[0], Decrement(p)), true);
      ThenStaysAt(raised, Attach(triggers[0], Decrement(p)), p);
      forall d | d in triggers[1..] ensures d < p {
        assert d in triggers;
      }
      DependOnStaysAt(next, p, triggers[1..]);
    }
  }

  /** Setting up a pending operation triggers nothing else: the operation is ready exactly when
      all its prerequisites had triggered before. */
  lemma ReadyWhenAllWere(b: Books, triggers: seq<Id>)
    requires Balanced(b) && Settled(b.state, false) && AllKnown(b, triggers)
    ensures var t := Awaiting(b, triggers, true).state;
      && |t.net| == |b.held| + 1
      && (t.net[|b.held|].triggered <==> forall c: Id :: c in triggers ==> Fired(b.state, c))
  {
    var p := |b.held|;
    var made := Fresh(b, true);
    FreshGrows(b, true);
    ThenBalances(b, Create(1), true);
    FreshSettles(b);
    var set_up := DependOn(made, p, triggers, true);
    hide Then, Balanced, Settled;
    DependOnBalances(made, p, triggers, true);
    DependOnStaysAt(made, p, triggers);
    ThenStaysAt(set_up, Drop(p), p);
    AwaitingIsReadyWhenAllAre(b, triggers);
    SameSize(b);
  }

  lemma FreshSettles(b: Books)
    requires Balanced(b) && Settled(b.state, false)
    ensures Fresh(b, true).state.net == b.state.net + [Counter(1, false, [])]
  {
    CreateConserves(b.state, 1);
    var t := Perform(b.state, Create(1));
    forall m ensures !Enabled(t, m, false) {
      assert Enabled(t, m, false) ==> Enabled(b.state, m, false);
    }
  }
}
