/**
  Two ways of handling the alias of a released use.

  Either way the target of the alias is raised, and lowered again once the source is ready.
  The direct way attaches the decrement to the source.  The way in use sets up a pending
  operation for it, with a counter of its own, which decrements the target from a work queue.
  However many aliases are handled, and wherever cascades step in, both ways trigger the same
  flows and leave the same counts on the others.
  */
module Aliasing {
  import opened Cascades
  import opened CounterNet
  import opened UseProtocol

  // ---------------------------------------------------------------- what is in store for a counter

  /** The decrements of `c` that are in flight, or attached to members of `x`. */
  function Load(s: State, x: set<Id>, c: Id): nat {
    AttachedFrom(s.net, x, c) + Aimed(s.work, c)
  }

  /** An action attached to `c` now runs if exactly the members of `x` trigger. */
  predicate Reaches(s: State, x: set<Id>, c: Id) {
    c < |s.net| && (s.net[c].triggered || c in x)
  }

  function Num(p: bool): nat {
    if p then 1 else 0
  }

  lemma RaiseLoads(s: State, d: Id, x: set<Id>, c: Id)
    ensures Load(Perform(s, Raise(d)), x, c) == Load(s, x, c)
  {
    if d < |s.net| {
      AttachedFromUpdate(s.net, d, Perform(s, Raise(d)).net[d], x, c);
    }
  }

  lemma DropLoads(s: State, d: Id, x: set<Id>, c: Id)
    ensures Load(Perform(s, Drop(d)), x, c) == Load(s, x, c) + Num(c == d)
  {
  }

  lemma CreateLoads(s: State, k: nat, x: set<Id>, c: Id)
    ensures Load(Perform(s, Create(k)), x, c) == Load(s, x, c)
  {
    var t := Perform(s, Create(k));
    assert t.net[..|s.net|] == s.net;
  }

  lemma AttachLoads(s: State, d: Id, a: Action, x: set<Id>, c: Id)
    requires d < |s.net|
    ensures Load(Perform(s, Attach(d, a)), x, c) == Load(s, x, c) + Num(Aims(a, c) && Reaches(s, x, d))
  {
    if !s.net[d].triggered {
      var t := Perform(s, Attach(d, a));
      AttachedFromUpdate(s.net, d, t.net[d], x, c);
      assert multiset(t.net[d].actions) == multiset(s.net[d].actions) + multiset{a};
    }
  }

  lemma {:induction false} NobodyAims(net: seq<Counter>, x: set<Id>, c: Id)
    requires forall i, a :: 0 <= i < |net| && a in net[i].actions ==> Within(a, c)
    ensures AttachedFrom(net, x, c) == 0
  {
    if net != [] {
      var n := |net| - 1;
      assert !Within(Decrement(c), c) && !Within(Alias(c), c);
      assert Decrement(c) !in net[n].actions && Alias(c) !in net[n].actions;
      NobodyAims(net[..n], x, c);
    }
  }

  /** Nothing is in store for a counter that does not exist yet. */
  lemma UnbornUnloaded(s: State, x: set<Id>)
    requires WellFormed(s)
    ensures Load(s, x, |s.net|) == 0
  {
    NobodyAims(s.net, x, |s.net|);
    assert !Within(Decrement(|s.net|), |s.net|) && !Within(Alias(|s.net|), |s.net|);
  }

  // ---------------------------------------------------------------- one alias, either way

  /** Raise the target, and attach its decrement to the source. */
  ghost function LinkDirectly(b: Books, source: Id, target: Id): Books {
    Then(Then(b, Raise(target), false), Attach(source, Decrement(target)), false)
  }

  lemma DirectLinkLoads(b: Books, source: Id, target: Id, x: set<Id>, c: Id)
    requires source < |b.state.net|
    ensures var t := LinkDirectly(b, source, target).state;
      Load(t, x, c) == Load(b.state, x, c) + Num(c == target && Reaches(b.state, x, source))
  {
    var raised := Perform(b.state, Raise(target));
    RaiseLoads(b.state, target, x, c);
    AttachLoads(raised, source, Decrement(target), x, c);
  }

  lemma DeferredSteps(b: Books, source: Id, target: Id)
    requires |b.held| == |b.state.net|
    ensures var p := |b.held|;
      LinkBehind(b, source, target, false) ==
      Then(Then(Then(Then(Then(Then(b, Raise(target), false), Create(1), false), Raise(p), false),
          Attach(source, Decrement(p)), false), Drop(p), false), Attach(p, Alias(target)), false)
  {
    hide Then;
    var raised := Then(b, Raise(target), false);
    var made := Fresh(raised, false);
    RaiseKeepsLength(b, target);
    assert DependOn(made, |b.held|, [source], false) ==
           Then(Then(made, Raise(|b.held|), false), Attach(source, Decrement(|b.held|)), false) by {
      assert [source][1..] == [];
    }
  }

  lemma RaiseKeepsLength(b: Books, c: Id)
    ensures |Then(b, Raise(c), false).held| == |b.held|
  {
  }

  lemma RaiseReaches(s: State, d: Id, x: set<Id>, c: Id)
    ensures Reaches(Perform(s, Raise(d)), x, c) == Reaches(s, x, c)
  {
  }

  lemma CreateReaches(s: State, x: set<Id>, c: Id)
    ensures c < |s.net| ==> Reaches(Perform(s, Create(1)), x, c) == Reaches(s, x, c)
    ensures Reaches(Perform(s, Create(1)), x, |s.net|) == (|s.net| in x)
  {
  }

  lemma AttachReaches(s: State, d: Id, a: Action, x: set<Id>, c: Id)
    ensures Reaches(Perform(s, Attach(d, a)), x, c) == Reaches(s, x, c)
  {
  }

  lemma DropReaches(s: State, d: Id, x: set<Id>, c: Id)
    ensures Reaches(Perform(s, Drop(d)), x, c) == Reaches(s, x, c)
  {
  }

  /** The network when the pending operation is ready to be given its action. */
  function Assembled(s: State, source: Id, target: Id): State {
    var p := |s.net|;
    var made := Perform(Perform(s, Raise(target)), Create(1));
    Perform(Perform(Perform(made, Raise(p)), Attach(source, Decrement(p))), Drop(p))
  }

  lemma AssembledLinks(b: Books, source: Id, target: Id)
    requires |b.held| == |b.state.net|
    ensures LinkBehind(b, source, target, false).state ==
            Perform(Assembled(b.state, source, target), Attach(|b.held|, Alias(target)))
    ensures |Assembled(b.state, source, target).net| == |b.held| + 1
  {
    DeferredSteps(b, source, target);
  }

  lemma AssembledLoads(s: State, source: Id, target: Id, x: set<Id>, c: Id)
    requires source < |s.net| && target < |s.net|
    ensures var t, p := Assembled(s, source, target), |s.net|;
      && Load(t, x, c) == Load(s, x, c) + Num(c == p) + Num(c == p && Reaches(s, x, source))
      && Reaches(t, x, p) == (p in x)
  {
    var p := |s.net|;
    var s1 := Perform(s, Raise(target));
    var s2 := Perform(s1, Create(1));
    var s3 := Perform(s2, Raise(p));
    var s4 := Perform(s3, Attach(source, Decrement(p)));
    assert |s1.net| == p && |s3.net| == p + 1;
    hide Load, Perform, Reaches;
    RaiseLoads(s, target, x, c);
    CreateLoads(s1, 1, x, c);
    RaiseLoads(s2, p, x, c);
    AttachLoads(s3, source, Decrement(p), x, c);
    DropLoads(s4, p, x, c);
    RaiseReaches(s, target, x, source);
    CreateReaches(s1, x, source);
    RaiseReaches(s2, p, x, source);
    RaiseReaches(s2, p, x, p);
    AttachReaches(s3, source, Decrement(p), x, p);
    DropReaches(s4, p, x, p);
  }

  /** With a pending operation the target gets its decrement if the counter of that triggers,
      which gets one at once and one if the source triggers. */
  lemma DeferredLinkLoads(b: Books, source: Id, target: Id, x: set<Id>, c: Id)
    requires |b.held| == |b.state.net| && source < |b.held| && target < |b.held|
    ensures var t, p := LinkBehind(b, source, target, false).state, |b.held|;
      Load(t, x, c) == Load(b.state, x, c) +
        Num(c == p) + Num(c == p && Reaches(b.state, x, source)) + Num(c == target && p in x)
  {
    hide Load, Assembled, LinkBehind, Reaches;
    AssembledLinks(b, source, target);
    AssembledLoads(b.state, source, target, x, c);
    AttachLoads(Assembled(b.state, source, target), |b.held|, Alias(target), x, c);
  }

  lemma AssembledCounters(s: State, source: Id, target: Id)
    requires source < |s.net| && target < |s.net|
    ensures var t := Assembled(s, source, target);
      && |t.net| == |s.net| + 1 && t.net[|s.net|].count == 2 && !t.net[|s.net|].triggered
      && (forall c: Id :: c < |s.net| ==>
            t.net[c].triggered == s.net[c].triggered && t.net[c].count == s.net[c].count + Num(c == target))
  {
  }

  /** The counters after both. */
  lemma LinkCounters(b: Books, source: Id, target: Id)
    requires |b.held| == |b.state.net| && source < |b.held| && target < |b.held|
    ensures var s, t, u := b.state, LinkBehind(b, source, target, false).state, LinkDirectly(b, source, target).state;
      && |t.net| == |s.net| + 1 && |u.net| == |s.net|
      && t.net[|s.net|].count == 2 && !t.net[|s.net|].triggered
      && (forall c: Id :: c < |s.net| ==>
            && t.net[c].triggered == u.net[c].triggered == s.net[c].triggered
            && t.net[c].count == u.net[c].count == s.net[c].count + Num(c == target))
  {
    AssembledLinks(b, source, target);
    AssembledCounters(b.state, source, target);
    hide Assembled, LinkBehind;
  }

  lemma LinkDirectlyBalances(b: Books, source: Id, target: Id)
    requires Balanced(b) && source < |b.held| && target < |b.held| && Live(b, target)
    ensures var t := LinkDirectly(b, source, target); Balanced(t) && t.held == b.held
  {
    hide Balanced, Then;
    var raised := Then(b, Raise(target), false);
    ThenBalances(b, Raise(target), false);
    ThenBalances(raised, Attach(source, Decrement(target)), false);
    var t := LinkDirectly(b, source, target);
    assert forall c :: 0 <= c < |b.held| ==> t.held[c] == b.held[c];
  }

  // ---------------------------------------------------------------- any number of aliases

  /** What threads do: handle an alias, or raise, lower or attach to a flow. */
  datatype Deed = Link(source: Id, target: Id) | Plain(op: Op)

  /** It is about the flows there are. */
  predicate About(d: Deed, n: nat) {
    match d
    case Link(source, target) => source < n && target < n
    case Plain(Raise(c)) => c < n
    case Plain(Drop(c)) => c < n
    case Plain(Attach(c, a)) => c < n && Within(a, n)
    case Plain(_) => false
  }

  ghost function Deferred(b: Books, deeds: seq<Deed>): Books {
    if deeds == [] then b
    else
      var before := Deferred(b, deeds[..|deeds| - 1]);
      match deeds[|deeds| - 1]
      case Link(source, target) => LinkBehind(before, source, target, false)
      case Plain(op) => Then(before, op, false)
  }

  ghost function Directly(b: Books, deeds: seq<Deed>): Books {
    if deeds == [] then b
    else
      var before := Directly(b, deeds[..|deeds| - 1]);
      match deeds[|deeds| - 1]
      case Link(source, target) => LinkDirectly(before, source, target)
      case Plain(op) => Then(before, op, false)
  }

  /** Each deed finds what it raises live and what it gives away held. */
  ghost predicate Permits(b: Books, d: Deed, n: nat) {
    About(d, n) && if d.Link? then Live(b, d.target) else Permitted(b, d.op)
  }

  ghost predicate AllPermitted(b: Books, deeds: seq<Deed>) {
    deeds != [] ==>
      && AllPermitted(b, deeds[..|deeds| - 1])
      && Permits(Deferred(b, deeds[..|deeds| - 1]), deeds[|deeds| - 1], |b.held|)
  }

  function Links(deeds: seq<Deed>): nat {
    if deeds == [] then 0 else Links(deeds[..|deeds| - 1]) + Num(deeds[|deeds| - 1].Link?)
  }

  /** The flows look the same, and the counters of the pending operations wait for two. */
  ghost predicate Alike(b: Books, d: Books, e: Books, links: nat) {
    var n := |b.held|;
    && Balanced(d) && Balanced(e) && |d.held| == |d.state.net| == n + links && |e.held| == |e.state.net| == n
    && |b.state.net| == n
    && (forall c: Id :: c < n ==>
          && d.held[c] == e.held[c] && d.state.net[c].count == e.state.net[c].count
          && d.state.net[c].triggered == e.state.net[c].triggered == b.state.net[c].triggered)
    && (forall p: Id :: n <= p < n + links ==> d.state.net[p].count == 2 && !d.state.net[p].triggered)
  }

  predicate SameFlow(d: Books, e: Books, c: Id)
    requires c < |d.held| == |d.state.net| && c < |e.held| == |e.state.net|
  {
    && d.held[c] == e.held[c] && d.state.net[c].count == e.state.net[c].count
    && d.state.net[c].triggered == e.state.net[c].triggered
  }

  /** An operation on a flow changes both networks in the same way, and no counter of a pending
      operation. */
  lemma PlainKeepsFlow(d: Books, e: Books, op: Op, n: nat, c: Id)
    requires n <= |d.held| == |d.state.net| && n <= |e.held| == |e.state.net|
    requires About(Plain(op), n) && c < n && SameFlow(d, e, c)
    ensures var t, u := Then(d, op, false), Then(e, op, false);
      && |t.held| == |d.held| == |t.state.net| && |u.held| == |e.held| == |u.state.net|
      && SameFlow(t, u, c) && t.state.net[c].triggered == d.state.net[c].triggered
  {
    match op
    case Raise(_) =>
    case Drop(_) =>
    case Attach(_, _) =>
  }

  lemma PlainKeepsPending(d: Books, op: Op, n: nat, p: Id)
    requires About(Plain(op), n) && n <= p < |d.state.net|
    ensures p < |Then(d, op, false).state.net| && Then(d, op, false).state.net[p] == d.state.net[p]
  {
  }

  lemma PlainStaysAlike(b: Books, d: Books, e: Books, links: nat, op: Op)
    requires Alike(b, d, e, links) && About(Plain(op), |b.held|) && Permitted(d, op)
    ensures Permitted(e, op) && Alike(b, Then(d, op, false), Then(e, op, false), links)
  {
    var n, t, u := |b.held|, Then(d, op, false), Then(e, op, false);
    hide Balanced, Then;
    assert Permitted(e, op);
    ThenBalances(d, op, false);
    ThenBalances(e, op, false);
    BalancedSizes(t);
    BalancedSizes(u);
    forall c: Id | c < n ensures SameFlow(t, u, c) && t.state.net[c].triggered == d.state.net[c].triggered {
      PlainKeepsFlow(d, e, op, n, c);
    }
    forall p: Id | n <= p < n + links ensures t.state.net[p].count == 2 && !t.state.net[p].triggered {
      PlainKeepsPending(d, op, n, p);
    }
  }

  lemma LinkStaysAlike(b: Books, d: Books, e: Books, links: nat, source: Id, target: Id)
    requires Alike(b, d, e, links) && About(Link(source, target), |b.held|) && Live(d, target)
    ensures Live(e, target)
    ensures Alike(b, LinkBehind(d, source, target, false), LinkDirectly(e, source, target), links + 1)
  {
    hide Balanced, LinkBehind, LinkDirectly;
    LinkBehindBalances(d, source, target, false);
    LinkDirectlyBalances(e, source, target);
    LinkCounters(d, source, target);
    LinkCounters(e, source, target);
    BalancedSizes(LinkBehind(d, source, target, false));
    BalancedSizes(LinkDirectly(e, source, target));
  }

  lemma BalancedSizes(b: Books)
    requires Balanced(b)
    ensures |b.held| == |b.state.net| && WellFormed(b.state)
  {
  }

  lemma {:induction false} BothWaysAlike(b: Books, deeds: seq<Deed>)
    requires Balanced(b) && AllPermitted(b, deeds)
    ensures Alike(b, Deferred(b, deeds), Directly(b, deeds), Links(deeds))
  {
    hide Alike, Permitted, LinkBehind, LinkDirectly, Then;
    if deeds == [] {
      AlikeItself(b);
    } else {
      var before := deeds[..|deeds| - 1];
      BothWaysAlike(b, before);
      match deeds[|deeds| - 1]
      case Link(source, target) =>
        LinkStaysAlike(b, Deferred(b, before), Directly(b, before), Links(before), source, target);
      case Plain(op) => PlainStaysAlike(b, Deferred(b, before), Directly(b, before), Links(before), op);
    }
  }

  lemma AlikeItself(b: Books)
    requires Balanced(b)
    ensures Alike(b, b, b, 0)
  {
  }

  // ---------------------------------------------------------------- the same decrements are in store

  /** Aliases to `c` whose source triggers, if exactly the members of `x` do. */
  function Fed(s: State, deeds: seq<Deed>, x: set<Id>, c: Id): nat {
    if deeds == [] then 0
    else
      var d := deeds[|deeds| - 1];
      Fed(s, deeds[..|deeds| - 1], x, c) + Num(d.Link? && d.target == c && Reaches(s, x, d.source))
  }

  /** Aliases to `c` whose pending operation becomes ready. */
  function Passed(n: nat, deeds: seq<Deed>, x: set<Id>, c: Id): nat {
    if deeds == [] then 0
    else
      var d := deeds[|deeds| - 1];
      Passed(n, deeds[..|deeds| - 1], x, c) + Num(d.Link? && d.target == c && n + Links(deeds[..|deeds| - 1]) in x)
  }

  lemma PlainLoads(b: Books, op: Op, n: nat, x: set<Id>, c: Id)
    requires About(Plain(op), n) && n <= |b.state.net|
    ensures Load(Then(b, op, false).state, x, c) == Load(b.state, x, c) +
      match op
      case Drop(d) => Num(c == d)
      case Attach(d, a) => Num(Aims(a, c) && Reaches(b.state, x, d))
      case _ => 0
  {
    match op
    case Raise(d) => RaiseLoads(b.state, d, x, c);
    case Drop(d) => DropLoads(b.state, d, x, c);
    case Attach(d, a) => AttachLoads(b.state, d, a, x, c);
  }

  lemma AlikeReaches(b: Books, d: Books, e: Books, links: nat, x: set<Id>, c: Id)
    requires Alike(b, d, e, links) && c < |b.held|
    ensures Reaches(b.state, x, c) == Reaches(d.state, x, c) == Reaches(e.state, x, c)
  {
  }

  lemma {:induction false} LoadsAgree(b: Books, deeds: seq<Deed>, x: set<Id>, c: Id)
    requires Balanced(b) && AllPermitted(b, deeds) && c < |b.held|
    ensures Load(Deferred(b, deeds).state, x, c) + Fed(b.state, deeds, x, c) ==
            Load(Directly(b, deeds).state, x, c) + Passed(|b.held|, deeds, x, c)
  {
    hide Alike, Permitted, LinkBehind, LinkDirectly, Then, Load, Reaches;
    if deeds != [] {
      var before, last, n := deeds[..|deeds| - 1], deeds[|deeds| - 1], |b.held|;
      var d, e := Deferred(b, before), Directly(b, before);
      LoadsAgree(b, before, x, c);
      BothWaysAlike(b, before);
      AlikeSizes(b, d, e, Links(before));
      match last
      case Link(source, target) =>
        DeferredLinkLoads(d, source, target, x, c);
        DirectLinkLoads(e, source, target, x, c);
        AlikeReaches(b, d, e, Links(before), x, source);
      case Plain(op) =>
        PlainLoads(d, op, n, x, c);
        PlainLoads(e, op, n, x, c);
        if op.Attach? {
          AlikeReaches(b, d, e, Links(before), x, op.id);
        }
    }
  }

  lemma AlikeSizes(b: Books, d: Books, e: Books, links: nat)
    requires Alike(b, d, e, links)
    ensures |d.held| == |d.state.net| == |b.held| + links && |e.held| == |e.state.net| == |b.held| == |b.state.net|
    ensures WellFormed(d.state) && WellFormed(e.state)
  {
  }

  /** The counter of the pending operation of the `i`th deed gets one decrement at once, and one
      if its source triggers. */
  lemma {:induction false} PendingLoads(b: Books, deeds: seq<Deed>, x: set<Id>, i: nat)
    requires Balanced(b) && AllPermitted(b, deeds) && i < |deeds| && deeds[i].Link?
    ensures var p := |b.held| + Links(deeds[..i]);
      && p < |b.held| + Links(deeds)
      && Load(Deferred(b, deeds).state, x, p) == 1 + Num(Reaches(b.state, x, deeds[i].source))
  {
    hide Alike, Permitted, LinkBehind, LinkDirectly, Then, Load, Reaches;
    var m := |deeds| - 1;
    var before, last, n := deeds[..m], deeds[m], |b.held|;
    var p := n + Links(deeds[..i]);
    var d, e := Deferred(b, before), Directly(b, before);
    BothWaysAlike(b, before);
    AlikeSizes(b, d, e, Links(before));
    if i == m {
      UnbornUnloaded(d.state, x);
      DeferredLinkLoads(d, last.source, last.target, x, p);
      AlikeReaches(b, d, e, Links(before), x, last.source);
    } else {
      assert before[..i] == deeds[..i];
      PendingLoads(b, before, x, i);
      match last
      case Link(source, target) => DeferredLinkLoads(d, source, target, x, p);
      case Plain(op) => PlainLoads(d, op, n, x, p);
    }
  }

  // ---------------------------------------------------------------- the same fixpoint

  /** The counter of the pending operation of the `i`th deed. */
  function PendingOf(n: nat, deeds: seq<Deed>, i: nat): Id
    requires i < |deeds|
  {
    n + Links(deeds[..i])
  }

  lemma {:induction false} LaterPending(deeds: seq<Deed>, i: nat, j: nat)
    requires i < j <= |deeds| && deeds[i].Link?
    ensures Links(deeds[..i]) < Links(deeds[..j])
    decreases j
  {
    assert deeds[..j][..j - 1] == deeds[..j - 1];
    if i < j - 1 {
      LaterPending(deeds, i, j - 1);
    }
  }

  /** Different aliases have different pending operations. */
  lemma PendingsDiffer(n: nat, deeds: seq<Deed>, i: nat, j: nat)
    requires i < |deeds| && j < |deeds| && deeds[i].Link? && deeds[j].Link?
    ensures PendingOf(n, deeds, i) == PendingOf(n, deeds, j) ==> i == j
    ensures n <= PendingOf(n, deeds, i) < n + Links(deeds)
  {
    if i < j {
      LaterPending(deeds, i, j);
    } else if j < i {
      LaterPending(deeds, j, i);
    }
    LaterPending(deeds, i, |deeds|);
    assert deeds[..|deeds|] == deeds;
  }

  lemma {:induction false} WhoseCounter(n: nat, deeds: seq<Deed>, p: Id) returns (i: nat)
    requires n <= p < n + Links(deeds)
    ensures i < |deeds| && deeds[i].Link? && PendingOf(n, deeds, i) == p
  {
    var m := |deeds| - 1;
    if p < n + Links(deeds[..m]) {
      i := WhoseCounter(n, deeds[..m], p);
      assert deeds[..m][..i] == deeds[..i];
    } else {
      i := m;
    }
  }

  predicate IsReached(s: State, deeds: seq<Deed>, x: set<Id>, i: nat) {
    i < |deeds| && deeds[i].Link? && Reaches(s, x, deeds[i].source)
  }

  /** The pending operations whose sources trigger, if exactly the members of `x` do. */
  ghost function Pendings(s: State, n: nat, deeds: seq<Deed>, x: set<Id>): set<Id> {
    set i | 0 <= i < |deeds| && IsReached(s, deeds, x, i) :: PendingOf(n, deeds, i)
  }

  lemma IsPending(s: State, n: nat, deeds: seq<Deed>, x: set<Id>, i: nat)
    requires i < |deeds| && deeds[i].Link?
    ensures PendingOf(n, deeds, i) in Pendings(s, n, deeds, x) <==> IsReached(s, deeds, x, i)
  {
    hide PendingOf;
    forall j: nat | j < |deeds| && IsReached(s, deeds, x, j) && PendingOf(n, deeds, j) == PendingOf(n, deeds, i)
      ensures i == j
    {
      PendingsDiffer(n, deeds, i, j);
    }
  }

  lemma PendingsAreNew(s: State, n: nat, deeds: seq<Deed>, x: set<Id>)
    ensures forall p: Id :: p in Pendings(s, n, deeds, x) ==> n <= p
  {
  }

  /** Each pending operation passes its decrement on if its source triggers. */
  ghost predicate PassesOn(s: State, n: nat, deeds: seq<Deed>, x: set<Id>) {
    forall i :: 0 <= i < |deeds| && IsReached(s, deeds, x, i) ==> PendingOf(n, deeds, i) in x
  }

  ghost predicate PassesOnOnly(s: State, n: nat, deeds: seq<Deed>, x: set<Id>) {
    forall i :: 0 <= i < |deeds| && deeds[i].Link? && PendingOf(n, deeds, i) in x ==> IsReached(s, deeds, x, i)
  }

  lemma {:induction false} PassedIsFed(s: State, n: nat, deeds: seq<Deed>, x: set<Id>, c: Id)
    requires PassesOn(s, n, deeds, x)
    ensures Passed(n, deeds, x, c) >= Fed(s, deeds, x, c)
    ensures PassesOnOnly(s, n, deeds, x) ==> Passed(n, deeds, x, c) == Fed(s, deeds, x, c)
  {
    hide Reaches;
    if deeds != [] {
      var m := |deeds| - 1;
      var before := deeds[..m];
      forall i | 0 <= i < m
        ensures PendingOf(n, before, i) == PendingOf(n, deeds, i)
        ensures IsReached(s, before, x, i) == IsReached(s, deeds, x, i)
      {
        assert before[..i] == deeds[..i];
      }
      PassedIsFed(s, n, before, x, c);
      assert IsReached(s, deeds, x, m) ==> PendingOf(n, deeds, m) in x;
    }
  }

  lemma {:induction false} OnlyOwnCounters(net: seq<Counter>, x: set<Id>, y: set<Id>, c: Id)
    requires forall i :: 0 <= i < |net| ==> (i in x <==> i in y)
    ensures AttachedFrom(net, x, c) == AttachedFrom(net, y, c)
  {
    if net != [] {
      OnlyOwnCounters(net[..|net| - 1], x, y, c);
    }
  }

  predicate Ready(s: State, x: set<Id>, c: Id)
    requires c < |s.net|
  {
    s.net[c].triggered || s.net[c].count <= Load(s, x, c)
  }

  lemma ClosedIsReady(s: State, x: set<Id>)
    ensures Closed(s, x) <==> forall c: Id :: c < |s.net| && Ready(s, x, c) ==> c in x
  {
  }

  lemma AlikeAt(b: Books, deeds: seq<Deed>, c: Id)
    requires Balanced(b) && AllPermitted(b, deeds)
    ensures var d, e, n := Deferred(b, deeds).state, Directly(b, deeds).state, |b.held|;
      && Safe(d) && Safe(e) && |d.net| == n + Links(deeds) && |e.net| == n == |b.state.net|
      && (c < n ==> d.net[c].count == e.net[c].count && d.net[c].triggered == e.net[c].triggered)
      && (n <= c < |d.net| ==> d.net[c].count == 2 && !d.net[c].triggered)
  {
    hide Safe, Deferred, Directly;
    BothWaysAlike(b, deeds);
  }

  lemma PendingIsLoaded(b: Books, deeds: seq<Deed>, x: set<Id>, i: nat)
    requires Balanced(b) && AllPermitted(b, deeds) && IsReached(b.state, deeds, x, i)
    ensures Load(Deferred(b, deeds).state, x, PendingOf(|b.held|, deeds, i)) == 2
  {
    hide AllPermitted, Load, Deferred, Balanced, Reaches, Links;
    PendingLoads(b, deeds, x, i);
  }

  /** In any closed set a pending operation is there if its source is. */
  lemma ClosedPassesOn(b: Books, deeds: seq<Deed>, x: set<Id>)
    requires Balanced(b) && AllPermitted(b, deeds) && Closed(Deferred(b, deeds).state, x)
    ensures PassesOn(b.state, |b.held|, deeds, x)
  {
    var n, d := |b.held|, Deferred(b, deeds);
    hide AllPermitted, Load, Deferred, Directly, Reaches, Closed, Balanced, Safe, PendingOf;
    ClosedIsReady(d.state, x);
    forall i | 0 <= i < |deeds| && IsReached(b.state, deeds, x, i) ensures PendingOf(n, deeds, i) in x {
      PendingsDiffer(n, deeds, i, i);
      AlikeAt(b, deeds, PendingOf(n, deeds, i));
      PendingIsLoaded(b, deeds, x, i);
      assert Ready(d.state, x, PendingOf(n, deeds, i));
    }
  }

  /** A set closed for the way in use is closed for the direct one. */
  lemma ClosedDirectly(b: Books, deeds: seq<Deed>, x: set<Id>)
    requires Balanced(b) && AllPermitted(b, deeds) && Closed(Deferred(b, deeds).state, x)
    ensures Closed(Directly(b, deeds).state, x)
  {
    var n, d, e := |b.held|, Deferred(b, deeds), Directly(b, deeds);
    hide AllPermitted, Load, Deferred, Directly, Closed, PassesOn, Balanced, Safe;
    AlikeAt(b, deeds, 0);
    ClosedPassesOn(b, deeds, x);
    ClosedIsReady(d.state, x);
    ClosedIsReady(e.state, x);
    forall c: Id | c < n && Ready(e.state, x, c) ensures c in x {
      AlikeAt(b, deeds, c);
      LoadsAgree(b, deeds, x, c);
      PassedIsFed(b.state, n, deeds, x, c);
      assert Ready(d.state, x, c);
    }
  }

  lemma FlowIsClosed(b: Books, deeds: seq<Deed>, x: set<Id>, z: set<Id>, c: Id)
    requires Balanced(b) && AllPermitted(b, deeds) && c < |b.held|
    requires Closed(Directly(b, deeds).state, x) && forall i: Id :: i < |b.held| ==> (i in x <==> i in z)
    requires PassesOn(b.state, |b.held|, deeds, z) && PassesOnOnly(b.state, |b.held|, deeds, z)
    ensures var d := Deferred(b, deeds).state; c < |d.net| && (Ready(d, z, c) ==> c in z)
  {
    var e := Directly(b, deeds).state;
    AlikeAt(b, deeds, c);
    ClosedIsReady(e, x);
    hide AllPermitted, Load, Deferred, Directly, Closed, PassesOn, PassesOnOnly, Balanced, Safe;
    LoadsAgree(b, deeds, z, c);
    PassedIsFed(b.state, |b.held|, deeds, z, c);
    SameLoad(e, x, z, c);
    assert Ready(e, x, c) ==> c in x;
  }

  lemma PendingIsClosed(b: Books, deeds: seq<Deed>, z: set<Id>, c: Id)
    requires Balanced(b) && AllPermitted(b, deeds) && |b.held| <= c < |b.held| + Links(deeds)
    requires PassesOn(b.state, |b.held|, deeds, z)
    ensures var d := Deferred(b, deeds).state; c < |d.net| && (Ready(d, z, c) ==> c in z)
  {
    hide AllPermitted, Load, Deferred, Directly, Balanced, Safe, Reaches, Links;
    AlikeAt(b, deeds, c);
    var i := WhoseCounter(|b.held|, deeds, c);
    PendingLoads(b, deeds, z, i);
    assert IsReached(b.state, deeds, z, i) ==> PendingOf(|b.held|, deeds, i) in z;
  }

  /** A set closed for the direct way is closed for the other, together with the pending
      operations its members make ready. */
  lemma ClosedWithPendings(b: Books, deeds: seq<Deed>, x: set<Id>)
    requires Balanced(b) && AllPermitted(b, deeds)
    requires Closed(Directly(b, deeds).state, x) && forall c: Id :: c in x ==> c < |b.held|
    ensures Closed(Deferred(b, deeds).state, x + Pendings(b.state, |b.held|, deeds, x))
  {
    var n, d := |b.held|, Deferred(b, deeds).state;
    var z := x + Pendings(b.state, n, deeds, x);
    AlikeAt(b, deeds, 0);
    PendingsAreNew(b.state, n, deeds, x);
    PendingsPassOn(b, deeds, x);
    hide AllPermitted, Load, Deferred, Directly, Closed, PassesOn, PassesOnOnly, Balanced, Pendings, Safe, Ready;
    forall c: Id | c < |d.net| && Ready(d, z, c) ensures c in z {
      if c < n {
        FlowIsClosed(b, deeds, x, z, c);
      } else {
        PendingIsClosed(b, deeds, z, c);
      }
    }
    ClosedIsReady(d, z);
  }

  lemma SameLoad(s: State, x: set<Id>, y: set<Id>, c: Id)
    requires forall i: Id :: i < |s.net| ==> (i in x <==> i in y)
    ensures Load(s, x, c) == Load(s, y, c)
  {
    OnlyOwnCounters(s.net, x, y, c);
  }

  lemma {:induction false} SourceIsFlow(b: Books, deeds: seq<Deed>, i: nat)
    requires AllPermitted(b, deeds) && i < |deeds| && deeds[i].Link?
    ensures deeds[i].source < |b.held|
  {
    if i < |deeds| - 1 {
      SourceIsFlow(b, deeds[..|deeds| - 1], i);
    }
  }

  lemma PendingsPassOn(b: Books, deeds: seq<Deed>, x: set<Id>)
    requires AllPermitted(b, deeds) && |b.held| == |b.state.net| && forall c: Id :: c in x ==> c < |b.held|
    ensures var z := x + Pendings(b.state, |b.held|, deeds, x);
      PassesOn(b.state, |b.held|, deeds, z) && PassesOnOnly(b.state, |b.held|, deeds, z)
  {
    var n := |b.held|;
    var z := x + Pendings(b.state, n, deeds, x);
    PendingsAreNew(b.state, n, deeds, x);
    hide Pendings, AllPermitted;
    forall i | 0 <= i < |deeds| && deeds[i].Link?
      ensures IsReached(b.state, deeds, z, i) <==> PendingOf(n, deeds, i) in z
    {
      SourceIsFlow(b, deeds, i);
      IsPending(b.state, n, deeds, x, i);
      assert PendingOf(n, deeds, i) !in x;
    }
  }

  // ---------------------------------------------------------------- the same outcome

  /** The counters triggered in the end: the same flows, and the pending operations of those
      aliases whose source is among them. */
  lemma TriggeredAlike(b: Books, deeds: seq<Deed>)
    requires Balanced(b) && AllPermitted(b, deeds)
    requires Safe(Deferred(b, deeds).state) && Safe(Directly(b, deeds).state)
    requires |Directly(b, deeds).state.net| == |b.held| == |b.state.net|
    ensures var n := |b.held|;
      var x, y := TriggeredSet(Settle(Deferred(b, deeds).state, true).net),
          TriggeredSet(Settle(Directly(b, deeds).state, true).net);
      && (forall c: Id :: c < n ==> (c in x <==> c in y))
      && PassesOn(b.state, n, deeds, x) && PassesOnOnly(b.state, n, deeds, x)
  {
    var n, d, e := |b.held|, Deferred(b, deeds).state, Directly(b, deeds).state;
    var x, y := TriggeredSet(Settle(d, true).net), TriggeredSet(Settle(e, true).net);
    var z := y + Pendings(b.state, n, deeds, y);
    hide Safe, AllPermitted, Deferred, Directly, Closed, PassesOn, PassesOnOnly, Pendings;
    TriggeredIsLeastFixpoint(d);
    TriggeredIsLeastFixpoint(e);
    ClosedDirectly(b, deeds, x);
    ClosedWithPendings(b, deeds, y);
    ClosedPassesOn(b, deeds, x);
    PendingsAreNew(b.state, n, deeds, y);
    assert y <= x <= z;
    OnlyPassesOn(b, deeds, x, y);
  }

  /** Settling ends with the same flows triggered and the same counts, either way. */
  lemma SettledAlike(b: Books, deeds: seq<Deed>, c: Id)
    requires Balanced(b) && AllPermitted(b, deeds) && c < |b.held|
    requires Safe(Deferred(b, deeds).state) && Safe(Directly(b, deeds).state)
    ensures var t, u := Settle(Deferred(b, deeds).state, true).net, Settle(Directly(b, deeds).state, true).net;
      c < |t| && c < |u| && t[c].triggered == u[c].triggered && t[c].count == u[c].count
  {
    var n, d, e := |b.held|, Deferred(b, deeds).state, Directly(b, deeds).state;
    var x, y := TriggeredSet(Settle(d, true).net), TriggeredSet(Settle(e, true).net);
    AlikeAt(b, deeds, c);
    TriggeredAlike(b, deeds);
    assert Settle(d, true).net[c].triggered <==> c in x;
    assert Settle(e, true).net[c].triggered <==> c in y;
    hide Safe, AllPermitted, Load, Deferred, Directly, PassesOn, PassesOnOnly, TriggeredSet, Balanced;
    EndCount(d, x, c);
    EndCount(e, y, c);
    LoadsAgree(b, deeds, x, c);
    PassedIsFed(b.state, n, deeds, x, c);
    SameLoad(e, x, y, c);
  }

  lemma EndCount(s: State, x: set<Id>, c: Id)
    requires Safe(s) && c < |s.net| && x == TriggeredSet(Settle(s, true).net)
    ensures Settle(s, true).net[c].count == s.net[c].count - Load(s, x, c)
  {
    CountAtTheEnd(s, x, c);
  }

  lemma OnlyPassesOn(b: Books, deeds: seq<Deed>, x: set<Id>, y: set<Id>)
    requires AllPermitted(b, deeds) && |b.held| == |b.state.net|
    requires y <= x <= y + Pendings(b.state, |b.held|, deeds, y) && forall c: Id :: c in y ==> c < |b.held|
    ensures PassesOnOnly(b.state, |b.held|, deeds, x)
  {
    var n := |b.held|;
    hide Pendings, AllPermitted;
    forall i | 0 <= i < |deeds| && deeds[i].Link? && PendingOf(n, deeds, i) in x
      ensures IsReached(b.state, deeds, x, i)
    {
      IsPending(b.state, n, deeds, y, i);
      assert PendingOf(n, deeds, i) !in y;
    }
  }

  /** The counter operations of these deeds, when `n` is the first counter still to be made. */
  function DeferredOps(n: Id, deeds: seq<Deed>): seq<Op> {
    if deeds == [] then []
    else
      var m := |deeds| - 1;
      var p := n + Links(deeds[..m]);
      DeferredOps(n, deeds[..m]) +
      match deeds[m]
      case Link(source, target) =>
        [Raise(target), Create(1), Raise(p), Attach(source, Decrement(p)), Drop(p), Attach(p, Alias(target))]
      case Plain(op) => [op]
  }

  function DirectOps(deeds: seq<Deed>): seq<Op> {
    if deeds == [] then []
    else
      DirectOps(deeds[..|deeds| - 1]) +
      match deeds[|deeds| - 1]
      case Link(source, target) => [Raise(target), Attach(source, Decrement(target))]
      case Plain(op) => [op]
  }

  lemma OneOp(s: State, op: Op)
    ensures PerformAll(s, [op]) == Perform(s, op)
  {
    assert [op][1..] == [];
  }

  lemma SixOps(s: State, p: Id, source: Id, target: Id)
    requires p == |s.net|
    ensures PerformAll(s,
        [Raise(target), Create(1), Raise(p), Attach(source, Decrement(p)), Drop(p), Attach(p, Alias(target))]) ==
      Perform(Assembled(s, source, target), Attach(p, Alias(target)))
  {
    hide Perform;
    var a, b, c := Attach(source, Decrement(p)), Drop(p), Attach(p, Alias(target));
    var made := Perform(Perform(s, Raise(target)), Create(1));
    assert [Raise(target), Create(1), Raise(p), a, b, c] ==
           [Raise(target)] + ([Create(1)] + ([Raise(p)] + ([a] + ([b] + [c]))));
    FirstOp(s, Raise(target), [Create(1)] + ([Raise(p)] + ([a] + ([b] + [c]))));
    FirstOp(Perform(s, Raise(target)), Create(1), [Raise(p)] + ([a] + ([b] + [c])));
    FirstOp(made, Raise(p), [a] + ([b] + [c]));
    FirstOp(Perform(made, Raise(p)), a, [b] + [c]);
    FirstOp(Perform(Perform(made, Raise(p)), a), b, [c]);
    OneOp(Assembled(s, source, target), c);
  }

  lemma FirstOp(s: State, op: Op, rest: seq<Op>)
    ensures PerformAll(s, [op] + rest) == PerformAll(Perform(s, op), rest)
  {
    assert ([op] + rest)[1..] == rest;
  }

  lemma {:induction false} DeferredIsOps(b: Books, deeds: seq<Deed>)
    requires Balanced(b) && AllPermitted(b, deeds)
    ensures Deferred(b, deeds).state == PerformAll(b.state, DeferredOps(|b.held|, deeds))
  {
    hide Perform, Permits, LinkBehind, Alike, Assembled;
    if deeds != [] {
      var m := |deeds| - 1;
      var before, d := deeds[..m], Deferred(b, deeds[..m]);
      DeferredIsOps(b, before);
      BothWaysAlike(b, before);
      AlikeSizes(b, d, Directly(b, before), Links(before));
      match deeds[m]
      case Link(source, target) =>
        var p := |b.held| + Links(before);
        var hook, last := Attach(source, Decrement(p)), Attach(p, Alias(target));
        var ops := [Raise(target), Create(1), Raise(p), hook, Drop(p), last];
        PerformMore(b.state, DeferredOps(|b.held|, before), ops);
        AssembledLinks(d, source, target);
        SixOps(d.state, p, source, target);
      case Plain(op) =>
        PerformMore(b.state, DeferredOps(|b.held|, before), [op]);
        OneOp(d.state, op);
        PlainIsPerform(d, op);
    }
  }

  lemma PlainIsPerform(b: Books, op: Op)
    ensures Then(b, op, false).state == Perform(b.state, op)
  {
  }

  lemma {:induction false} DirectIsOps(b: Books, deeds: seq<Deed>)
    ensures Directly(b, deeds).state == PerformAll(b.state, DirectOps(deeds))
  {
    hide Perform;
    if deeds != [] {
      var before := deeds[..|deeds| - 1];
      DirectIsOps(b, before);
      match deeds[|deeds| - 1]
      case Link(source, target) =>
        var raise, attach := Raise(target), Attach(source, Decrement(target));
        var s := Directly(b, before).state;
        assert [raise, attach] == [raise] + [attach];
        PerformMore(b.state, DirectOps(before), [raise, attach]);
        FirstOp(s, raise, [attach]);
        OneOp(Perform(s, raise), attach);
      case Plain(op) =>
        PerformMore(b.state, DirectOps(before), [op]);
        OneOp(Directly(b, before).state, op);
    }
  }

  /** Deferring aliases is invisible.  Any number of aliases are handled, either way, among any
      other raises, decrements and attachments; steps of cascades come in between the single
      counter operations wherever they like, and in the end nothing is left to run.  Then the
      same flows have triggered, with the same counts on the others. */
  lemma DeferralIsInvisible(b: Books, deeds: seq<Deed>, opsDeferred: seq<Op>, opsDirect: seq<Op>, c: Id)
    requires Balanced(b) && AllPermitted(b, deeds) && c < |b.held|
    requires AllAllowed(b.state, opsDeferred) && ClientOps(opsDeferred) == DeferredOps(|b.held|, deeds)
    requires AllAllowed(b.state, opsDirect) && ClientOps(opsDirect) == DirectOps(deeds)
    requires Settled(PerformAll(b.state, opsDeferred), true) && Settled(PerformAll(b.state, opsDirect), true)
    ensures var t, u := PerformAll(b.state, opsDeferred).net, PerformAll(b.state, opsDirect).net;
      c < |t| && c < |u| && t[c].triggered == u[c].triggered && t[c].count == u[c].count
  {
    BalancedSizes(b);
    AlikeAt(b, deeds, c);
    hide Safe, AllPermitted, AllAllowed, PerformAll, ClientOps, DeferredOps, DirectOps, Settled;
    hide Deferred, Directly, Perform;
    StepsInBetween(b.state, opsDeferred);
    StepsInBetween(b.state, opsDirect);
    DeferredIsOps(b, deeds);
    DirectIsOps(b, deeds);
    SettledAlike(b, deeds, c);
    SettledIsSettle(PerformAll(b.state, opsDeferred));
    SettledIsSettle(PerformAll(b.state, opsDirect));
  }

  lemma SettledIsSettle(s: State)
    requires Safe(s) && Settled(s, true)
    ensures Settle(s, true) == s
  {
  }

  // ---------------------------------------------------------------- the alias of a released use

  /** What a release does about its alias. */
  function AliasOf(u: Use): seq<Deed> {
    [Link(Target(u.inFlow), Target(u.outFlow))] +
    if u.antiInFlow.Some? then [Link(Target(u.antiOutFlow), Target(u.antiInFlow))] else []
  }

  ghost function DirectAliasing(b: Books, u: Use): Books {
    var linked := LinkDirectly(b, Target(u.inFlow), Target(u.outFlow));
    if u.antiInFlow.Some? then LinkDirectly(linked, Target(u.antiOutFlow), Target(u.antiInFlow)) else linked
  }

  lemma AliasOfUse(b: Books, u: Use)
    requires Balanced(b) && ReleaseOk(b, u) && u.aliases
    ensures AllPermitted(b, AliasOf(u))
    ensures Deferred(b, AliasOf(u)) == HandleAliasing(b, u, false) && Directly(b, AliasOf(u)) == DirectAliasing(b, u)
  {
    hide Balanced, LinkBehind, LinkDirectly, Live;
    var first := Link(Target(u.inFlow), Target(u.outFlow));
    assert [first][..0] == [];
    assert b.held[u.outFlow.value] >= Tokens(u, u.outFlow.value) >= 1;
    HeldIsLive(b, u.outFlow.value);
    assert AllPermitted(b, [first]);
    assert Deferred(b, [first]) == LinkBehind(b, u.inFlow.value, u.outFlow.value, false);
    assert Directly(b, [first]) == LinkDirectly(b, u.inFlow.value, u.outFlow.value);
    if u.antiInFlow.Some? {
      var second := Link(Target(u.antiOutFlow), Target(u.antiInFlow));
      assert [first, second][..1] == [first] && AliasOf(u) == [first, second];
      var linked := LinkBehind(b, u.inFlow.value, u.outFlow.value, false);
      LinkBehindBalances(b, u.inFlow.value, u.outFlow.value, false);
      assert b.held[u.antiInFlow.value] >= Tokens(u, u.antiInFlow.value);
      HeldIsLive(linked, u.antiInFlow.value);
    } else {
      assert AliasOf(u) == [first];
    }
  }

  /** In particular, for one use: every complete run after handling its alias one way agrees on
      all flows with every complete run after handling it the other way. */
  lemma EitherAliasing(b: Books, u: Use, runDeferred: seq<State>, runDirect: seq<State>, c: Id)
    requires Balanced(b) && ReleaseOk(b, u) && u.aliases && c < |b.held|
    requires IsRun(runDeferred, true) && runDeferred[0] == HandleAliasing(b, u, false).state
    requires IsRun(runDirect, true) && runDirect[0] == DirectAliasing(b, u).state
    requires Settled(runDeferred[|runDeferred| - 1], true) && Settled(runDirect[|runDirect| - 1], true)
    ensures var t, v := runDeferred[|runDeferred| - 1].net, runDirect[|runDirect| - 1].net;
      c < |t| && c < |v| && t[c].triggered == v[c].triggered && t[c].count == v[c].count
  {
    AliasOfUse(b, u);
    AlikeAt(b, AliasOf(u), c);
    hide Safe, AllPermitted, Deferred, Directly, HandleAliasing, DirectAliasing, AliasOf, ReleaseOk, Settled, IsRun;
    SettledAlike(b, AliasOf(u), c);
    AllRunsAgree(runDeferred, true);
    AllRunsAgree(runDirect, true);
  }
}
