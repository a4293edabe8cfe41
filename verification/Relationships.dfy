/**
  What the relationships of a use mean: with which counter the flow of each part becomes ready,
  when everything in flight has run, and that registering makes no other flow ready.
  */
module Relationships {
  import opened CounterNet
  import opened FlowOrder
  import opened Options
  import opened UseProtocol
  import opened Waiting

  /** A new flow that is ready once `source` is, and not before. */
  lemma FollowerIsReadyWithSource(b: Books, source: Id)
    requires Balanced(b) && Settled(b.state, false) && source < |b.held|
    ensures var t := FreshAfter(b, source, true).state;
      && SameBelow(b.state, t, |b.held|) && |t.net| == |b.held| + 1
      && (t.net[|b.held|].triggered <==> Fired(b.state, source))
  {
    var p, made := |b.held|, Fresh(b, true);
    var attach := Attach(source, Decrement(p));
    FreshGrows(b, true);
    ThenBalances(b, Create(1), true);
    FreshSettles(b);
    FreshHangsOnNothing(b, [source]);
    hide Then, Balanced, Settled, HangsOn, Waits, Fresh;
    SameSize(b);
    SameSize(made);
    ThenBalances(made, attach, true);
    ThenStaysAt(made, attach, p);
    ThenKeepsHanging(made, attach, p, [source], true);
    AttachWaits(made, source, p, Decrement(p), true);
    SameSize(Then(made, attach, true));
    ReadyWhenAllAre(Then(made, attach, true), p, [source]);
    assert source in [source];
  }

  /** A new flow that is ready at once. */
  lemma ReadyAtOnce(b: Books)
    requires Balanced(b) && Settled(b.state, false)
    ensures var t := FreshReady(b, true).state;
      SameBelow(b.state, t, |b.held|) && |t.net| == |b.held| + 1 && t.net[|b.held|].triggered
  {
    var p, made := |b.held|, Fresh(b, true);
    FreshGrows(b, true);
    ThenBalances(b, Create(1), true);
    FreshSettles(b);
    FreshHangsOnNothing(b, []);
    hide Then, Balanced, Settled, HangsOn, Waits, Fresh;
    SameSize(b);
    SameSize(made);
    ThenBalances(made, Drop(p), true);
    ThenStaysAt(made, Drop(p), p);
    ThenKeepsHanging(made, Drop(p), p, [], true);
    SameSize(Then(made, Drop(p), true));
    ReadyWhenAllAre(Then(made, Drop(p), true), p, []);
  }

  /** A new flow that waits for whoever holds it. */
  lemma HeldIsNotReady(b: Books)
    requires Balanced(b) && Settled(b.state, false)
    ensures var t := Fresh(b, true).state;
      SameBelow(b.state, t, |b.held|) && |t.net| == |b.held| + 1 && !t.net[|b.held|].triggered
  {
    FreshSettles(b);
  }

  /** The in-flow is the flow it is pointed to, or ready together with its source, or ready. */
  lemma InFlowMeans(b: Books, rel: Relationship)
    requires Balanced(b) && Settled(b.state, false) && InOk(b, rel)
    ensures var p := RegisterIn(b, rel, true); var s := p.books.state;
      && SameBelow(b.state, s, |b.held|)
      && (rel.kind in {Kind.Same, Forwarding} ==> p == Part(b, rel.Named()))
      && (Follows(rel) ==> (Triggered(s, p.flow) <==> Triggered(b.state, Source(rel))))
      && (rel.kind == Initial ==> Triggered(s, p.flow))
  {
    hide FreshAfter, FreshReady, Balanced, Settled;
    SameSize(b);
    match rel.kind
    case Next | IndexedLocal => FollowerIsReadyWithSource(b, rel.Named().value);
    case IndexedFetching(published) => FollowerIsReadyWithSource(b, published);
    case Initial => ReadyAtOnce(b);
    case _ =>
  }

  /** The anti-in-flow is the one it is pointed to, or ready together with that of the
      collection; forwarded, it is ready, and as the next one it waits for this use. */
  lemma AntiInFlowMeans(b: Books, rel: Relationship, antiDependency: bool)
    requires Balanced(b) && Settled(b.state, false) && AntiInOk(b, rel, antiDependency)
    ensures var p := RegisterAntiIn(b, rel, antiDependency, true); var s := p.books.state;
      && SameBelow(b.state, s, |b.held|)
      && (rel.kind == Same ==> p.flow == rel.Named())
      && (rel.kind == IndexedLocal ==> (Triggered(s, p.flow) <==> Triggered(b.state, rel.Named())))
      && (rel.kind == Forwarding ==> Triggered(s, p.flow))
      && (rel.kind == Next ==> p.flow.Some? && !Triggered(s, p.flow))
  {
    hide Then, FreshAfter, FreshReady, Fresh, Balanced, Settled;
    SameSize(b);
    match rel.kind
    case Same =>
      if rel.Named().Some? && !antiDependency {
        RaiseTriggersNothing(b, rel.Named().value);
      }
    case Next => HeldIsNotReady(b);
    case Forwarding => ReadyAtOnce(b);
    case IndexedLocal =>
      if rel.Named().Some? {
        FollowerIsReadyWithSource(b, rel.Named().value);
      }
    case _ =>
  }

  lemma RaiseTriggersNothing(b: Books, c: Id)
    requires Balanced(b) && Settled(b.state, false) && c < |b.held| && Live(b, c)
    ensures SameBelow(b.state, Then(b, Raise(c), true).state, |b.held|)
    ensures Then(b, Raise(c), true).state.net[c].count == b.state.net[c].count + 1
  {
    RaiseConserves(b.state, c);
    var t := Perform(b.state, Raise(c));
    forall m ensures !Enabled(t, m, false) {
      assert Enabled(t, m, false) ==> Enabled(b.state, m, false);
    }
  }

  lemma StoringTriggersNothing(b: Books, c: Id, a: Action)
    requires Balanced(b) && Settled(b.state, false) && Permitted(b, Attach(c, a)) && !b.state.net[c].triggered
    ensures SameBelow(b.state, Then(b, Attach(c, a), true).state, |b.held|)
  {
    AttachConserves(b.state, c, a);
    var t := Perform(b.state, Attach(c, a));
    forall m ensures !Enabled(t, m, false) {
      assert Enabled(t, m, false) ==> Enabled(b.state, m, false);
    }
  }

  /** A new flow that `whole` waits for, besides whoever holds either. */
  lemma PartIsWaitedFor(b: Books, whole: Id)
    requires Balanced(b) && Settled(b.state, false) && whole < |b.held| && Live(b, whole)
    ensures var t := FreshPartOf(b, whole, true).state;
      SameBelow(b.state, t, |b.held|) && Waits(t, whole, |b.held|) && !Fired(t, |b.held|)
  {
    var p, raise := |b.held|, Raise(whole);
    var raised := Then(b, raise, true);
    var made := Fresh(raised, true);
    ThenBalances(b, raise, true);
    RaiseTriggersNothing(b, whole);
    HeldIsNotReady(raised);
    FreshGrows(raised, true);
    ThenBalances(raised, Create(1), true);
    FreshPartOfGrows(b, whole, true);
    hide Then, Balanced, Settled, Waits, Fresh;
    SameSize(b);
    SameSize(made);
    StoringTriggersNothing(made, p, Decrement(whole));
    AttachWaits(made, p, whole, Decrement(whole), true);
  }

  /** The out-flow is the related flow, or a new one; either way it waits for this use.  For one
      index of a collection, the flow of the collection waits for it in turn. */
  lemma OutFlowMeans(b: Books, rel: Relationship, inFlow: Option<Id>)
    requires Balanced(b) && Settled(b.state, false) && OutOk(b, rel, inFlow)
    ensures var p := RegisterOut(b, rel, inFlow, true); var s := p.books.state;
      && SameBelow(b.state, s, |b.held|)
      && (rel.kind == Insignificant <==> p.flow == None)
      && (rel.kind == Same ==> p.flow == Related(rel, inFlow))
      && (rel.kind == IndexedLocal ==> WaitsFor(s, Related(rel, inFlow), p.flow))
      && !Triggered(s, p.flow)
  {
    OutTakesOne(b, rel, inFlow, true);
    SameSize(b);
    hide Then, Fresh, FreshPartOf, Balanced, Settled, Waits;
    match rel.kind {
      case Same => RaiseTriggersNothing(b, Related(rel, inFlow).value);
      case Next | Null => HeldIsNotReady(b);
      case IndexedLocal => PartIsWaitedFor(b, Related(rel, inFlow).value);
      case _ =>
    }
    if RegisterOut(b, rel, inFlow, true).flow.Some? {
      HeldIsLive(RegisterOut(b, rel, inFlow, true).books, RegisterOut(b, rel, inFlow, true).flow.value);
    }
  }

  /** So is the anti-out-flow. */
  lemma AntiOutFlowMeans(b: Books, rel: Relationship, antiInFlow: Option<Id>)
    requires Balanced(b) && Settled(b.state, false) && AntiOutOk(b, rel, antiInFlow)
    ensures var p := RegisterAntiOut(b, rel, antiInFlow, true); var s := p.books.state;
      && SameBelow(b.state, s, |b.held|)
      && (rel.kind == Insignificant <==> p.flow == None)
      && (rel.kind == Same ==> p.flow == Related(rel, antiInFlow))
      && (rel.kind == IndexedLocal ==> WaitsFor(s, Related(rel, antiInFlow), p.flow))
      && !Triggered(s, p.flow)
  {
    AntiOutTakesOne(b, rel, antiInFlow, true);
    SameSize(b);
    hide Then, Fresh, FreshPartOf, Balanced, Settled, Waits;
    match rel.kind {
      case Same => RaiseTriggersNothing(b, Related(rel, antiInFlow).value);
      case Initial | Next => HeldIsNotReady(b);
      case IndexedLocal => PartIsWaitedFor(b, Related(rel, antiInFlow).value);
      case _ =>
    }
    if RegisterAntiOut(b, rel, antiInFlow, true).flow.Some? {
      HeldIsLive(RegisterAntiOut(b, rel, antiInFlow, true).books, RegisterAntiOut(b, rel, antiInFlow, true).flow.value);
    }
  }
}
