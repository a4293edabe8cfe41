/**
  Registering and releasing uses in the runtime: the imperative code, tied step by step
  to module UseProtocol.
  */
module Uses {
  import opened CounterNet
  import opened Options
  import opened UseProtocol
  import opened JoinCounters
  import opened PendingOperations

  /** Where the data of a flow lives. */
  datatype Block = NoBlock | Whole(key: nat) | Slot(collection: Block, index: nat)

  datatype Flow = Flow(ready: JoinCounter, block: Block)

  datatype AntiFlow = AntiFlow(ready: JoinCounter)

  /** A relationship as the frontend states it, for a flow or for an anti-flow. */
  datatype FlowRelationship<F> =
    FlowRelationship(kind: Kind<JoinCounter>, related: Pointer<F>, index: nat, inAsRelated: bool)
  {
    function Named(): Option<F> {
      if related.To? then related.flow else None
    }
  }

  ghost function FlowId(flow: Option<Flow>): Option<Id> {
    if flow.Some? then Some(flow.value.ready.id) else None
  }

  ghost function AntiFlowId(flow: Option<AntiFlow>): Option<Id> {
    if flow.Some? then Some(flow.value.ready.id) else None
  }

  ghost function AbsKind(kind: Kind<JoinCounter>): Kind<Id> {
    match kind
    case Insignificant => Insignificant
    case Same => Same
    case Next => Next
    case Initial => Initial
    case IndexedLocal => IndexedLocal
    case IndexedFetching(published) => IndexedFetching(published.id)
    case Forwarding => Forwarding
    case Null => Null
  }

  ghost function AbsRel(rel: FlowRelationship<Flow>): Relationship {
    Relationship(AbsKind(rel.kind), if rel.related.To? then To(FlowId(rel.related.flow)) else Nowhere, rel.inAsRelated)
  }

  ghost function AbsAntiRel(rel: FlowRelationship<AntiFlow>): Relationship {
    var related := if rel.related.To? then To(AntiFlowId(rel.related.flow)) else Nowhere;
    Relationship(AbsKind(rel.kind), related, rel.inAsRelated)
  }

  class UseRecord {
    const key: nat
    const inRel: FlowRelationship<Flow>
    const antiInRel: FlowRelationship<AntiFlow>
    const outRel: FlowRelationship<Flow>
    const antiOutRel: FlowRelationship<AntiFlow>
    const isAntiDependency: bool
    const establishesAlias: bool
    var inFlow: Option<Flow>
    var antiInFlow: Option<AntiFlow>
    var outFlow: Option<Flow>
    var antiOutFlow: Option<AntiFlow>

    ghost function AbsRequest(): Request {
      Request(AbsRel(inRel), AbsAntiRel(antiInRel), AbsRel(outRel), AbsAntiRel(antiOutRel),
              isAntiDependency, establishesAlias)
    }

    ghost function Abs(): Use
      reads this
    {
      Use(FlowId(inFlow), AntiFlowId(antiInFlow), FlowId(outFlow), AntiFlowId(antiOutFlow),
          isAntiDependency, establishesAlias)
    }

    /** The relationships refer to counters of this runtime. */
    ghost predicate Names(counters: seq<JoinCounter>) {
      && In(counters, inRel.Named()) && PublishedIn(counters, inRel.kind) && AntiIn(counters, antiInRel.Named())
      && In(counters, outRel.Named()) && AntiIn(counters, antiOutRel.Named())
    }

    lemma StillNames(before: seq<JoinCounter>, after: seq<JoinCounter>)
      requires Grew(before, after) && Names(before)
      ensures Names(after)
    {
      StillIn(before, after, inRel.Named());
      assert inRel.kind.IndexedFetching? ==> after[..|before|][inRel.kind.published.id] == inRel.kind.published;
      StillAntiIn(before, after, antiInRel.Named());
      StillIn(before, after, outRel.Named());
      StillAntiIn(before, after, antiOutRel.Named());
    }

    /** The flows do, too. */
    ghost predicate FlowsIn(counters: seq<JoinCounter>)
      reads this
    {
      In(counters, inFlow) && AntiIn(counters, antiInFlow) && In(counters, outFlow) && AntiIn(counters, antiOutFlow)
    }

    /** Where the use shares a flow with others, it has that very flow. */
    predicate SharesInputs()
      reads this
    {
      && (inRel.kind == Same || inRel.kind == Forwarding ==> inFlow == inRel.Named())
      && (antiInRel.kind == Same ==> antiInFlow == antiInRel.Named())
    }

    predicate SharesOutputs()
      reads this
    {
      && (outRel.kind == Same ==> outFlow == RelatedOf(outRel, inFlow))
      && (antiOutRel.kind == Same ==> antiOutFlow == RelatedOf(antiOutRel, antiInFlow))
    }
  }

  ghost predicate In(counters: seq<JoinCounter>, flow: Option<Flow>) {
    flow.Some? ==> flow.value.ready.id < |counters| && counters[flow.value.ready.id] == flow.value.ready
  }

  ghost predicate AntiIn(counters: seq<JoinCounter>, flow: Option<AntiFlow>) {
    flow.Some? ==> flow.value.ready.id < |counters| && counters[flow.value.ready.id] == flow.value.ready
  }

  ghost predicate PublishedIn(counters: seq<JoinCounter>, kind: Kind<JoinCounter>) {
    kind.IndexedFetching? ==> kind.published.id < |counters| && counters[kind.published.id] == kind.published
  }

  /** Counters are only ever added. */
  ghost predicate Grew(before: seq<JoinCounter>, after: seq<JoinCounter>) {
    |before| <= |after| && after[..|before|] == before
  }

  lemma StillIn(before: seq<JoinCounter>, after: seq<JoinCounter>, flow: Option<Flow>)
    requires Grew(before, after) && In(before, flow)
    ensures In(after, flow)
  {
    if flow.Some? {
      assert after[..|before|][flow.value.ready.id] == flow.value.ready;
    }
  }

  lemma StillAntiIn(before: seq<JoinCounter>, after: seq<JoinCounter>, flow: Option<AntiFlow>)
    requires Grew(before, after) && AntiIn(before, flow)
    ensures AntiIn(after, flow)
  {
    if flow.Some? {
      assert after[..|before|][flow.value.ready.id] == flow.value.ready;
    }
  }

  // ---------------------------------------------------------------- new counters

  method NewReadyAfter(rt: Runtime, source: JoinCounter) returns (c: JoinCounter)
    requires rt.Good() && rt.Owns(source)
    modifies rt`counters, rt`held, rt`ready, rt`pendingTasks, rt`dispatching, rt.counters
    ensures rt.dispatching == old(rt.dispatching)
    ensures rt.Good() && fresh(c) && rt.counters == old(rt.counters) + [c] && c.id == |old(rt.counters)|
    ensures rt.Books() == FreshAfter(old(rt.Books()), source.id, true)
  {
    hide Balanced, Settled, Then;
    ghost var b := rt.Books();
    FreshGrows(b, true);
    c := rt.NewCounter(1);
    source.AttachAction(rt, DecrementOf(c));
  }

  method NewReadyNow(rt: Runtime) returns (c: JoinCounter)
    requires rt.Good()
    modifies rt`counters, rt`held, rt`ready, rt`pendingTasks, rt`dispatching, rt.counters
    ensures rt.dispatching == old(rt.dispatching)
    ensures rt.Good() && fresh(c) && rt.counters == old(rt.counters) + [c] && c.id == |old(rt.counters)|
    ensures rt.Books() == FreshReady(old(rt.Books()), true)
  {
    hide Balanced, Settled, Then;
    FreshGrows(rt.Books(), true);
    c := rt.NewCounter(1);
    c.LetGo(rt);
  }

  method NewPartOf(rt: Runtime, whole: JoinCounter) returns (c: JoinCounter)
    requires rt.Good() && rt.Owns(whole) && Live(rt.Books(), whole.id)
    modifies rt`counters, rt`held, rt`ready, rt`pendingTasks, rt`dispatching, rt.counters
    ensures rt.dispatching == old(rt.dispatching)
    ensures rt.Good() && fresh(c) && rt.counters == old(rt.counters) + [c] && c.id == |old(rt.counters)|
    ensures rt.Books() == FreshPartOf(old(rt.Books()), whole.id, true)
  {
    hide Balanced, Settled, Then;
    ghost var b := rt.Books();
    ThenBalances(b, Raise(whole.id), true);
    FreshGrows(Then(b, Raise(whole.id), true), true);
    whole.IncrementCount(rt);
    c := rt.NewCounter(1);
    c.AttachAction(rt, DecrementOf(whole));
  }

  // ---------------------------------------------------------------- register_use

  function BlockOf(flow: Option<Flow>): Block {
    if flow.Some? then flow.value.block else NoBlock
  }

  /** An in-flow refers to the data of the flow it follows; the first one of a datum gets a
      block of its own, a flow for one index refers to that part of the collection, and a fetch
      is given its data when it becomes ready (see Publish). */
  function InBlock(rel: FlowRelationship<Flow>, key: nat): Block {
    match rel.kind
    case Initial => Whole(key)
    case IndexedFetching(_) => NoBlock
    case IndexedLocal => Slot(BlockOf(rel.Named()), rel.index)
    case _ => BlockOf(rel.Named())
  }

  /** An out-flow refers to the data of the flow it is the next version of. */
  function OutBlock(rel: FlowRelationship<Flow>, inFlow: Option<Flow>): Block {
    match rel.kind
    case Null => BlockOf(inFlow)
    case IndexedLocal => NoBlock
    case _ => BlockOf(RelatedOf(rel, inFlow))
  }

  /** Flows refer to the same part of the same collection only if they are for the same index, and
      first flows to the same data only if they have the same key. */
  lemma BlocksAreApart(a: FlowRelationship<Flow>, b: FlowRelationship<Flow>, keyA: nat, keyB: nat)
    requires a.kind == b.kind && (a.kind == IndexedLocal || a.kind == Initial)
    ensures InBlock(a, keyA) == InBlock(b, keyB) <==>
            if a.kind == Initial then keyA == keyB
            else a.index == b.index && BlockOf(a.Named()) == BlockOf(b.Named())
  {
  }

  /** A next version refers to the same data as the one before, whichever way that is named. */
  lemma VersionsShareData(rel: FlowRelationship<Flow>, inFlow: Option<Flow>, key: nat)
    ensures rel.kind == Next ==> InBlock(rel, key) == BlockOf(rel.Named())
    ensures rel.kind == Next && rel.inAsRelated ==> OutBlock(rel, inFlow) == BlockOf(inFlow)
    ensures rel.kind == Next && !rel.inAsRelated ==> OutBlock(rel, inFlow) == BlockOf(rel.Named())
    ensures rel.kind == Null ==> OutBlock(rel, inFlow) == BlockOf(inFlow)
  {
  }

  /** What stands in for the related flow: that of the relationship, or the use's own. */
  function RelatedOf<F>(rel: FlowRelationship<F>, own: Option<F>): Option<F> {
    if rel.inAsRelated then own else rel.Named()
  }

  method RegisterInFlow(rt: Runtime, rel: FlowRelationship<Flow>, key: nat) returns (flow: Option<Flow>)
    requires rt.Good() && In(rt.counters, rel.Named()) && PublishedIn(rt.counters, rel.kind)
    requires InOk(rt.Books(), AbsRel(rel))
    modifies rt`counters, rt`held, rt`ready, rt`pendingTasks, rt`dispatching, rt.counters
    ensures rt.dispatching == old(rt.dispatching)
    ensures rt.Good() && In(rt.counters, flow) && Grew(old(rt.counters), rt.counters)
    ensures forall c :: c in rt.counters && c !in old(rt.counters) ==> fresh(c)
    ensures Part(rt.Books(), FlowId(flow)) == RegisterIn(old(rt.Books()), AbsRel(rel), true)
    ensures flow.Some? ==> flow.value.block == InBlock(rel, key)
    ensures rel.kind == Same || rel.kind == Forwarding ==> flow == rel.Named()
    ensures rel.kind !in {Insignificant, Same, Forwarding} ==> flow.Some? && fresh(flow.value.ready)
  {
    hide Balanced, Settled, FreshAfter, FreshReady;
    flow := None;
    match rel.kind
    case Insignificant =>
    case Same | Forwarding =>
      flow := rel.Named();
    case Next =>
      var c := NewReadyAfter(rt, rel.Named().value.ready);
      flow := Some(Flow(c, rel.Named().value.block));
    case Initial =>
      var c := NewReadyNow(rt);
      flow := Some(Flow(c, Whole(key)));
    case IndexedLocal =>
      var c := NewReadyAfter(rt, rel.Named().value.ready);
      flow := Some(Flow(c, Slot(rel.Named().value.block, rel.index)));
    case IndexedFetching(published) =>
      var c := NewReadyAfter(rt, published);
      flow := Some(Flow(c, NoBlock));
  }

  method RegisterAntiInFlow(rt: Runtime, rel: FlowRelationship<AntiFlow>, isAntiDependency: bool)
    returns (flow: Option<AntiFlow>)
    requires rt.Good() && AntiIn(rt.counters, rel.Named()) && AntiInOk(rt.Books(), AbsAntiRel(rel), isAntiDependency)
    modifies rt`counters, rt`held, rt`ready, rt`pendingTasks, rt`dispatching, rt.counters
    ensures rt.dispatching == old(rt.dispatching)
    ensures rt.Good() && AntiIn(rt.counters, flow) && Grew(old(rt.counters), rt.counters)
    ensures forall c :: c in rt.counters && c !in old(rt.counters) ==> fresh(c)
    ensures Part(rt.Books(), AntiFlowId(flow)) ==
            RegisterAntiIn(old(rt.Books()), AbsAntiRel(rel), isAntiDependency, true)
    ensures rel.kind == Same ==> flow == rel.Named()
    ensures flow.Some? && rel.kind != Same ==> fresh(flow.value.ready)
  {
    hide Balanced, Settled, Then, Fresh, FreshAfter, FreshReady;
    flow := None;
    match rel.kind
    case Insignificant =>
    case Same =>
      flow := rel.Named();
      if flow.Some? && !isAntiDependency {
        flow.value.ready.IncrementCount(rt);
      }
    case Next =>
      FreshGrows(rt.Books(), true);
      var c := NewHeld(rt);
      flow := Some(AntiFlow(c));
    case Forwarding =>
      var c := NewReadyNow(rt);
      flow := Some(AntiFlow(c));
    case IndexedLocal =>
      if rel.Named().Some? {
        var c := NewReadyAfter(rt, rel.Named().value.ready);
        flow := Some(AntiFlow(c));
      }
  }

  method NewHeld(rt: Runtime) returns (c: JoinCounter)
    requires rt.Good()
    modifies rt`counters, rt`held
    ensures rt.Good() && fresh(c) && rt.counters == old(rt.counters) + [c] && c.id == |old(rt.counters)|
    ensures rt.Books() == Fresh(old(rt.Books()), true)
  {
    c := rt.NewCounter(1);
  }

  method RegisterOutFlow(rt: Runtime, rel: FlowRelationship<Flow>, inFlow: Option<Flow>) returns (flow: Option<Flow>)
    requires rt.Good() && In(rt.counters, rel.Named()) && In(rt.counters, inFlow)
    requires OutOk(rt.Books(), AbsRel(rel), FlowId(inFlow))
    modifies rt`counters, rt`held, rt`ready, rt`pendingTasks, rt`dispatching, rt.counters
    ensures rt.dispatching == old(rt.dispatching)
    ensures rt.Good() && In(rt.counters, flow) && Grew(old(rt.counters), rt.counters)
    ensures forall c :: c in rt.counters && c !in old(rt.counters) ==> fresh(c)
    ensures Part(rt.Books(), FlowId(flow)) == RegisterOut(old(rt.Books()), AbsRel(rel), FlowId(inFlow), true)
    ensures flow.Some? ==> flow.value.block == OutBlock(rel, inFlow)
    ensures rel.kind == Same ==> flow == RelatedOf(rel, inFlow)
    ensures rel.kind !in {Insignificant, Same} ==> flow.Some? && fresh(flow.value.ready)
  {
    hide Balanced, Settled, Then, Fresh, FreshPartOf;
    var related := RelatedOf(rel, inFlow);
    flow := None;
    match rel.kind
    case Insignificant =>
    case Same =>
      flow := related;
      flow.value.ready.IncrementCount(rt);
    case Next =>
      var c := NewHeld(rt);
      flow := Some(Flow(c, related.value.block));
    case Null =>
      var c := NewHeld(rt);
      flow := Some(Flow(c, inFlow.value.block));
    case IndexedLocal =>
      var c := NewPartOf(rt, related.value.ready);
      flow := Some(Flow(c, NoBlock));
  }

  method RegisterAntiOutFlow(rt: Runtime, rel: FlowRelationship<AntiFlow>, antiInFlow: Option<AntiFlow>)
    returns (flow: Option<AntiFlow>)
    requires rt.Good() && AntiIn(rt.counters, rel.Named()) && AntiIn(rt.counters, antiInFlow)
    requires AntiOutOk(rt.Books(), AbsAntiRel(rel), AntiFlowId(antiInFlow))
    modifies rt`counters, rt`held, rt`ready, rt`pendingTasks, rt`dispatching, rt.counters
    ensures rt.dispatching == old(rt.dispatching)
    ensures rt.Good() && AntiIn(rt.counters, flow) && Grew(old(rt.counters), rt.counters)
    ensures forall c :: c in rt.counters && c !in old(rt.counters) ==> fresh(c)
    ensures Part(rt.Books(), AntiFlowId(flow)) ==
            RegisterAntiOut(old(rt.Books()), AbsAntiRel(rel), AntiFlowId(antiInFlow), true)
    ensures rel.kind == Same ==> flow == RelatedOf(rel, antiInFlow)
    ensures rel.kind !in {Insignificant, Same} ==> flow.Some? && fresh(flow.value.ready)
  {
    hide Balanced, Settled, Then, Fresh, FreshPartOf;
    var related := RelatedOf(rel, antiInFlow);
    flow := None;
    match rel.kind
    case Insignificant =>
    case Initial =>
      var c := NewHeld(rt);
      flow := Some(AntiFlow(c));
    case Same =>
      flow := related;
      flow.value.ready.IncrementCount(rt);
    case Next =>
      var c := NewHeld(rt);
      flow := Some(AntiFlow(c));
    case IndexedLocal =>
      var c := NewPartOf(rt, related.value.ready);
      flow := Some(AntiFlow(c));
  }

  /** The first half of register_use: the flows the use waits for. */
  method RegisterInputs(rt: Runtime, use: UseRecord)
    requires rt.Good() && use.Names(rt.counters) && InOk(rt.Books(), AbsRel(use.inRel))
    requires var p := RegisterIn(rt.Books(), AbsRel(use.inRel), true);
      AntiInOk(p.books, AbsAntiRel(use.antiInRel), use.isAntiDependency)
    modifies rt`counters, rt`held, rt`ready, rt`pendingTasks, rt`dispatching, rt.counters, use`inFlow, use`antiInFlow
    ensures rt.dispatching == old(rt.dispatching)
    ensures rt.Good() && Grew(old(rt.counters), rt.counters)
    ensures In(rt.counters, use.inFlow) && AntiIn(rt.counters, use.antiInFlow)
    ensures forall i :: 0 <= i < |rt.counters| ==> rt.counters[i] in old(rt.counters) || fresh(rt.counters[i])
    ensures var p := RegisterIn(old(rt.Books()), AbsRel(use.inRel), true);
            var q := RegisterAntiIn(p.books, AbsAntiRel(use.antiInRel), use.isAntiDependency, true);
            rt.Books() == q.books && FlowId(use.inFlow) == p.flow && AntiFlowId(use.antiInFlow) == q.flow
    ensures use.SharesInputs() && (use.inFlow.Some? ==> use.inFlow.value.block == InBlock(use.inRel, use.key))
  {
    hide Balanced, Settled, RegisterIn, RegisterAntiIn, InOk, AntiInOk, Runtime.Good, Runtime.Valid, Runtime.Abs,
        In, AntiIn;
    use.inFlow := RegisterInFlow(rt, use.inRel, use.key);
    assert forall i :: 0 <= i < |rt.counters| ==> rt.counters[i] in old(rt.counters) || fresh(rt.counters[i]);
    ghost var cs := rt.counters;
    StillAntiIn(old(rt.counters), cs, use.antiInRel.Named());
    use.antiInFlow := RegisterAntiInFlow(rt, use.antiInRel, use.isAntiDependency);
    StillIn(cs, rt.counters, use.inFlow);
  }

  /** The second half: the flows the use makes others wait for. */
  method RegisterOutputs(rt: Runtime, use: UseRecord)
    requires rt.Good() && use.Names(rt.counters) && In(rt.counters, use.inFlow) && AntiIn(rt.counters, use.antiInFlow)
    requires OutOk(rt.Books(), AbsRel(use.outRel), FlowId(use.inFlow))
    requires var p := RegisterOut(rt.Books(), AbsRel(use.outRel), FlowId(use.inFlow), true);
      AntiOutOk(p.books, AbsAntiRel(use.antiOutRel), AntiFlowId(use.antiInFlow))
    modifies rt`counters, rt`held, rt`ready, rt`pendingTasks, rt`dispatching, rt.counters, use`outFlow, use`antiOutFlow
    ensures rt.dispatching == old(rt.dispatching)
    ensures rt.Good() && Grew(old(rt.counters), rt.counters) && use.FlowsIn(rt.counters)
    ensures var p := RegisterOut(old(rt.Books()), AbsRel(use.outRel), FlowId(use.inFlow), true);
            var q := RegisterAntiOut(p.books, AbsAntiRel(use.antiOutRel), AntiFlowId(use.antiInFlow), true);
            rt.Books() == q.books && FlowId(use.outFlow) == p.flow && AntiFlowId(use.antiOutFlow) == q.flow
    ensures use.SharesOutputs()
    ensures use.outFlow.Some? ==> use.outFlow.value.block == OutBlock(use.outRel, use.inFlow)
  {
    hide Balanced, Settled, RegisterOut, RegisterAntiOut, OutOk, AntiOutOk, Runtime.Good, Runtime.Valid,
        Runtime.Abs, In, AntiIn;
    use.outFlow := RegisterOutFlow(rt, use.outRel, use.inFlow);
    assert forall i :: 0 <= i < |rt.counters| ==> rt.counters[i] in old(rt.counters) || fresh(rt.counters[i]);
    ghost var cs := rt.counters;
    StillAntiIn(old(rt.counters), cs, use.antiOutRel.Named());
    StillAntiIn(old(rt.counters), cs, use.antiInFlow);
    use.antiOutFlow := RegisterAntiOutFlow(rt, use.antiOutRel, use.antiInFlow);
    StillIn(old(rt.counters), rt.counters, use.inFlow);
    StillAntiIn(cs, rt.counters, use.antiInFlow);
    StillIn(cs, rt.counters, use.outFlow);
  }

  method RegisterUse(rt: Runtime, use: UseRecord)
    requires rt.Good() && use.Names(rt.counters) && Acceptable(rt.Books(), use.AbsRequest(), true)
    modifies rt`counters, rt`held, rt`ready, rt`pendingTasks, rt`dispatching, rt.counters, use
    ensures rt.dispatching == old(rt.dispatching)
    ensures rt.Good() && Grew(old(rt.counters), rt.counters) && use.FlowsIn(rt.counters)
    ensures var stages := Register(old(rt.Books()), use.AbsRequest(), true);
            rt.Books() == stages.antiOutPart.books && use.Abs() == Registered(use.AbsRequest(), stages)
    ensures use.SharesInputs() && use.SharesOutputs()
    ensures use.inFlow.Some? ==> use.inFlow.value.block == InBlock(use.inRel, use.key)
    ensures use.outFlow.Some? ==> use.outFlow.value.block == OutBlock(use.outRel, use.inFlow)
  {
    hide Balanced, Settled, RegisterIn, RegisterAntiIn, RegisterOut, RegisterAntiOut, InOk, AntiInOk, OutOk, AntiOutOk;
    hide Runtime.Good, Runtime.Valid, Runtime.Abs, In, AntiIn;
    RegisterInputs(rt, use);
    use.StillNames(old(rt.counters), rt.counters);
    RegisterOutputs(rt, use);
  }

  // ---------------------------------------------------------------- release_use

  /** Raise `target`, and lower it again once `source` is ready: by way of the work queue
      unless operations may run on the stack. */
  method Link(rt: Runtime, source: JoinCounter, target: JoinCounter)
    requires rt.Good() && rt.Owns(source) && rt.Owns(target) && Live(rt.Books(), target.id)
    modifies rt, rt.counters
    ensures rt.dispatching == old(rt.dispatching)
    ensures rt.Good() && Grew(old(rt.counters), rt.counters)
    ensures forall i :: 0 <= i < |rt.counters| ==> rt.counters[i] in old(rt.counters) || fresh(rt.counters[i])
    ensures Grown(old(rt.Books()), rt.Books(), 0)
    ensures rt.maxTaskDepth == 0 ==> rt.Books() == LinkBehind(old(rt.Books()), source.id, target.id, true)
  {
    hide Balanced, Settled, Then, Awaiting;
    ghost var b := rt.Books();
    ThenBalances(b, Raise(target.id), true);
    target.IncrementCount(rt);
    ghost var b1 := rt.Books();
    assert Ids([source]) == [source.id];
    AwaitingGrows(b1, [source.id], true);
    ghost var b2 := Awaiting(b1, [source.id], true);
    ThenBalances(b2, Drop(target.id), true);
    ThenBalances(b2, Attach(|b.held|, Alias(target.id)), true);
    var ran := WhenAllReadyDo(rt, [source], CallableOperation(target), rt.thisWorkerId, true);
  }

  method HandleAliasing(rt: Runtime, use: UseRecord)
    requires rt.Good() && use.FlowsIn(rt.counters) && ReleaseOk(rt.Books(), use.Abs()) && use.establishesAlias
    modifies rt, rt.counters
    ensures rt.dispatching == old(rt.dispatching)
    ensures rt.Good() && Grew(old(rt.counters), rt.counters)
    ensures forall i :: 0 <= i < |rt.counters| ==> rt.counters[i] in old(rt.counters) || fresh(rt.counters[i])
    ensures Balanced(rt.Books()) && |old(rt.held)| <= |rt.held|
    ensures forall c :: 0 <= c < |rt.held| ==> rt.held[c] == Entry(old(rt.held), c)
    ensures rt.maxTaskDepth == 0 ==> rt.Books() == UseProtocol.HandleAliasing(old(rt.Books()), use.Abs(), true)
  {
    hide Balanced, Settled, LinkBehind, Live;
    ghost var u := use.Abs();
    assert rt.held[u.outFlow.value] >= Tokens(u, u.outFlow.value) >= 1;
    HeldIsLive(rt.Books(), u.outFlow.value);
    Link(rt, use.inFlow.value.ready, use.outFlow.value.ready);
    if use.antiInFlow.Some? {
      ghost var cs := rt.counters;
      StillAntiIn(old(rt.counters), cs, use.antiInFlow);
      StillAntiIn(old(rt.counters), cs, use.antiOutFlow);
      assert old(rt.held)[u.antiInFlow.value] >= Tokens(u, u.antiInFlow.value);
      HeldIsLive(rt.Books(), u.antiInFlow.value);
      Link(rt, use.antiOutFlow.value.ready, use.antiInFlow.value.ready);
    }
  }

  method DropIfAny(rt: Runtime, counter: Option<JoinCounter>)
    requires rt.Good() && (counter.Some? ==> rt.Owns(counter.value) && rt.held[counter.value.id] > 0)
    modifies rt`ready, rt`pendingTasks, rt`dispatching, rt`held, rt.counters
    ensures rt.dispatching == old(rt.dispatching)
    ensures rt.Good() && rt.Books() == DropFlow(old(rt.Books()), IdOf(counter), true)
    ensures |rt.held| == |old(rt.held)|
    ensures forall c :: 0 <= c < |rt.held| ==> rt.held[c] + One(IdOf(counter), c) == old(rt.held)[c]
  {
    hide Balanced, Settled, Then;
    DropFlowBalances(rt.Books(), IdOf(counter), true);
    if counter.Some? {
      counter.value.LetGo(rt);
    }
  }

  ghost function IdOf(counter: Option<JoinCounter>): Option<Id> {
    if counter.Some? then Some(counter.value.id) else None
  }

  function ReadyOf(flow: Option<Flow>): Option<JoinCounter> {
    if flow.Some? then Some(flow.value.ready) else None
  }

  function AntiReadyOf(flow: Option<AntiFlow>): Option<JoinCounter> {
    if flow.Some? then Some(flow.value.ready) else None
  }

  method DropOutputs(rt: Runtime, use: UseRecord)
    requires rt.Good() && In(rt.counters, use.outFlow) && AntiIn(rt.counters, use.antiOutFlow)
    requires forall c :: 0 <= c < |rt.held| ==>
               rt.held[c] >= One(FlowId(use.outFlow), c) + One(AntiFlowId(use.antiOutFlow), c)
    modifies rt`ready, rt`pendingTasks, rt`dispatching, rt`held, rt.counters
    ensures rt.dispatching == old(rt.dispatching)
    ensures rt.Good()
    ensures rt.Books() ==
            DropFlow(DropFlow(old(rt.Books()), FlowId(use.outFlow), true), AntiFlowId(use.antiOutFlow), true)
  {
    assert |rt.held| == |rt.counters|;
    hide Balanced, Settled, DropFlow, Runtime.Valid, Runtime.Abs, Runtime.Good;
    ghost var anti := AntiFlowId(use.antiOutFlow);
    assert anti.Some? ==> rt.held[anti.value] >= One(FlowId(use.outFlow), anti.value) + 1;
    DropIfAny(rt, ReadyOf(use.outFlow));
    assert anti.Some? ==> rt.held[anti.value] > 0;
    DropIfAny(rt, AntiReadyOf(use.antiOutFlow));
  }

  method DropFlows(rt: Runtime, use: UseRecord)
    requires rt.Good() && use.FlowsIn(rt.counters)
    requires forall c :: 0 <= c < |rt.held| ==> rt.held[c] >= Tokens(use.Abs(), c)
    modifies rt`ready, rt`pendingTasks, rt`dispatching, rt`held, rt.counters
    ensures rt.dispatching == old(rt.dispatching)
    ensures rt.Good() && |rt.held| == |old(rt.held)|
    ensures forall c :: 0 <= c < |rt.held| ==> rt.held[c] + Tokens(use.Abs(), c) == old(rt.held)[c]
    ensures rt.Books() == DropAll(old(rt.Books()), use.Abs(), true)
  {
    assert |rt.held| == |rt.counters|;
    ghost var b, u := rt.Books(), use.Abs();
    DropAllBalances(b, u, true);
    assert forall c :: Tokens(u, c) == One(AntiInToken(u), c) + One(u.outFlow, c) + One(u.antiOutFlow, c);
    hide Balanced, Settled, DropFlow, Runtime.Valid, Runtime.Abs, Runtime.Good, Tokens;
    assert AntiInToken(u).Some? ==> b.held[AntiInToken(u).value] >= Tokens(u, AntiInToken(u).value) > 0;
    DropIfAny(rt, if use.isAntiDependency then None else AntiReadyOf(use.antiInFlow));
    DropOutputs(rt, use);
  }

  method ReleaseUse(rt: Runtime, use: UseRecord)
    requires rt.Good() && use.FlowsIn(rt.counters) && ReleaseOk(rt.Books(), use.Abs())
    modifies rt, rt.counters
    ensures rt.dispatching == old(rt.dispatching)
    ensures rt.Good() && |old(rt.held)| <= |rt.held|
    ensures forall c :: 0 <= c < |rt.held| ==> rt.held[c] + Tokens(use.Abs(), c) == Entry(old(rt.held), c)
    ensures rt.maxTaskDepth == 0 ==> rt.Books() == Release(old(rt.Books()), use.Abs(), true)
  {
    hide Balanced, Settled, UseProtocol.HandleAliasing, DropAll, Tokens;
    if use.establishesAlias {
      HandleAliasing(rt, use);
      ghost var cs := rt.counters;
      StillIn(old(rt.counters), cs, use.inFlow);
      StillIn(old(rt.counters), cs, use.outFlow);
      StillAntiIn(old(rt.counters), cs, use.antiInFlow);
      StillAntiIn(old(rt.counters), cs, use.antiOutFlow);
      forall c | 0 <= c < |rt.held| ensures rt.held[c] >= Tokens(use.Abs(), c) {
        TokensInRange(old(rt.Books()), use.Abs(), c);
      }
    }
    DropFlows(rt, use);
  }

  lemma TokensInRange(b: Books, u: Use, c: Id)
    requires InRange(b, u.antiInFlow) && InRange(b, u.outFlow) && InRange(b, u.antiOutFlow)
    ensures c >= |b.held| ==> Tokens(u, c) == 0
  {
  }
}
