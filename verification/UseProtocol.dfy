/**
  What registering and releasing a use does to the counter network.

  A use is a claim of a task (or of the code that will create later tasks) on one
  version of one datum.  It has up to four flows: it reads from its in-flow once that
  is ready, it makes its out-flow ready when it is released, it may only overwrite the
  datum once its anti-in-flow is ready, and it makes its anti-out-flow ready when it is
  released.  Registration works the four out from relationships to flows of other uses.

  These functions say what registration and release do to a CounterNet state, one
  counter operation at a time.  With `now` set, every cascade runs to its end before the
  next operation, as in a single thread; otherwise it is left in flight, for any
  interleaving with other threads.
  */
module UseProtocol {
  import opened Cascades
  import opened CounterNet
  import opened Options

  /** The network, and a ledger of what clients hold on each counter. */
  datatype Books = Books(state: State, held: seq<nat>)

  /** Conservation of obligations: each count is what clients hold, plus the decrements
      still attached to other counters, plus those in flight. */
  ghost predicate Balanced(b: Books) {
    && Safe(b.state) && |b.held| == |b.state.net|
    && forall c :: 0 <= c < |b.held| ==> Held(b.state, c) == b.held[c]
  }

  /** Something is still owed to the counter, so it has not triggered. */
  predicate Live(b: Books, c: Id) {
    c < |b.state.net| && b.state.net[c].count > 0
  }

  predicate Permitted(b: Books, op: Op) {
    match op
    case Create(k) => k > 0
    case Raise(c) => c < |b.held| && Live(b, c)
    case Drop(c) => c < |b.held| && b.held[c] > 0
    case Attach(c, a) => c < |b.held| && (!a.Launch? ==> a.target < |b.held| && b.held[a.target] > 0)
    case Step(_) => false
  }

  function Entry(held: seq<nat>, c: Id): nat {
    if c < |held| then held[c] else 0
  }

  function Posted(held: seq<nat>, c: Id, entry: nat): seq<nat> {
    if c < |held| then held[c := entry] else held
  }

  function HeldAfter(b: Books, op: Op): seq<nat> {
    match op
    case Create(k) => b.held + [k]
    case Raise(c) => Posted(b.held, c, Entry(b.held, c) + 1)
    case Drop(c) => Posted(b.held, c, if Entry(b.held, c) > 0 then Entry(b.held, c) - 1 else 0)
    case Attach(_, a) =>
      if a.Launch? then b.held
      else Posted(b.held, a.target, if Entry(b.held, a.target) > 0 then Entry(b.held, a.target) - 1 else 0)
    case Step(_) => b.held
  }

  ghost function Then(b: Books, op: Op, now: bool): Books {
    var s := Perform(b.state, op);
    Books(if now && Safe(s) then Settle(s, false) else s, HeldAfter(b, op))
  }

  /** What the operation adds to the ledger entry of a counter, and what it takes away. */
  function Taken(op: Op, c: Id, n: nat): nat {
    match op
    case Create(k) => if c == n then k else 0
    case Raise(d) => if c == d then 1 else 0
    case _ => 0
  }

  function Given(op: Op, c: Id): nat {
    match op
    case Drop(d) => if c == d then 1 else 0
    case Attach(_, a) => if Aims(a, c) then 1 else 0
    case _ => 0
  }

  lemma ThenBalances(b: Books, op: Op, now: bool)
    requires Balanced(b) && Permitted(b, op)
    ensures var t := Then(b, op, now);
      && Balanced(t) && |t.held| == |b.held| + (if op.Create? then 1 else 0)
      && (forall c :: 0 <= c < |t.held| ==> t.held[c] + Given(op, c) == Entry(b.held, c) + Taken(op, c, |b.held|))
      && (now ==> Settled(t.state, false))
  {
    OpBalances(b, op);
  }

  lemma OpBalances(b: Books, op: Op)
    requires Balanced(b) && Permitted(b, op)
    ensures Allowed(b.state, op) && Balanced(Books(Perform(b.state, op), HeldAfter(b, op)))
  {
    hide Held, Safe;
    match op
    case Create(k) => CreateConserves(b.state, k);
    case Raise(c) => RaiseConserves(b.state, c);
    case Drop(c) => DropConserves(b.state, c);
    case Attach(c, a) => AttachConserves(b.state, c, a);
  }

  /** While somebody holds a counter, raising it fails no assertion. */
  lemma HeldIsLive(b: Books, c: Id)
    requires Balanced(b) && c < |b.held| && b.held[c] > 0
    ensures Live(b, c) && !b.state.net[c].triggered
  {
    OwedMeansNotTriggered(b.state, c);
  }

  // ---------------------------------------------------------------- new flows

  /** A flow with its whole count held by the caller. */
  ghost function Fresh(b: Books, now: bool): Books {
    Then(b, Create(1), now)
  }

  /** A flow that becomes ready together with `source`. */
  ghost function FreshAfter(b: Books, source: Id, now: bool): Books {
    Then(Fresh(b, now), Attach(source, Decrement(|b.held|)), now)
  }

  /** A flow that is ready at once. */
  ghost function FreshReady(b: Books, now: bool): Books {
    Then(Fresh(b, now), Drop(|b.held|), now)
  }

  /** A flow that must be ready before `whole` can be. */
  ghost function FreshPartOf(b: Books, whole: Id, now: bool): Books {
    Then(Fresh(Then(b, Raise(whole), now), now), Attach(|b.held|, Decrement(whole)), now)
  }

  /** `t` has one more flow than `b`, held `k` times, and the same holdings otherwise. */
  ghost predicate Grown(b: Books, t: Books, k: nat) {
    && Balanced(t) && |t.held| == |b.held| + 1 && t.held[|b.held|] == k
    && forall c :: 0 <= c < |b.held| ==> t.held[c] == b.held[c]
  }

  lemma FreshGrows(b: Books, now: bool)
    requires Balanced(b)
    ensures Grown(b, Fresh(b, now), 1)
  {
    hide Balanced, Then;
    ThenBalances(b, Create(1), now);
  }

  lemma FreshAfterGrows(b: Books, source: Id, now: bool)
    requires Balanced(b) && source < |b.held|
    ensures Grown(b, FreshAfter(b, source, now), 0)
  {
    hide Balanced, Then, Fresh;
    FreshGrows(b, now);
    ThenBalances(Fresh(b, now), Attach(source, Decrement(|b.held|)), now);
  }

  lemma FreshReadyGrows(b: Books, now: bool)
    requires Balanced(b)
    ensures Grown(b, FreshReady(b, now), 0)
  {
    hide Balanced, Then, Fresh;
    FreshGrows(b, now);
    ThenBalances(Fresh(b, now), Drop(|b.held|), now);
  }

  lemma FreshPartOfGrows(b: Books, whole: Id, now: bool)
    requires Balanced(b) && whole < |b.held| && Live(b, whole)
    ensures Grown(b, FreshPartOf(b, whole, now), 1)
  {
    hide Balanced, Then, Fresh;
    var raised := Then(b, Raise(whole), now);
    ThenBalances(b, Raise(whole), now);
    FreshGrows(raised, now);
    ThenBalances(Fresh(raised, now), Attach(|b.held|, Decrement(whole)), now);
  }

  // ---------------------------------------------------------------- registration

  /** A fetch names the publication it reads by the counter that triggers when the data is
      there, of type `C`. */
  datatype Kind<+C> =
    Insignificant | Same | Next | Initial | IndexedLocal | IndexedFetching(published: C) | Forwarding | Null

  /** Relationships refer to flows through pointers.  There may be no pointer at all; and what
      there is may point to a null flow, which stands for an insignificant one. */
  datatype Pointer<+T> = Nowhere | To(flow: Option<T>)

  /** `related` leads to the related flow (anti-flow for the two anti relationships).
      `inAsRelated` replaces it by the in-flow (anti-in-flow) of this use. */
  datatype Relationship = Relationship(kind: Kind<Id>, related: Pointer<Id>, inAsRelated: bool) {
    function Named(): Option<Id> {
      if related.To? then related.flow else None
    }
  }

  datatype Request = Request(
    inRel: Relationship, antiInRel: Relationship, outRel: Relationship, antiOutRel: Relationship,
    antiDependency: bool, aliases: bool)

  datatype Use = Use(
    inFlow: Option<Id>, antiInFlow: Option<Id>, outFlow: Option<Id>, antiOutFlow: Option<Id>,
    antiDependency: bool, aliases: bool)

  /** The books after one part of a registration, and the flow it arrived at. */
  datatype Part = Part(books: Books, flow: Option<Id>)

  predicate InRange(b: Books, flow: Option<Id>) {
    flow.Some? ==> flow.value < |b.held|
  }

  predicate Known(b: Books, flow: Option<Id>) {
    flow.Some? && flow.value < |b.held|
  }

  predicate KnownLive(b: Books, flow: Option<Id>) {
    Known(b, flow) && Live(b, flow.value)
  }

  /** Whether this flow is that counter, as a number. */
  function One(flow: Option<Id>, c: Id): nat {
    if flow == Some(c) then 1 else 0
  }

  function Target(flow: Option<Id>): Id {
    if flow.Some? then flow.value else 0
  }

  /** The assertions on the in-flow relationship, and what dereferencing its pointer needs. */
  predicate InOk(b: Books, rel: Relationship) {
    match rel.kind
    case Insignificant => true
    case Same | Forwarding => rel.related.To? && InRange(b, rel.Named())
    case Next | IndexedLocal => Known(b, rel.Named())
    case IndexedFetching(published) => Known(b, rel.Named()) && published < |b.held|
    case Initial => rel.related == Nowhere
    case Null => false
  }

  ghost function RegisterIn(b: Books, rel: Relationship, now: bool): Part {
    match rel.kind
    case Insignificant | Null => Part(b, None)
    case Same | Forwarding => Part(b, rel.Named())
    case Next | IndexedLocal => Part(FreshAfter(b, Target(rel.Named()), now), Some(|b.held|))
    case IndexedFetching(published) => Part(FreshAfter(b, published, now), Some(|b.held|))
    case Initial => Part(FreshReady(b, now), Some(|b.held|))
  }

  predicate AntiInOk(b: Books, rel: Relationship, antiDependency: bool) {
    match rel.kind
    case Insignificant => true
    case Same =>
      && rel.related.To? && InRange(b, rel.Named())
      && (rel.Named().Some? && !antiDependency ==> Live(b, rel.Named().value))
    case Next => rel.related.To? && !antiDependency
    case Forwarding => rel.Named().Some? && antiDependency
    case IndexedLocal => rel.related.To? && InRange(b, rel.Named()) && antiDependency
    case Initial | Null | IndexedFetching(_) => false
  }

  ghost function RegisterAntiIn(b: Books, rel: Relationship, antiDependency: bool, now: bool): Part {
    match rel.kind
    case Insignificant | Initial | Null | IndexedFetching(_) => Part(b, None)
    case Same =>
      Part(if rel.Named().Some? && !antiDependency then Then(b, Raise(rel.Named().value), now) else b, rel.Named())
    case Next => Part(Fresh(b, now), Some(|b.held|))
    case Forwarding => Part(FreshReady(b, now), Some(|b.held|))
    case IndexedLocal =>
      if rel.Named().Some? then Part(FreshAfter(b, rel.Named().value, now), Some(|b.held|)) else Part(b, None)
  }

  function Related(rel: Relationship, own: Option<Id>): Option<Id> {
    if rel.inAsRelated then own else rel.Named()
  }

  predicate OutOk(b: Books, rel: Relationship, inFlow: Option<Id>) {
    && (rel.inAsRelated ==> inFlow.Some?)
    && match rel.kind
       case Insignificant => true
       case Same | IndexedLocal => KnownLive(b, Related(rel, inFlow))
       case Next => Known(b, Related(rel, inFlow))
       case Null => inFlow.Some?
       case Initial | Forwarding | IndexedFetching(_) => false
  }

  ghost function RegisterOut(b: Books, rel: Relationship, inFlow: Option<Id>, now: bool): Part {
    match rel.kind
    case Insignificant | Initial | Forwarding | IndexedFetching(_) => Part(b, None)
    case Same => Part(Then(b, Raise(Target(Related(rel, inFlow))), now), Related(rel, inFlow))
    case Next | Null => Part(Fresh(b, now), Some(|b.held|))
    case IndexedLocal => Part(FreshPartOf(b, Target(Related(rel, inFlow)), now), Some(|b.held|))
  }

  /** For `Same` the source asserts on the pointer of the relationship itself, even where the
      anti-in-flow takes its place. */
  predicate AntiOutOk(b: Books, rel: Relationship, antiInFlow: Option<Id>) {
    match rel.kind
    case Insignificant | Initial => true
    case Same => rel.related.To? && KnownLive(b, Related(rel, antiInFlow))
    case IndexedLocal => KnownLive(b, Related(rel, antiInFlow))
    case Next => Known(b, Related(rel, antiInFlow))
    case Forwarding | Null | IndexedFetching(_) => false
  }

  ghost function RegisterAntiOut(b: Books, rel: Relationship, antiInFlow: Option<Id>, now: bool): Part {
    match rel.kind
    case Insignificant | Forwarding | Null | IndexedFetching(_) => Part(b, None)
    case Same => Part(Then(b, Raise(Target(Related(rel, antiInFlow))), now), Related(rel, antiInFlow))
    case Initial | Next => Part(Fresh(b, now), Some(|b.held|))
    case IndexedLocal => Part(FreshPartOf(b, Target(Related(rel, antiInFlow)), now), Some(|b.held|))
  }

  /** The part extends the books, and takes hold of its flow `times` (0 or 1) more. */
  ghost predicate Takes(b: Books, p: Part, times: nat) {
    && Balanced(p.books) && |b.held| <= |p.books.held| && InRange(p.books, p.flow)
    && forall c :: 0 <= c < |p.books.held| ==> p.books.held[c] == Entry(b.held, c) + times * One(p.flow, c)
  }

  /** The part arrives at a flow (or at none) that was there before, and makes no other. */
  predicate ArrivesAt(b: Books, p: Part, flow: Option<Id>) {
    p.flow == flow && |p.books.held| == |b.held|
  }

  /** The part arrives at a flow of its own. */
  predicate ArrivesAtOwn(b: Books, p: Part) {
    p.flow == Some(|b.held|) && |p.books.held| == |b.held| + 1
  }

  lemma InTakesNothing(b: Books, rel: Relationship, now: bool)
    requires Balanced(b) && InOk(b, rel)
    ensures Takes(b, RegisterIn(b, rel, now), 0)
    ensures rel.kind == Same || rel.kind == Forwarding ==> ArrivesAt(b, RegisterIn(b, rel, now), rel.Named())
    ensures rel.kind !in {Insignificant, Same, Forwarding} ==> ArrivesAtOwn(b, RegisterIn(b, rel, now))
  {
    hide Balanced, FreshAfter, FreshReady;
    match rel.kind
    case Next | IndexedLocal => FreshAfterGrows(b, rel.Named().value, now);
    case IndexedFetching(published) => FreshAfterGrows(b, published, now);
    case Initial => FreshReadyGrows(b, now);
    case _ =>
  }

  lemma AntiInTakesUnlessAntiDependency(b: Books, rel: Relationship, antiDependency: bool, now: bool)
    requires Balanced(b) && AntiInOk(b, rel, antiDependency)
    ensures Takes(b, RegisterAntiIn(b, rel, antiDependency, now), if antiDependency then 0 else 1)
    ensures rel.kind == Same ==> ArrivesAt(b, RegisterAntiIn(b, rel, antiDependency, now), rel.Named())
    ensures rel.kind == Next || rel.kind == Forwarding || (rel.kind == IndexedLocal && rel.Named().Some?) ==>
              ArrivesAtOwn(b, RegisterAntiIn(b, rel, antiDependency, now))
  {
    hide Balanced, Then, Fresh, FreshAfter, FreshReady;
    match rel.kind
    case Same =>
      if rel.Named().Some? && !antiDependency {
        ThenBalances(b, Raise(rel.Named().value), now);
      }
    case Next => FreshGrows(b, now);
    case Forwarding => FreshReadyGrows(b, now);
    case IndexedLocal =>
      if rel.Named().Some? {
        FreshAfterGrows(b, rel.Named().value, now);
      }
    case _ =>
  }

  lemma OutTakesOne(b: Books, rel: Relationship, inFlow: Option<Id>, now: bool)
    requires Balanced(b) && OutOk(b, rel, inFlow)
    ensures Takes(b, RegisterOut(b, rel, inFlow, now), 1)
    ensures rel.kind == Same ==> ArrivesAt(b, RegisterOut(b, rel, inFlow, now), Related(rel, inFlow))
    ensures rel.kind !in {Insignificant, Same} ==> ArrivesAtOwn(b, RegisterOut(b, rel, inFlow, now))
  {
    hide Balanced, Then, Fresh, FreshPartOf;
    match rel.kind
    case Same => ThenBalances(b, Raise(Related(rel, inFlow).value), now);
    case Next | Null => FreshGrows(b, now);
    case IndexedLocal => FreshPartOfGrows(b, Related(rel, inFlow).value, now);
    case _ =>
  }

  lemma AntiOutTakesOne(b: Books, rel: Relationship, antiInFlow: Option<Id>, now: bool)
    requires Balanced(b) && AntiOutOk(b, rel, antiInFlow)
    ensures Takes(b, RegisterAntiOut(b, rel, antiInFlow, now), 1)
    ensures rel.kind == Same ==> ArrivesAt(b, RegisterAntiOut(b, rel, antiInFlow, now), Related(rel, antiInFlow))
    ensures rel.kind !in {Insignificant, Same} ==> ArrivesAtOwn(b, RegisterAntiOut(b, rel, antiInFlow, now))
  {
    hide Balanced, Then, Fresh, FreshPartOf;
    match rel.kind
    case Same => ThenBalances(b, Raise(Related(rel, antiInFlow).value), now);
    case Initial | Next => FreshGrows(b, now);
    case IndexedLocal => FreshPartOfGrows(b, Related(rel, antiInFlow).value, now);
    case _ =>
  }

  /** The books after each part of a registration, and the use it produces. */
  datatype Stages = Stages(inPart: Part, antiInPart: Part, outPart: Part, antiOutPart: Part)

  ghost function Register(b: Books, r: Request, now: bool): Stages {
    var p1 := RegisterIn(b, r.inRel, now);
    var p2 := RegisterAntiIn(p1.books, r.antiInRel, r.antiDependency, now);
    var p3 := RegisterOut(p2.books, r.outRel, p1.flow, now);
    var p4 := RegisterAntiOut(p3.books, r.antiOutRel, p2.flow, now);
    Stages(p1, p2, p3, p4)
  }

  function Registered(r: Request, p: Stages): Use {
    Use(p.inPart.flow, p.antiInPart.flow, p.outPart.flow, p.antiOutPart.flow, r.antiDependency, r.aliases)
  }

  /** No assertion of register_use fails on this request. */
  ghost predicate Acceptable(b: Books, r: Request, now: bool) {
    var p := Register(b, r, now);
    && InOk(b, r.inRel)
    && AntiInOk(p.inPart.books, r.antiInRel, r.antiDependency)
    && OutOk(p.antiInPart.books, r.outRel, p.inPart.flow)
    && AntiOutOk(p.outPart.books, r.antiOutRel, p.antiInPart.flow)
  }

  /** The obligations on `c` a registered use is answerable for until it is released. */
  function Tokens(u: Use, c: Id): nat {
    (if u.antiDependency then 0 else One(u.antiInFlow, c)) + One(u.outFlow, c) + One(u.antiOutFlow, c)
  }

  /** Registration keeps the books balanced, and takes exactly the obligations the use is
      answerable for. */
  lemma RegisterConserves(b: Books, r: Request, now: bool)
    requires Balanced(b) && Acceptable(b, r, now)
    ensures var t := Register(b, r, now).antiOutPart.books;
      && Balanced(t) && |b.held| <= |t.held|
      && (forall c :: 0 <= c < |t.held| ==>
            t.held[c] == Entry(b.held, c) + Tokens(Registered(r, Register(b, r, now)), c))
  {
    hide Balanced, RegisterIn, RegisterAntiIn, RegisterOut, RegisterAntiOut, InOk, AntiInOk, OutOk, AntiOutOk;
    var p := Register(b, r, now);
    InTakesNothing(b, r.inRel, now);
    AntiInTakesUnlessAntiDependency(p.inPart.books, r.antiInRel, r.antiDependency, now);
    OutTakesOne(p.antiInPart.books, r.outRel, p.inPart.flow, now);
    AntiOutTakesOne(p.outPart.books, r.antiOutRel, p.antiInPart.flow, now);
  }

  // ---------------------------------------------------------------- which requests are safe

  predicate HeldBySomeone(b: Books, flow: Option<Id>) {
    Known(b, flow) && b.held[flow.value] > 0
  }

  /** The in-flow part leaves the use with a flow. */
  predicate GivesInFlow(r: Request) {
    r.inRel.kind in {Same, Forwarding} ==> r.inRel.Named().Some?
  }

  predicate AntiInHeld(b: Books, rel: Relationship, antiDependency: bool) {
    match rel.kind
    case Same =>
      && rel.related.To? && InRange(b, rel.Named())
      && (rel.Named().Some? && !antiDependency ==> HeldBySomeone(b, rel.Named()))
    case _ => AntiInOk(b, rel, antiDependency)
  }

  predicate OutHeld(b: Books, r: Request) {
    && (r.outRel.inAsRelated || r.outRel.kind == Null ==> r.inRel.kind != Insignificant && GivesInFlow(r))
    && match r.outRel.kind
       case Insignificant | Null => true
       case Same | IndexedLocal =>
         (r.outRel.inAsRelated ==> r.inRel.kind in {Same, Forwarding}) &&
         HeldBySomeone(b, if r.outRel.inAsRelated then r.inRel.Named() else r.outRel.Named())
       case Next => r.outRel.inAsRelated || Known(b, r.outRel.Named())
       case _ => false
  }

  predicate AntiOutHeld(b: Books, r: Request) {
    match r.antiOutRel.kind
    case Insignificant | Initial => true
    case Same | IndexedLocal =>
      if !r.antiOutRel.inAsRelated then HeldBySomeone(b, r.antiOutRel.Named())
      else r.antiInRel.kind == Next || (r.antiInRel.kind == Same && HeldBySomeone(b, r.antiInRel.Named()))
    case Next =>
      if !r.antiOutRel.inAsRelated then Known(b, r.antiOutRel.Named())
      else
        r.antiInRel.kind == Next || (r.antiInRel.kind in {Same, Forwarding, IndexedLocal} && r.antiInRel.Named().Some?)
    case _ => false
  }

  /** What a client can check before registering: the relationships are of the kinds the
      backend implements, and every flow that would be raised is one somebody holds, or the
      use's own. */
  predicate RaisesOnlyHeldFlows(b: Books, r: Request) {
    && InOk(b, r.inRel) && AntiInHeld(b, r.antiInRel, r.antiDependency) && OutHeld(b, r) && AntiOutHeld(b, r)
  }

  /** Clients that name flows only while someone holds them make register_use fail one
      assertion at most: the one on the pointer of an anti-out relationship `Same`.  It fails
      exactly when there is no pointer, needed or not. */
  lemma HeldFlowsAreAccepted(b: Books, r: Request, now: bool)
    requires Balanced(b) && RaisesOnlyHeldFlows(b, r)
    ensures Acceptable(b, r, now) <==> (r.antiOutRel.kind == Same ==> r.antiOutRel.related.To?)
  {
    hide Balanced, RegisterIn, RegisterAntiIn, RegisterOut, RegisterAntiOut, Live, InOk, ArrivesAt, ArrivesAtOwn;
    var p := Register(b, r, now);
    InTakesNothing(b, r.inRel, now);
    NamedFlows(b, r, now);
    LiveWhenHeld(p.inPart.books, r.antiInRel.Named());
    AntiInTakesUnlessAntiDependency(p.inPart.books, r.antiInRel, r.antiDependency, now);
    LiveWhenHeld(p.antiInPart.books, Related(r.outRel, p.inPart.flow));
    OutTakesOne(p.antiInPart.books, r.outRel, p.inPart.flow, now);
    LiveWhenHeld(p.outPart.books, Related(r.antiOutRel, p.antiInPart.flow));
  }

  lemma NamedFlows(b: Books, r: Request, now: bool)
    requires InOk(b, r.inRel)
    ensures var p := Register(b, r, now);
      && (r.inRel.kind in {Same, Forwarding} ==> p.inPart.flow == r.inRel.Named())
      && (r.inRel.kind !in {Same, Forwarding, Insignificant} ==> p.inPart.flow.Some?)
      && (r.antiInRel.kind == Same ==> p.antiInPart.flow == r.antiInRel.Named())
      && (r.antiInRel.kind in {Next, Forwarding} ==> p.antiInPart.flow.Some?)
      && (r.antiInRel.kind == IndexedLocal && r.antiInRel.Named().Some? ==> p.antiInPart.flow.Some?)
  {
  }

  /** A use that reads the version its continuation holds, and says that its anti-out-flow is
      its own anti-in-flow without pointing to any: all it raises is held, and still it is
      refused. */
  lemma OwnAntiInWithoutPointerIsRefused() returns (b: Books, r: Request)
    ensures Balanced(b) && RaisesOnlyHeldFlows(b, r) && forall now :: !Acceptable(b, r, now)
  {
    var empty := Books(State([], multiset{}), []);
    b := Fresh(empty, false);
    FreshGrows(empty, false);
    var nothing := Relationship(Insignificant, Nowhere, false);
    var antiIn, antiOut := Relationship(Same, To(Some(0)), false), Relationship(Same, Nowhere, true);
    r := Request(nothing, antiIn, nothing, antiOut, false, false);
    forall now ensures !Acceptable(b, r, now) {
      HeldFlowsAreAccepted(b, r, now);
    }
  }

  lemma LiveWhenHeld(b: Books, flow: Option<Id>)
    requires Balanced(b)
    ensures HeldBySomeone(b, flow) ==> Live(b, flow.value)
  {
    if HeldBySomeone(b, flow) {
      HeldIsLive(b, flow.value);
    }
  }

  // ---------------------------------------------------------------- operations that wait

  /** Add the triggers one by one to what the operation behind `ready` waits for. */
  ghost function DependOn(b: Books, ready: Id, triggers: seq<Id>, now: bool): Books
    decreases |triggers|
  {
    if triggers == [] then b
    else
      var raised := Then(b, Raise(ready), now);
      DependOn(Then(raised, Attach(triggers[0], Decrement(ready)), now), ready, triggers[1..], now)
  }

  /** The counter of a pending operation: it starts at one, is raised for each
      prerequisite, and is let go of when the last one has been added. */
  ghost function Awaiting(b: Books, triggers: seq<Id>, now: bool): Books {
    Then(DependOn(Fresh(b, now), |b.held|, triggers, now), Drop(|b.held|), now)
  }

  /** Run `action` once all of `triggers` have triggered. */
  ghost function WhenAllReady(b: Books, triggers: seq<Id>, action: Action, now: bool): Books {
    Then(Awaiting(b, triggers, now), Attach(|b.held|, action), now)
  }

  predicate AllKnown(b: Books, triggers: seq<Id>) {
    forall d :: d in triggers ==> d < |b.held|
  }

  lemma {:induction false} DependOnBalances(b: Books, ready: Id, triggers: seq<Id>, now: bool)
    requires Balanced(b) && ready < |b.held| && b.held[ready] > 0 && AllKnown(b, triggers)
    ensures var t := DependOn(b, ready, triggers, now); Balanced(t) && t.held == b.held
    decreases |triggers|
  {
    hide Balanced, Then;
    if triggers != [] {
      HeldIsLive(b, ready);
      var raised := Then(b, Raise(ready), now);
      ThenBalances(b, Raise(ready), now);
      assert triggers[0] in triggers;
      var next := Then(raised, Attach(triggers[0], Decrement(ready)), now);
      ThenBalances(raised, Attach(triggers[0], Decrement(ready)), now);
      forall c | 0 <= c < |b.held| ensures next.held[c] == b.held[c] {
        assert raised.held[c] == b.held[c] + if c == ready then 1 else 0;
      }
      assert next.held == b.held;
      forall d | d in triggers[1..] ensures d < |next.held| {
        assert d in triggers;
      }
      DependOnBalances(next, ready, triggers[1..], now);
    }
  }

  lemma AwaitingGrows(b: Books, triggers: seq<Id>, now: bool)
    requires Balanced(b) && AllKnown(b, triggers)
    ensures Grown(b, Awaiting(b, triggers, now), 0)
  {
    hide Balanced, Then, Fresh, DependOn;
    FreshGrows(b, now);
    var made := Fresh(b, now);
    assert AllKnown(made, triggers);
    DependOnBalances(made, |b.held|, triggers, now);
    ThenBalances(DependOn(made, |b.held|, triggers, now), Drop(|b.held|), now);
  }

  /** The pending operation takes over what the caller held for the action, and in the
      end nobody holds its counter: it triggers as soon as its prerequisites have. */
  lemma WhenAllReadyBalances(b: Books, triggers: seq<Id>, action: Action, now: bool)
    requires Balanced(b) && AllKnown(b, triggers)
    requires !action.Launch? ==> action.target < |b.held| && b.held[action.target] > 0
    ensures var t := WhenAllReady(b, triggers, action, now);
      && Balanced(t) && |t.held| == |b.held| + 1 && t.held[|b.held|] == 0
      && (forall c :: 0 <= c < |b.held| ==> t.held[c] + (if Aims(action, c) then 1 else 0) == b.held[c])
  {
    hide Balanced, Then, Awaiting;
    AwaitingGrows(b, triggers, now);
    ThenBalances(Awaiting(b, triggers, now), Attach(|b.held|, action), now);
  }

  // ---------------------------------------------------------------- release

  /** Raise `target`, and lower it again by way of a work queue once `source` is ready. */
  ghost function LinkBehind(b: Books, source: Id, target: Id, now: bool): Books {
    WhenAllReady(Then(b, Raise(target), now), [source], Alias(target), now)
  }

  lemma LinkBehindBalances(b: Books, source: Id, target: Id, now: bool)
    requires Balanced(b) && source < |b.held| && target < |b.held| && Live(b, target)
    ensures Grown(b, LinkBehind(b, source, target, now), 0)
  {
    hide Balanced, Then, WhenAllReady;
    ThenBalances(b, Raise(target), now);
    WhenAllReadyBalances(Then(b, Raise(target), now), [source], Alias(target), now);
  }

  predicate ReleaseOk(b: Books, u: Use) {
    && InRange(b, u.inFlow) && InRange(b, u.antiInFlow) && InRange(b, u.outFlow) && InRange(b, u.antiOutFlow)
    && (forall c :: 0 <= c < |b.held| ==> b.held[c] >= Tokens(u, c))
    && (u.aliases ==>
          && u.inFlow.Some? && u.outFlow.Some?
          && (u.antiInFlow.Some? ==> u.antiOutFlow.Some? && (u.antiDependency ==> b.held[u.antiInFlow.value] > 0)))
  }

  ghost function HandleAliasing(b: Books, u: Use, now: bool): Books {
    var linked := LinkBehind(b, Target(u.inFlow), Target(u.outFlow), now);
    if u.antiInFlow.Some? then LinkBehind(linked, Target(u.antiOutFlow), Target(u.antiInFlow), now) else linked
  }

  lemma HandleAliasingBalances(b: Books, u: Use, now: bool)
    requires Balanced(b) && ReleaseOk(b, u) && u.aliases
    ensures var t := HandleAliasing(b, u, now);
      Balanced(t) && |b.held| <= |t.held| && forall c :: 0 <= c < |t.held| ==> t.held[c] == Entry(b.held, c)
  {
    hide Balanced, LinkBehind, Live;
    assert b.held[u.outFlow.value] >= Tokens(u, u.outFlow.value) >= 1;
    HeldIsLive(b, u.outFlow.value);
    LinkBehindBalances(b, u.inFlow.value, u.outFlow.value, now);
    if u.antiInFlow.Some? {
      var linked := LinkBehind(b, u.inFlow.value, u.outFlow.value, now);
      assert b.held[u.antiInFlow.value] >= Tokens(u, u.antiInFlow.value);
      HeldIsLive(linked, u.antiInFlow.value);
      LinkBehindBalances(linked, u.antiOutFlow.value, u.antiInFlow.value, now);
    }
  }

  ghost function DropFlow(b: Books, flow: Option<Id>, now: bool): Books {
    if flow.Some? then Then(b, Drop(flow.value), now) else b
  }

  lemma DropFlowBalances(b: Books, flow: Option<Id>, now: bool)
    requires Balanced(b) && (flow.Some? ==> HeldBySomeone(b, flow))
    ensures var t := DropFlow(b, flow, now);
      Balanced(t) && |t.held| == |b.held| && forall c :: 0 <= c < |t.held| ==> t.held[c] + One(flow, c) == b.held[c]
  {
    hide Balanced, Then;
    if flow.Some? {
      ThenBalances(b, Drop(flow.value), now);
    }
  }

  function AntiInToken(u: Use): Option<Id> {
    if u.antiDependency then None else u.antiInFlow
  }

  ghost function DropAll(b: Books, u: Use, now: bool): Books {
    DropFlow(DropFlow(DropFlow(b, AntiInToken(u), now), u.outFlow, now), u.antiOutFlow, now)
  }

  ghost function Release(b: Books, u: Use, now: bool): Books {
    DropAll(if u.aliases then HandleAliasing(b, u, now) else b, u, now)
  }

  lemma DropAllBalances(b: Books, u: Use, now: bool)
    requires Balanced(b) && InRange(b, u.antiInFlow) && InRange(b, u.outFlow) && InRange(b, u.antiOutFlow)
    requires forall c :: 0 <= c < |b.held| ==> b.held[c] >= Tokens(u, c)
    ensures var t := DropAll(b, u, now);
      Balanced(t) && |t.held| == |b.held| && forall c :: 0 <= c < |t.held| ==> t.held[c] + Tokens(u, c) == b.held[c]
  {
    hide Balanced, DropFlow;
    DropFlowBalances(b, AntiInToken(u), now);
    var b2 := DropFlow(b, AntiInToken(u), now);
    DropFlowBalances(b2, u.outFlow, now);
    DropFlowBalances(DropFlow(b2, u.outFlow, now), u.antiOutFlow, now);
  }

  /** Release gives back exactly the obligations that registration took. */
  lemma ReleaseConserves(b: Books, u: Use, now: bool)
    requires Balanced(b) && ReleaseOk(b, u)
    ensures var t := Release(b, u, now);
      && Balanced(t) && |b.held| <= |t.held|
      && (forall c :: 0 <= c < |t.held| ==> t.held[c] + Tokens(u, c) == Entry(b.held, c))
  {
    hide Balanced, HandleAliasing, DropAll;
    if u.aliases {
      HandleAliasingBalances(b, u, now);
    }
    DropAllBalances(if u.aliases then HandleAliasing(b, u, now) else b, u, now);
  }

  /** Registering a use and releasing it again leaves every holding as it was: nothing is
      leaked and nothing is given back twice. */
  lemma ReleaseUndoesRegister(b: Books, r: Request, now: bool)
    requires Balanced(b) && Acceptable(b, r, now)
    requires r.aliases ==>
               var u := Registered(r, Register(b, r, now));
               u.inFlow.Some? && u.outFlow.Some? && (u.antiInFlow.Some? ==> u.antiOutFlow.Some? && !u.antiDependency)
    ensures var u, after := Registered(r, Register(b, r, now)), Register(b, r, now).antiOutPart.books;
      && ReleaseOk(after, u)
      && Balanced(Release(after, u, now))
      && (forall c :: 0 <= c < |Release(after, u, now).held| ==> Release(after, u, now).held[c] == Entry(b.held, c))
  {
    hide Balanced, Release, RegisterIn, RegisterAntiIn, RegisterOut, RegisterAntiOut;
    RegisterConserves(b, r, now);
    RegisterInRange(b, r, now);
    ReleaseConserves(Register(b, r, now).antiOutPart.books, Registered(r, Register(b, r, now)), now);
  }

  lemma RegisterInRange(b: Books, r: Request, now: bool)
    requires Balanced(b) && Acceptable(b, r, now)
    ensures var u, t := Registered(r, Register(b, r, now)), Register(b, r, now).antiOutPart.books;
      InRange(t, u.inFlow) && InRange(t, u.antiInFlow) && InRange(t, u.outFlow) && InRange(t, u.antiOutFlow)
  {
    hide Balanced, RegisterIn, RegisterAntiIn, RegisterOut, RegisterAntiOut, InOk, AntiInOk, OutOk, AntiOutOk;
    var p := Register(b, r, now);
    InTakesNothing(b, r.inRel, now);
    AntiInTakesUnlessAntiDependency(p.inPart.books, r.antiInRel, r.antiDependency, now);
    OutTakesOne(p.antiInPart.books, r.outRel, p.inPart.flow, now);
    AntiOutTakesOne(p.outPart.books, r.antiOutRel, p.antiInPart.flow, now);
  }
}
