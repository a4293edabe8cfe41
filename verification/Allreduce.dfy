/**
  Reductions: an allreduce whose contributors arrive, and become ready, in any order; and the
  reduction of a whole collection by one loop.

  The reduction of one contribution into the buffer of the first is one atomic step.
  */
module Allreduce {

  // ---------------------------------------------------------------- operators

  type Op<!T> = (T, T) -> T

  ghost predicate Associative<T(!new)>(op: Op<T>) {
    forall x, y, z :: op(op(x, y), z) == op(x, op(y, z))
  }

  ghost predicate Commutative<T(!new)>(op: Op<T>) {
    forall x, y :: op(x, y) == op(y, x)
  }

  predicate Within(ids: seq<nat>, n: nat) {
    forall k :: 0 <= k < |ids| ==> ids[k] < n
  }

  /** The left fold of the values at `ids`. */
  function Fold<T>(op: Op<T>, values: seq<T>, ids: seq<nat>): T
    requires ids != [] && Within(ids, |values|)
  {
    var n := |ids| - 1;
    if n == 0 then values[ids[0]] else op(Fold(op, values, ids[..n]), values[ids[n]])
  }

  function Without(ids: seq<nat>, k: nat): seq<nat>
    requires k < |ids|
  {
    ids[..k] + ids[k + 1..]
  }

  /** Any contribution can be taken last. */
  lemma {:induction false} TakeLast<T(!new)>(op: Op<T>, values: seq<T>, ids: seq<nat>, k: nat)
    requires Associative(op) && Commutative(op)
    requires k < |ids| && |ids| > 1 && Within(ids, |values|)
    ensures Without(ids, k) != [] && Within(Without(ids, k), |values|)
    ensures Fold(op, values, ids) == op(Fold(op, values, Without(ids, k)), values[ids[k]])
    decreases |ids|
  {
    hide Associative, Commutative;
    var n := |ids| - 1;
    var rest := Without(ids, k);
    if k == n {
      assert rest == ids[..n];
    } else if n == 1 {
      assert rest == [ids[1]] && ids[..1] == [ids[0]];
      assert Fold(op, values, ids[..1]) == values[ids[0]];
      Flip(op, values[ids[0]], values[ids[1]]);
    } else {
      var shorter := ids[..n];
      TakeLast(op, values, shorter, k);
      assert rest[..n - 1] == Without(shorter, k);
      assert rest[n - 1] == ids[n];
      var f, x, y := Fold(op, values, Without(shorter, k)), values[ids[k]], values[ids[n]];
      assert Fold(op, values, rest) == op(f, y);
      Exchange(op, f, x, y);
    }
  }

  lemma Flip<T(!new)>(op: Op<T>, x: T, y: T)
    requires Commutative(op)
    ensures op(x, y) == op(y, x)
  {
  }

  lemma Exchange<T(!new)>(op: Op<T>, f: T, x: T, y: T)
    requires Associative(op) && Commutative(op)
    ensures op(op(f, x), y) == op(op(f, y), x)
  {
    assert op(op(f, x), y) == op(f, op(x, y)) == op(f, op(y, x)) == op(op(f, y), x);
  }

  lemma WithoutLoses(ids: seq<nat>, k: nat)
    requires k < |ids|
    ensures multiset(Without(ids, k)) == multiset(ids) - multiset{ids[k]}
  {
    assert ids == ids[..k] + [ids[k]] + ids[k + 1..];
  }

  lemma SameWithin(a: seq<nat>, b: seq<nat>, n: nat)
    requires multiset(a) == multiset(b) && Within(a, n)
    ensures |a| == |b| && Within(b, n)
  {
    assert |multiset(a)| == |a| && |multiset(b)| == |b|;
    forall k | 0 <= k < |b| ensures b[k] < n {
      assert b[k] in multiset(a);
    }
  }

  /** The fold of an associative and commutative operator does not depend on the order. */
  lemma {:induction false} OrderDoesNotMatter<T(!new)>(op: Op<T>, values: seq<T>, a: seq<nat>, b: seq<nat>)
    requires Associative(op) && Commutative(op)
    requires a != [] && multiset(a) == multiset(b) && Within(a, |values|)
    ensures b != [] && Within(b, |values|) && Fold(op, values, a) == Fold(op, values, b)
    decreases |a|
  {
    var n := |a| - 1;
    SameWithin(a, b, |values|);
    assert a[n] in multiset(b);
    var k :| 0 <= k < |b| && b[k] == a[n];
    if n == 0 {
      assert b == a;
    } else {
      TakeLast(op, values, a, n);
      TakeLast(op, values, b, k);
      WithoutLoses(a, n);
      WithoutLoses(b, k);
      assert Without(a, n) == a[..n];
      OrderDoesNotMatter(op, values, a[..n], Without(b, k));
    }
  }

  function UpTo(n: nat): seq<nat> {
    seq(n, i => i)
  }

  predicate Distinct(ids: seq<nat>) {
    forall i, j :: 0 <= i < j < |ids| ==> ids[i] != ids[j]
  }

  lemma {:induction false} DistinctCounts(ids: seq<nat>, x: nat)
    requires Distinct(ids)
    ensures multiset(ids)[x] == if x in ids then 1 else 0
  {
    if ids != [] {
      var n := |ids| - 1;
      assert ids == ids[..n] + [ids[n]];
      DistinctCounts(ids[..n], x);
    }
  }

  lemma AllOnce(ids: seq<nat>, n: nat)
    requires Distinct(ids) && (forall i: nat :: i in ids <==> i < n)
    ensures multiset(ids) == multiset(UpTo(n))
  {
    forall x: nat ensures multiset(ids)[x] == multiset(UpTo(n))[x] {
      DistinctCounts(ids, x);
      DistinctCounts(UpTo(n), x);
      assert x < n ==> UpTo(n)[x] == x;
    }
  }

  // ---------------------------------------------------------------- the collective

  /** How far the part of a contribution that belongs to its in-flow has come.  Contributors
      that are not the first wait for their own in-flow, then for the anti-in-flow of the first,
      then for its in-flow; then their value is reduced into the buffer of the first. */
  datatype Stage = WaitsForOwn | WaitsForFirstAnti | WaitsForFirst | Contributed

  /** `arrived` are the uses in the order in which they came; `ready` and `antiReady` the
      contributors whose flow (anti-flow, if they have one) has triggered.  `reduced` records
      the order of the reductions, and `completions` how often the completion ran. */
  datatype State<T> = State(
    arrived: seq<nat>, stages: map<nat, Stage>, antiCounted: set<nat>, ready: set<nat>, antiReady: set<nat>,
    count: int, buffers: seq<T>, reduced: seq<nat>, completions: nat)

  datatype Collective<!T> = Collective(op: Op<T>, values: seq<T>, hasAnti: set<nat>)

  datatype Move =
    | FlowReady(i: nat)
    | AntiFlowReady(i: nat)
    | Arrive(i: nat)
    | CountAnti(i: nat)   // its anti-in-flow has triggered, or it has none
    | Advance(i: nat)     // the next action attached on behalf of its in-flow

  function Initial<T>(c: Collective<T>): State<T> {
    State([], map[], {}, {}, {}, 2 * |c.values|, c.values, [], 0)
  }

  predicate MayOverwrite<T>(c: Collective<T>, s: State<T>, i: nat) {
    i in c.hasAnti ==> i in s.antiReady
  }

  predicate Enabled<T>(c: Collective<T>, s: State<T>, m: Move) {
    && m.i < |c.values| == |s.buffers|
    && match m
       case FlowReady(i) => i !in s.ready
       case AntiFlowReady(i) => i in c.hasAnti && i !in s.antiReady
       case Arrive(i) => i !in s.arrived
       case CountAnti(i) => i in s.arrived && i !in s.antiCounted && MayOverwrite(c, s, i)
       case Advance(i) =>
         && i in s.arrived && i in s.stages && s.arrived[0] < |s.buffers|
         && match s.stages[i]
            case WaitsForOwn => i in s.ready
            case WaitsForFirstAnti => MayOverwrite(c, s, s.arrived[0])
            case WaitsForFirst => s.arrived[0] in s.ready
            case Contributed => false
  }

  /** One decrement of the invocation's counter; the last one runs the completion, which
      copies the buffer of the first use to all others. */
  function Decremented<T>(s: State<T>): State<T>
    requires s.arrived != [] && s.arrived[0] < |s.buffers|
  {
    if s.count == 1
    then s.(count := 0, completions := s.completions + 1, buffers := seq(|s.buffers|, i requires 0 <= i < |s.buffers| =>
              if i in s.arrived then s.buffers[s.arrived[0]] else s.buffers[i]))
    else s.(count := s.count - 1)
  }

  function Apply<T>(c: Collective<T>, s: State<T>, m: Move): State<T>
    requires Enabled(c, s, m) && (s.arrived != [] ==> s.arrived[0] < |s.buffers|)
  {
    match m
    case FlowReady(i) => s.(ready := s.ready + {i})
    case AntiFlowReady(i) => s.(antiReady := s.antiReady + {i})
    case Arrive(i) => s.(arrived := s.arrived + [i], stages := s.stages[i := WaitsForOwn])
    case CountAnti(i) => Decremented(s.(antiCounted := s.antiCounted + {i}))
    case Advance(i) =>
      var first := s.arrived[0];
      if i == first then Decremented(s.(stages := s.stages[i := Contributed]))
      else
        match s.stages[i]
        case WaitsForOwn => s.(stages := s.stages[i := WaitsForFirstAnti])
        case WaitsForFirstAnti => s.(stages := s.stages[i := WaitsForFirst])
        case Contributed => s
        case WaitsForFirst =>
          Decremented(s.(stages := s.stages[i := Contributed], reduced := s.reduced + [i],
                         buffers := s.buffers[first := c.op(s.buffers[first], s.buffers[i])]))
  }

  // ---------------------------------------------------------------- the invariant

  /** Decrements a contributor has made, of the two it is good for. */
  function Counted<T>(s: State<T>, i: nat): nat {
    (if i in s.antiCounted then 1 else 0) + if i in s.stages && s.stages[i] == Contributed then 1 else 0
  }

  function CountedTo<T>(s: State<T>, n: nat): nat {
    if n == 0 then 0 else CountedTo(s, n - 1) + Counted(s, n - 1)
  }

  ghost predicate ArrivalsOk<T>(c: Collective<T>, s: State<T>) {
    && |s.buffers| == |c.values| >= 2
    && Distinct(s.arrived) && Within(s.arrived, |c.values|)
    && (forall i :: i in s.stages <==> i in s.arrived)
    && (forall i :: i in s.antiCounted ==> i in s.arrived && MayOverwrite(c, s, i))
  }

  /** Flows that must have triggered for a contribution to have come this far. */
  predicate StageOk<T>(c: Collective<T>, s: State<T>, i: nat)
    requires i in s.stages && s.arrived != []
  {
    && (s.stages[i] != WaitsForOwn ==> i in s.ready)
    && (i != s.arrived[0] && s.stages[i] in {WaitsForFirst, Contributed} ==> MayOverwrite(c, s, s.arrived[0]))
    && (i != s.arrived[0] && s.stages[i] == Contributed ==> s.arrived[0] in s.ready)
    && (i == s.arrived[0] ==> s.stages[i] in {WaitsForOwn, Contributed})
  }

  ghost predicate ReducedOk<T>(c: Collective<T>, s: State<T>)
    requires s.arrived != []
  {
    && Distinct(s.reduced)
    && (forall i :: i in s.reduced <==> i in s.stages && s.stages[i] == Contributed && i != s.arrived[0])
  }

  ghost predicate ProgressOk<T>(c: Collective<T>, s: State<T>) {
    && (forall i :: i in s.stages && s.arrived != [] ==> StageOk(c, s, i))
    && (s.arrived == [] ==> s.reduced == [])
    && (s.arrived != [] ==> ReducedOk(c, s))
  }

  predicate CountOk<T>(c: Collective<T>, s: State<T>) {
    && s.count + CountedTo(s, |c.values|) == 2 * |c.values| && s.count >= 0
    && s.completions == if s.count == 0 then 1 else 0
  }

  ghost predicate FoldIn<T>(c: Collective<T>, s: State<T>, x: T)
    requires s.arrived != []
  {
    Within([s.arrived[0]] + s.reduced, |c.values|) && x == Fold(c.op, c.values, [s.arrived[0]] + s.reduced)
  }

  /** Until the completion, the buffer of the first holds the fold so far and the others their
      own values; afterwards all hold the fold of all. */
  ghost predicate BuffersOk<T>(c: Collective<T>, s: State<T>)
    requires |s.buffers| == |c.values|
  {
    && (s.arrived != [] ==> s.arrived[0] < |s.buffers| && FoldIn(c, s, s.buffers[s.arrived[0]]))
    && (s.count > 0 ==> forall i :: 0 <= i < |s.buffers| && (s.arrived == [] || i != s.arrived[0]) ==>
        s.buffers[i] == c.values[i])
    && (s.count == 0 ==> s.arrived != [] && s.arrived[0] < |s.buffers| && forall i :: 0 <= i < |s.buffers| ==>
        s.buffers[i] == s.buffers[s.arrived[0]])
  }

  ghost predicate Invariant<T>(c: Collective<T>, s: State<T>) {
    ArrivalsOk(c, s) && ProgressOk(c, s) && CountOk(c, s) && BuffersOk(c, s)
  }

  lemma {:induction false} CountedUpdate<T>(s: State<T>, t: State<T>, i: nat, n: nat)
    requires forall j: nat :: j != i ==> Counted(s, j) == Counted(t, j)
    ensures CountedTo(t, n) == CountedTo(s, n) + if i < n then Counted(t, i) - Counted(s, i) else 0
  {
    if n > 0 {
      CountedUpdate(s, t, i, n - 1);
    }
  }

  lemma {:induction false} CountedBound<T>(s: State<T>, n: nat, i: nat)
    requires i < n
    ensures CountedTo(s, n) + 2 <= 2 * n + Counted(s, i)
  {
    if i < n - 1 {
      CountedBound(s, n - 1, i);
    } else {
      CountedAtMost(s, n - 1);
    }
  }

  lemma {:induction false} CountedAtMost<T>(s: State<T>, n: nat)
    ensures CountedTo(s, n) <= 2 * n
  {
    if n > 0 {
      CountedAtMost(s, n - 1);
    }
  }

  /** An action that will decrement the counter finds it positive. */
  lemma CounterIsPositive<T>(c: Collective<T>, s: State<T>, i: nat)
    requires CountOk(c, s) && i < |c.values| && Counted(s, i) < 2
    ensures s.count > 0
  {
    CountedBound(s, |c.values|, i);
  }

  /** The counter is zero only when every contributor has counted twice. */
  lemma AllCounted<T>(c: Collective<T>, s: State<T>, i: nat)
    requires CountOk(c, s) && s.count == 0 && i < |c.values|
    ensures Counted(s, i) == 2
  {
    CountedBound(s, |c.values|, i);
  }

  /** What one decrement leaves untouched. */
  lemma DecrementedKeeps<T>(s: State<T>)
    requires s.arrived != [] && s.arrived[0] < |s.buffers|
    ensures var t := Decremented(s);
      && t.arrived == s.arrived && t.stages == s.stages && t.antiCounted == s.antiCounted && t.ready == s.ready
      && t.antiReady == s.antiReady && t.reduced == s.reduced && |t.buffers| == |s.buffers| && t.count == s.count - 1
      && t.completions == s.completions + (if s.count == 1 then 1 else 0)
      && t.buffers[s.arrived[0]] == s.buffers[s.arrived[0]]
      && (s.count != 1 ==> t.buffers == s.buffers)
  {
  }

  lemma ArrivalStays<T>(c: Collective<T>, s: State<T>, i: nat)
    requires ArrivalsOk(c, s) && Enabled(c, s, Arrive(i)) && (s.arrived != [] ==> s.arrived[0] < |s.buffers|)
    ensures ArrivalsOk(c, Apply(c, s, Arrive(i)))
  {
  }

  lemma AdvanceStays<T>(c: Collective<T>, s: State<T>, i: nat)
    requires ArrivalsOk(c, s) && Enabled(c, s, Advance(i)) && s.arrived[0] < |s.buffers|
    ensures ArrivalsOk(c, Apply(c, s, Advance(i)))
  {
  }

  lemma ArrivalsStay<T>(c: Collective<T>, s: State<T>, m: Move)
    requires Invariant(c, s) && Enabled(c, s, m)
    ensures ArrivalsOk(c, Apply(c, s, m))
  {
    hide ProgressOk, CountOk, BuffersOk;
    match m
    case Arrive(i) => ArrivalStays(c, s, i);
    case Advance(i) => AdvanceStays(c, s, i);
    case _ =>
  }

  lemma CountStays<T>(c: Collective<T>, s: State<T>, m: Move)
    requires Invariant(c, s) && Enabled(c, s, m)
    ensures CountOk(c, Apply(c, s, m))
  {
    var t := Apply(c, s, m);
    CountedUpdate(s, t, m.i, |c.values|);
    if m.CountAnti? || m.Advance? {
      CounterIsPositive(c, s, m.i);
    }
  }

  lemma StageStays<T>(c: Collective<T>, s: State<T>, m: Move, i: nat)
    requires ArrivalsOk(c, s) && Enabled(c, s, m) && i in Apply(c, s, m).stages
    requires i in s.stages ==> s.arrived != [] && StageOk(c, s, i)
    ensures Apply(c, s, m).arrived != [] && StageOk(c, Apply(c, s, m), i)
  {
  }

  lemma ReducedStays<T>(c: Collective<T>, s: State<T>, m: Move)
    requires ArrivalsOk(c, s) && Enabled(c, s, m)
    requires s.arrived == [] ==> s.reduced == []
    requires s.arrived != [] ==> ReducedOk(c, s) && forall i :: i in s.stages ==> StageOk(c, s, i)
    ensures var t := Apply(c, s, m); (t.arrived == [] ==> t.reduced == []) && (t.arrived != [] ==> ReducedOk(c, t))
  {
    var t := Apply(c, s, m);
    match m
    case Advance(i) => AdvanceReduces(c, s, i);
    case Arrive(i) =>
      assert Distinct(t.reduced);
    case _ =>
  }

  lemma AdvanceReduces<T>(c: Collective<T>, s: State<T>, i: nat)
    requires ArrivalsOk(c, s) && Enabled(c, s, Advance(i)) && ReducedOk(c, s) && StageOk(c, s, i)
    ensures ReducedOk(c, Apply(c, s, Advance(i)))
  {
    var t := Apply(c, s, Advance(i));
    assert t.reduced == s.reduced || t.reduced == s.reduced + [i];
    if t.reduced == s.reduced + [i] {
      assert i !in s.reduced ==> Distinct(t.reduced);
    }
  }

  lemma ProgressStays<T>(c: Collective<T>, s: State<T>, m: Move)
    requires Invariant(c, s) && Enabled(c, s, m)
    ensures ProgressOk(c, Apply(c, s, m))
  {
    var t := Apply(c, s, m);
    ArrivalsStay(c, s, m);
    hide BuffersOk, CountOk, Apply, StageOk, ReducedOk, Enabled;
    ReducedStays(c, s, m);
    forall i | i in t.stages && t.arrived != [] ensures StageOk(c, t, i) {
      StageStays(c, s, m, i);
    }
  }

  lemma OneMoreFold<T>(c: Collective<T>, ids: seq<nat>, i: nat)
    requires ids != [] && Within(ids, |c.values|) && i < |c.values|
    ensures Within(ids + [i], |c.values|) &&
        Fold(c.op, c.values, ids + [i]) == c.op(Fold(c.op, c.values, ids), c.values[i])
  {
    assert (ids + [i])[..|ids|] == ids;
  }

  /** The buffers before the last decrement, and after it. */
  ghost predicate Contributing<T>(c: Collective<T>, s: State<T>)
    requires |s.buffers| == |c.values|
  {
    && (s.arrived != [] ==> s.arrived[0] < |s.buffers| && FoldIn(c, s, s.buffers[s.arrived[0]]))
    && (forall i :: 0 <= i < |s.buffers| && (s.arrived == [] || i != s.arrived[0]) ==> s.buffers[i] == c.values[i])
  }

  lemma DecrementCompletes<T>(c: Collective<T>, s: State<T>)
    requires |s.buffers| == |c.values| && s.arrived != [] && Contributing(c, s) && s.count > 0
    requires s.count == 1 ==> forall i: nat :: i < |s.buffers| ==> i in s.arrived
    ensures BuffersOk(c, Decremented(s))
  {
    DecrementedKeeps(s);
  }

  lemma LastFindsAllArrived<T>(c: Collective<T>, t: State<T>)
    requires ArrivalsOk(c, t) && CountOk(c, t) && t.count == 0
    ensures forall i: nat :: i < |t.buffers| ==> i in t.arrived
  {
    forall i: nat | i < |t.buffers| ensures i in t.arrived {
      AllCounted(c, t, i);
    }
  }

  lemma ArriveKeepsBuffers<T>(c: Collective<T>, s: State<T>, i: nat)
    requires Invariant(c, s) && Enabled(c, s, Arrive(i))
    ensures BuffersOk(c, Apply(c, s, Arrive(i)))
  {
    CounterIsPositive(c, s, i);
    var t := Apply(c, s, Arrive(i));
    if s.arrived == [] {
      assert [t.arrived[0]] + t.reduced == [i];
    }
  }

  lemma CountKeepsBuffers<T>(c: Collective<T>, s: State<T>, i: nat)
    requires Invariant(c, s) && Enabled(c, s, CountAnti(i))
    ensures BuffersOk(c, Apply(c, s, CountAnti(i)))
  {
    CounterIsPositive(c, s, i);
    CountStays(c, s, CountAnti(i));
    ArrivalsStay(c, s, CountAnti(i));
    var u := s.(antiCounted := s.antiCounted + {i});
    DecrementedKeeps(u);
    if s.count == 1 {
      LastFindsAllArrived(c, Decremented(u));
    }
    DecrementCompletes(c, u);
  }

  /** The state just before the decrement with which a contribution ends. */
  function BeforeDecrement<T>(c: Collective<T>, s: State<T>, i: nat): State<T>
    requires s.arrived != [] && s.arrived[0] < |s.buffers| && i < |s.buffers|
  {
    var first := s.arrived[0];
    if i == first then s.(stages := s.stages[i := Contributed])
    else s.(stages := s.stages[i := Contributed], reduced := s.reduced + [i],
            buffers := s.buffers[first := c.op(s.buffers[first], s.buffers[i])])
  }

  lemma ContributionKeepsBuffers<T>(c: Collective<T>, s: State<T>, i: nat)
    requires Invariant(c, s) && Enabled(c, s, Advance(i))
    requires i == s.arrived[0] || s.stages[i] == WaitsForFirst
    ensures BuffersOk(c, Apply(c, s, Advance(i)))
  {
    CounterIsPositive(c, s, i);
    CountStays(c, s, Advance(i));
    ArrivalsStay(c, s, Advance(i));
    var u := BeforeDecrement(c, s, i);
    assert Apply(c, s, Advance(i)) == Decremented(u);
    DecrementedKeeps(u);
    if s.count == 1 {
      LastFindsAllArrived(c, Decremented(u));
    }
    if i != s.arrived[0] {
      OneMoreFold(c, [s.arrived[0]] + s.reduced, i);
      assert [s.arrived[0]] + (s.reduced + [i]) == ([s.arrived[0]] + s.reduced) + [i];
    }
    DecrementCompletes(c, u);
  }

  lemma BuffersStay<T>(c: Collective<T>, s: State<T>, m: Move)
    requires Invariant(c, s) && Enabled(c, s, m)
    ensures BuffersOk(c, Apply(c, s, m))
  {
    match m
    case Arrive(i) => ArriveKeepsBuffers(c, s, i);
    case CountAnti(i) => CountKeepsBuffers(c, s, i);
    case Advance(i) =>
      assert StageOk(c, s, i);
      if i == s.arrived[0] || s.stages[i] == WaitsForFirst {
        ContributionKeepsBuffers(c, s, i);
      }
    case _ =>
  }

  lemma MoveKeepsInvariant<T>(c: Collective<T>, s: State<T>, m: Move)
    requires Invariant(c, s) && Enabled(c, s, m)
    ensures Invariant(c, Apply(c, s, m))
  {
    ArrivalsStay(c, s, m);
    ProgressStays(c, s, m);
    CountStays(c, s, m);
    BuffersStay(c, s, m);
    hide ArrivalsOk, ProgressOk, CountOk, BuffersOk, Apply, Enabled;
  }

  predicate IsRun<T>(c: Collective<T>, s: State<T>, moves: seq<Move>)
    decreases |moves|
  {
    moves != [] ==>
      && Enabled(c, s, moves[0]) && (s.arrived != [] ==> s.arrived[0] < |s.buffers|)
      && IsRun(c, Apply(c, s, moves[0]), moves[1..])
  }

  function After<T>(c: Collective<T>, s: State<T>, moves: seq<Move>): State<T>
    requires IsRun(c, s, moves)
    decreases |moves|
  {
    if moves == [] then s else After(c, Apply(c, s, moves[0]), moves[1..])
  }

  lemma {:induction false} RunKeepsInvariant<T>(c: Collective<T>, s: State<T>, moves: seq<Move>)
    requires Invariant(c, s) && IsRun(c, s, moves)
    ensures Invariant(c, After(c, s, moves))
    decreases |moves|
  {
    hide Invariant, Apply, Enabled;
    if moves != [] {
      MoveKeepsInvariant(c, s, moves[0]);
      RunKeepsInvariant(c, Apply(c, s, moves[0]), moves[1..]);
    }
  }

  lemma {:induction false} NothingCounted<T>(c: Collective<T>, n: nat)
    ensures CountedTo(Initial(c), n) == 0
  {
    if n > 0 {
      NothingCounted(c, n - 1);
    }
  }

  lemma InitialInvariant<T>(c: Collective<T>)
    requires |c.values| >= 2
    ensures Invariant(c, Initial(c))
  {
    NothingCounted(c, |c.values|);
  }

  /** When all have contributed, the reductions took every other contribution once. */
  lemma AllReduced<T>(c: Collective<T>, s: State<T>)
    requires Invariant(c, s) && s.count == 0
    ensures s.arrived != [] && multiset([s.arrived[0]] + s.reduced) == multiset(UpTo(|c.values|))
  {
    var ids := [s.arrived[0]] + s.reduced;
    forall i: nat ensures i in ids <==> i < |c.values| {
      if i < |c.values| {
        AllCounted(c, s, i);
      }
    }
    forall i, j | 0 <= i < j < |ids| ensures ids[i] != ids[j] {
      assert ids[j] == s.reduced[j - 1] && s.reduced[j - 1] in s.reduced;
    }
    AllOnce(ids, |c.values|);
  }

  /** After the completion all buffers hold the left fold in index order. */
  lemma CompletedHoldsTheFold<T(!new)>(c: Collective<T>, s: State<T>)
    requires Associative(c.op) && Commutative(c.op) && Invariant(c, s) && s.completions == 1
    ensures |s.buffers| == |c.values| && Within(UpTo(|c.values|), |c.values|)
    ensures forall i :: 0 <= i < |s.buffers| ==> s.buffers[i] == Fold(c.op, c.values, UpTo(|c.values|))
  {
    AllReduced(c, s);
    OrderDoesNotMatter(c.op, c.values, [s.arrived[0]] + s.reduced, UpTo(|c.values|));
  }

  /** Allreduce, for any number of contributors from two up, any order of arrival and any order
      in which their flows become ready: the completion runs once, with the last of exactly two
      decrements per contributor; then all buffers hold the left fold of all contributions in
      index order, whatever the order in which they were reduced. */
  lemma AllBuffersHoldTheFold<T(!new)>(c: Collective<T>, moves: seq<Move>)
    requires Associative(c.op) && Commutative(c.op) && |c.values| >= 2 && IsRun(c, Initial(c), moves)
    ensures var s := After(c, Initial(c), moves);
      && s.completions == (if CountedTo(s, |c.values|) == 2 * |c.values| then 1 else 0)
      && |s.buffers| == |c.values|
      && (s.completions == 1 ==>
            Within(UpTo(|c.values|), |c.values|) &&
            forall i :: 0 <= i < |s.buffers| ==> s.buffers[i] == Fold(c.op, c.values, UpTo(|c.values|)))
  {
    InitialInvariant(c);
    RunKeepsInvariant(c, Initial(c), moves);
    var s := After(c, Initial(c), moves);
    hide After, IsRun, CountedTo;
    if s.completions == 1 {
      CompletedHoldsTheFold(c, s);
    }
  }

  /** Who arrives in the course of these moves, in order. */
  function Arrivals(moves: seq<Move>): seq<nat> {
    if moves == [] then [] else (if moves[0].Arrive? then [moves[0].i] else []) + Arrivals(moves[1..])
  }

  /** Every arrival is recorded, in the order in which they come, and nothing else is. */
  lemma {:induction false} ArrivalsAreRecorded<T>(c: Collective<T>, s: State<T>, moves: seq<Move>)
    requires IsRun(c, s, moves)
    ensures After(c, s, moves).arrived == s.arrived + Arrivals(moves)
    decreases |moves|
  {
    hide Enabled;
    if moves != [] {
      MoveRecordsArrival(c, s, moves[0]);
      ArrivalsAreRecorded(c, Apply(c, s, moves[0]), moves[1..]);
    }
  }

  lemma MoveRecordsArrival<T>(c: Collective<T>, s: State<T>, m: Move)
    requires Enabled(c, s, m) && (s.arrived != [] ==> s.arrived[0] < |s.buffers|)
    ensures Apply(c, s, m).arrived == s.arrived + if m.Arrive? then [m.i] else []
  {
  }

  /** No contributor's buffer is written before its own flow and anti-flow are ready. */
  lemma WritesWaitForOwner<T>(c: Collective<T>, moves: seq<Move>, m: Move, i: nat)
    requires |c.values| >= 2 && IsRun(c, Initial(c), moves) && i < |c.values|
    requires Enabled(c, After(c, Initial(c), moves), m) && |After(c, Initial(c), moves).buffers| == |c.values|
    requires After(c, Initial(c), moves).arrived != [] ==> After(c, Initial(c), moves).arrived[0] < |c.values|
    ensures var s := After(c, Initial(c), moves); var t := Apply(c, s, m);
      |t.buffers| == |s.buffers| && (t.buffers[i] != s.buffers[i] ==> i in s.ready && MayOverwrite(c, s, i))
  {
    InitialInvariant(c);
    RunKeepsInvariant(c, Initial(c), moves);
    StepWrites(c, After(c, Initial(c), moves), m, i);
  }

  lemma StepWrites<T>(c: Collective<T>, s: State<T>, m: Move, i: nat)
    requires Invariant(c, s) && Enabled(c, s, m) && i < |s.buffers|
    ensures |Apply(c, s, m).buffers| == |s.buffers|
    ensures Apply(c, s, m).buffers[i] != s.buffers[i] ==> i in s.ready && MayOverwrite(c, s, i)
  {
    var t := Apply(c, s, m);
    MoveKeepsInvariant(c, s, m);
    if t.count == 0 && t.buffers[i] != s.buffers[i] {
      AllCounted(c, t, i);
      assert StageOk(c, t, i);
    }
    if m.Advance? && s.stages[m.i] == WaitsForFirst {
      assert StageOk(c, s, m.i);
    }
  }

  lemma {:induction false} SomebodyHasNotCounted<T>(s: State<T>, n: nat) returns (i: nat)
    requires CountedTo(s, n) < 2 * n
    ensures i < n && Counted(s, i) < 2
  {
    i := n - 1;
    if Counted(s, i) == 2 {
      i := SomebodyHasNotCounted(s, n - 1);
    }
  }

  // ---------------------------------------------------------------- every reduction completes

  /** What is left to happen on behalf of contributor `i`: its flow and anti-flow are to become
      ready, it is to arrive, and its actions are to run. */
  function StepsOf<T>(c: Collective<T>, s: State<T>, i: nat): nat {
    (if i in s.ready then 0 else 1) + (if MayOverwrite(c, s, i) then 0 else 1) +
    (if i in s.antiCounted then 0 else 1) +
    if i !in s.stages then 4
    else match s.stages[i] case WaitsForOwn => 3 case WaitsForFirstAnti => 2 case WaitsForFirst => 1
        case Contributed => 0
  }

  function StepsLeft<T>(c: Collective<T>, s: State<T>, n: nat): nat {
    if n == 0 then 0 else StepsLeft(c, s, n - 1) + StepsOf(c, s, n - 1)
  }

  lemma {:induction false} StepsUpdate<T>(c: Collective<T>, s: State<T>, t: State<T>, i: nat, n: nat)
    requires forall j: nat :: j != i ==> StepsOf(c, s, j) == StepsOf(c, t, j)
    ensures StepsLeft(c, t, n) == StepsLeft(c, s, n) + if i < n then StepsOf(c, t, i) - StepsOf(c, s, i) else 0
  {
    if n > 0 {
      StepsUpdate(c, s, t, i, n - 1);
    }
  }

  lemma {:induction false} StepsAtFirst<T>(c: Collective<T>, n: nat)
    ensures StepsLeft(c, Initial(c), n) <= 7 * n
  {
    if n > 0 {
      StepsAtFirst(c, n - 1);
    }
  }

  lemma StepIsTaken<T>(c: Collective<T>, s: State<T>, m: Move)
    requires Enabled(c, s, m) && ArrivalsOk(c, s) && (m.Advance? ==> StageOk(c, s, m.i))
    ensures StepsOf(c, Apply(c, s, m), m.i) < StepsOf(c, s, m.i)
    ensures forall j: nat :: j != m.i ==> StepsOf(c, s, j) == StepsOf(c, Apply(c, s, m), j)
  {
  }

  /** Whatever happens brings the end nearer. */
  lemma MoveSpends<T>(c: Collective<T>, s: State<T>, m: Move)
    requires Invariant(c, s) && Enabled(c, s, m)
    ensures StepsLeft(c, Apply(c, s, m), |c.values|) < StepsLeft(c, s, |c.values|)
  {
    hide BuffersOk, ReducedOk, StepsOf;
    if m.Advance? {
      assert StageOk(c, s, m.i);
    }
    StepIsTaken(c, s, m);
    StepsUpdate(c, s, Apply(c, s, m), m.i, |c.values|);
  }

  /** Those who have not arrived, in the order in which they are going to. */
  ghost predicate Missing<T>(c: Collective<T>, s: State<T>, order: seq<nat>) {
    && Distinct(order) && Within(order, |c.values|)
    && forall i: nat :: i < |c.values| ==> (i in order <==> i !in s.arrived)
  }

  /** Until the completion something can happen: a flow becomes ready, the next one arrives, or an
      action that is attached runs. */
  lemma ReductionGoesOn<T>(c: Collective<T>, s: State<T>, order: seq<nat>) returns (m: Move)
    requires Invariant(c, s) && s.completions == 0 && Missing(c, s, order)
    ensures Enabled(c, s, m) && (m.Arrive? ==> order != [] && m.i == order[0])
  {
    hide BuffersOk, ReducedOk;
    if i: nat :| i < |c.values| && i !in s.ready {
      m := FlowReady(i);
    } else if i: nat :| i < |c.values| && i in c.hasAnti && i !in s.antiReady {
      m := AntiFlowReady(i);
    } else if order != [] {
      assert order[0] in order;
      m := Arrive(order[0]);
    } else {
      var i := SomebodyHasNotCounted(s, |c.values|);
      assert i in s.arrived;
      m := if i !in s.antiCounted then CountAnti(i) else Advance(i);
      assert StageOk(c, s, i);
    }
  }

  lemma MissingAfter<T>(c: Collective<T>, s: State<T>, order: seq<nat>, m: Move)
    requires Invariant(c, s) && Missing(c, s, order) && Enabled(c, s, m)
    requires m.Arrive? ==> order != [] && m.i == order[0]
    ensures Missing(c, Apply(c, s, m), if m.Arrive? then order[1..] else order)
  {
    hide Invariant;
    MoveRecordsWithin(c, s, m);
    var t := Apply(c, s, m);
    if m.Arrive? {
      assert order == [order[0]] + order[1..];
      forall i: nat | i < |c.values| ensures i in order[1..] <==> i !in t.arrived {
        assert i in order <==> i == order[0] || i in order[1..];
      }
    }
  }

  lemma MoveRecordsWithin<T>(c: Collective<T>, s: State<T>, m: Move)
    requires Invariant(c, s) && Enabled(c, s, m)
    ensures s.arrived != [] ==> s.arrived[0] < |s.buffers|
    ensures Apply(c, s, m).arrived == s.arrived + if m.Arrive? then [m.i] else []
  {
    hide ProgressOk, CountOk, BuffersOk;
  }

  lemma NobodyMissing<T>(c: Collective<T>, s: State<T>, order: seq<nat>)
    requires Invariant(c, s) && s.completions == 1 && Missing(c, s, order)
    ensures order == []
  {
    LastFindsAllArrived(c, s);
    FirstIsIn(order);
  }

  lemma FirstIsIn(order: seq<nat>)
    ensures order == [] || exists i: nat :: i in order
  {
    if order != [] {
      assert order[0] in order;
    }
  }

  /** From every state on the way, and for every order in which those who are missing may arrive, a
      run in which they arrive in that order ends with the completion. */
  lemma {:induction false} EveryReductionCompletes<T>(c: Collective<T>, s: State<T>, order: seq<nat>)
    returns (moves: seq<Move>)
    requires Invariant(c, s) && Missing(c, s, order)
    ensures IsRun(c, s, moves) && Arrivals(moves) == order && |moves| <= StepsLeft(c, s, |c.values|)
    ensures After(c, s, moves).completions == 1 && Invariant(c, After(c, s, moves))
    decreases StepsLeft(c, s, |c.values|)
  {
    CompletedOnceAtMost(c, s);
    hide Invariant, Enabled, Missing, Apply, StepsLeft;
    moves := [];
    if s.completions == 1 {
      NobodyMissing(c, s, order);
    } else {
      var m, later := OneStepOn(c, s, order);
      var rest := EveryReductionCompletes(c, Apply(c, s, m), later);
      Prepend(c, s, m, rest);
      moves := [m] + rest;
    }
  }

  lemma OneStepOn<T>(c: Collective<T>, s: State<T>, order: seq<nat>) returns (m: Move, later: seq<nat>)
    requires Invariant(c, s) && s.completions == 0 && Missing(c, s, order)
    ensures Enabled(c, s, m) && (s.arrived != [] ==> s.arrived[0] < |s.buffers|)
    ensures Invariant(c, Apply(c, s, m)) && Missing(c, Apply(c, s, m), later)
    ensures StepsLeft(c, Apply(c, s, m), |c.values|) < StepsLeft(c, s, |c.values|)
    ensures order == (if m.Arrive? then [m.i] else []) + later
  {
    hide Invariant, Enabled, Missing, Apply, StepsLeft;
    m := ReductionGoesOn(c, s, order);
    later := if m.Arrive? then order[1..] else order;
    MoveRecordsWithin(c, s, m);
    MoveSpends(c, s, m);
    MoveKeepsInvariant(c, s, m);
    MissingAfter(c, s, order, m);
  }

  lemma Prepend<T>(c: Collective<T>, s: State<T>, m: Move, rest: seq<Move>)
    requires Enabled(c, s, m) && (s.arrived != [] ==> s.arrived[0] < |s.buffers|) && IsRun(c, Apply(c, s, m), rest)
    ensures IsRun(c, s, [m] + rest) && After(c, s, [m] + rest) == After(c, Apply(c, s, m), rest)
    ensures Arrivals([m] + rest) == (if m.Arrive? then [m.i] else []) + Arrivals(rest)
  {
    hide Enabled, Apply;
    assert ([m] + rest)[1..] == rest;
  }

  lemma CompletedOnceAtMost<T>(c: Collective<T>, s: State<T>)
    requires Invariant(c, s)
    ensures s.completions <= 1
  {
  }

  function MissingFrom<T>(s: State<T>, n: nat): seq<nat> {
    if n == 0 then [] else MissingFrom(s, n - 1) + if n - 1 in s.arrived then [] else [n - 1]
  }

  lemma {:induction false} MissingIsMissing<T>(s: State<T>, n: nat)
    ensures Distinct(MissingFrom(s, n)) && Within(MissingFrom(s, n), n)
    ensures forall i: nat :: i < n ==> (i in MissingFrom(s, n) <==> i !in s.arrived)
  {
    if n > 0 {
      MissingIsMissing(s, n - 1);
    }
  }

  /** Every allreduce completes.  From every reachable state a bounded run ends with the completion,
      and with the fold in all buffers; and every run is bounded. */
  lemma EveryAllreduceCompletes<T(!new)>(c: Collective<T>, moves: seq<Move>) returns (more: seq<Move>)
    requires Associative(c.op) && Commutative(c.op) && |c.values| >= 2 && IsRun(c, Initial(c), moves)
    ensures |moves| <= 7 * |c.values|
    ensures var s := After(c, Initial(c), moves);
      && s.arrived == Arrivals(moves)
      && IsRun(c, s, more) && |more| <= StepsLeft(c, s, |c.values|) <= 7 * |c.values|
      && After(c, s, more).completions == 1
      && Within(UpTo(|c.values|), |c.values|) && |After(c, s, more).buffers| == |c.values|
      && forall i :: 0 <= i < |c.values| ==> After(c, s, more).buffers[i] == Fold(c.op, c.values, UpTo(|c.values|))
  {
    var s := After(c, Initial(c), moves);
    InitialInvariant(c);
    hide Invariant, Apply, Enabled, StepsOf;
    RunKeepsInvariant(c, Initial(c), moves);
    RunIsBounded(c, Initial(c), moves);
    StepsAtFirst(c, |c.values|);
    ArrivalsAreRecorded(c, Initial(c), moves);
    MissingIsMissing(s, |c.values|);
    more := EveryReductionCompletes(c, s, MissingFrom(s, |c.values|));
    CompletedHoldsTheFold(c, After(c, s, more));
  }

  lemma {:induction false} RunIsBounded<T>(c: Collective<T>, s: State<T>, moves: seq<Move>)
    requires Invariant(c, s) && IsRun(c, s, moves)
    ensures |moves| + StepsLeft(c, After(c, s, moves), |c.values|) <= StepsLeft(c, s, |c.values|)
    decreases |moves|
  {
    hide Invariant, Apply, Enabled, StepsOf;
    if moves != [] {
      MoveSpends(c, s, moves[0]);
      MoveKeepsInvariant(c, s, moves[0]);
      RunIsBounded(c, Apply(c, s, moves[0]), moves[1..]);
    }
  }

  /** And every order of arrival there can be leads there. */
  lemma AnyOrderOfArrival<T(!new)>(c: Collective<T>, order: seq<nat>) returns (moves: seq<Move>)
    requires Associative(c.op) && Commutative(c.op) && |c.values| >= 2
    requires multiset(order) == multiset(UpTo(|c.values|))
    ensures IsRun(c, Initial(c), moves)
    ensures var s := After(c, Initial(c), moves);
      && s.arrived == order && s.completions == 1
      && Within(UpTo(|c.values|), |c.values|) && |s.buffers| == |c.values|
      && forall i :: 0 <= i < |c.values| ==> s.buffers[i] == Fold(c.op, c.values, UpTo(|c.values|))
  {
    InitialInvariant(c);
    PermutationIsMissing(c, order);
    hide Invariant, Apply, Enabled, StepsOf;
    moves := EveryReductionCompletes(c, Initial(c), order);
    ArrivalsAreRecorded(c, Initial(c), moves);
    CompletedHoldsTheFold(c, After(c, Initial(c), moves));
  }

  lemma PermutationIsMissing<T>(c: Collective<T>, order: seq<nat>)
    requires multiset(order) == multiset(UpTo(|c.values|))
    ensures Missing(c, Initial(c), order)
  {
    var n := |c.values|;
    forall x: nat ensures multiset(order)[x] == if x < n then 1 else 0 {
      DistinctCounts(UpTo(n), x);
      assert x < n ==> UpTo(n)[x] == x;
    }
    forall i | 0 <= i < |order| ensures order[i] < n {
      assert order[i] in multiset(order);
    }
    forall i: nat | i < n ensures i in order {
      assert i in multiset(order);
    }
    forall i, j | 0 <= i < j < |order| ensures order[i] != order[j] {
      TwiceCounts(order, i, j);
    }
  }

  lemma TwiceCounts(ids: seq<nat>, i: nat, j: nat)
    requires i < j < |ids|
    ensures ids[i] == ids[j] ==> multiset(ids)[ids[i]] >= 2
  {
    assert ids == ids[..j] + [ids[j]] + ids[j + 1..];
    assert ids[i] in multiset(ids[..j]) by {
      assert ids[..j][i] == ids[i];
    }
  }

  // ---------------------------------------------------------------- the loops

  /** The completion of an allreduce: packs the buffer of the first use and unpacks it into
      the buffers of all the others. */
  method CopyToAll<T>(buffers: array<T>, uses: seq<nat>)
    requires uses != [] && Distinct(uses) && Within(uses, buffers.Length)
    modifies buffers
    ensures forall i :: 0 <= i < buffers.Length ==>
              buffers[i] == if i in uses then old(buffers[uses[0]]) else old(buffers[i])
  {
    var packed := buffers[uses[0]];
    for use := 1 to |uses|
      invariant forall k :: 0 <= k < use ==> buffers[uses[k]] == packed
      invariant forall i :: 0 <= i < buffers.Length && i !in uses[..use] ==> buffers[i] == old(buffers[i])
    {
      buffers[uses[use]] := packed;
      assert uses[..use + 1] == uses[..use] + [uses[use]];
    }
    assert uses[..|uses|] == uses;
  }

  /** reduce_collection_use, once the flows it waits for are ready: the first index is copied
      to the output, then the others are reduced into it. */
  method ReduceCollection<T>(op: Op<T>, collection: array<T>, out: array<T>)
    requires collection.Length > 0 && out.Length == 1 && out != collection
    modifies out
    ensures Within(UpTo(collection.Length), collection.Length)
    ensures out[0] == Fold(op, collection[..], UpTo(collection.Length))
  {
    out[0] := collection[0];
    assert UpTo(1) == [0];
    for idx := 1 to collection.Length
      invariant Within(UpTo(idx), collection.Length) && out[0] == Fold(op, collection[..], UpTo(idx))
    {
      assert UpTo(idx + 1)[..idx] == UpTo(idx);
      out[0] := op(out[0], collection[idx]);
    }
  }
}
