/**
  Publish and fetch: one publication of an index of a collection under a version, and the
  fetches of it, in any order.

  The publisher copies the data; fetchers are handed a pointer to the copy.  Memory is a list
  of blocks, block 0 being the publisher's own.
  */
module Publish {

  /** The publishing thread: raise the release event by the number of fetchers; drop its initial
      count; once the in-flow is ready, copy; let the fetchers know; release the use. */
  datatype PubStage = NotPublished | Advanced | Waiting | Copied | Announced | Released

  /** A fetch attaches an action to the fetching counter when its in-flow is registered, and a
      decrement of the release event to its anti-out-flow. */
  datatype InStage = Unregistered | Attached | Ready(data: nat)
  datatype AntiStage = NoAnti | Hooked | LetGo

  datatype Fetch = Fetch(inStage: InStage, antiStage: AntiStage)

  /** `published` is what block 0 held when the publisher's in-flow became ready. */
  datatype State<T> = State(
    blocks: seq<T>, published: T, flowReady: bool, pub: PubStage, copy: nat,
    fetchingCount: int, releaseCount: int, releaseTriggered: bool, fetches: seq<Fetch>)

  function Initial<T>(value: T, fetchers: nat): State<T> {
    State([value], value, false, NotPublished, 0, 1, 1, false, seq(fetchers, _ => Fetch(Unregistered, NoAnti)))
  }

  function Rank(p: PubStage): nat {
    match p case NotPublished => 0 case Advanced => 1 case Waiting => 2 case Copied => 3 case Announced => 4
        case Released => 5
  }

  datatype Move<T> =
    | FlowBecomesReady           // the publisher's in-flow
    | Overwrite(value: T)        // somebody who may writes the publisher's block
    | Publish                    // the next step of the publisher
    | RegisterIn(i: nat)         // register_use of a fetch, its in-flow
    | RegisterAntiOut(i: nat)    // and its anti-out-flow
    | RunFetch(i: nat)           // the action attached to the fetching counter
    | LetGoOf(i: nat)            // the anti-out-flow of the fetch has triggered

  /** The block may be written before the publisher's in-flow is ready and after the publisher's
      use is released; a fetch is released only after its in-flow is ready. */
  predicate Enabled<T>(s: State<T>, m: Move<T>) {
    match m
    case FlowBecomesReady => !s.flowReady
    case Overwrite(_) => !s.flowReady || s.pub == Released
    case Publish => s.pub != Released && (s.pub == Waiting ==> s.flowReady)
    case RegisterIn(i) => i < |s.fetches| && s.fetches[i].inStage == Unregistered
    case RegisterAntiOut(i) => i < |s.fetches| && s.fetches[i].inStage != Unregistered &&
        s.fetches[i].antiStage == NoAnti
    case RunFetch(i) => i < |s.fetches| && s.fetches[i].inStage == Attached && s.fetchingCount == 0
    case LetGoOf(i) => i < |s.fetches| && s.fetches[i].inStage.Ready? && s.fetches[i].antiStage == Hooked
  }

  /** No assertion fails, no counter goes below zero, and a fetch finds a copy. */
  predicate Safe<T>(s: State<T>, m: Move<T>) {
    match m
    case Publish => (s.pub == NotPublished ==> !s.releaseTriggered) && (s.pub == Advanced ==>
        s.releaseCount > 0 && !s.releaseTriggered)
    case RunFetch(_) => 0 < s.copy < |s.blocks|
    case LetGoOf(_) => s.releaseCount > 0 && !s.releaseTriggered
    case _ => s.blocks != []
  }

  function WithFetch<T>(s: State<T>, i: nat, f: Fetch): State<T>
    requires i < |s.fetches|
  {
    s.(fetches := s.fetches[i := f])
  }

  function ReleaseLowered<T>(s: State<T>): State<T> {
    s.(releaseCount := s.releaseCount - 1, releaseTriggered := s.releaseTriggered || s.releaseCount == 1)
  }

  function Apply<T>(s: State<T>, m: Move<T>): State<T>
    requires Enabled(s, m) && s.blocks != []
  {
    match m
    case FlowBecomesReady => s.(flowReady := true, published := s.blocks[0])
    case Overwrite(v) => s.(blocks := s.blocks[0 := v])
    case Publish =>
      (match s.pub
       case NotPublished => s.(pub := Advanced, releaseCount := s.releaseCount + |s.fetches|)
       case Advanced => ReleaseLowered(s).(pub := Waiting)
       case Waiting => s.(pub := Copied, copy := |s.blocks|, blocks := s.blocks + [s.blocks[0]])
       case Copied => s.(pub := Announced, fetchingCount := s.fetchingCount - 1)
       case Announced => s.(pub := Released)
       case Released => s)
    case RegisterIn(i) => WithFetch(s, i, s.fetches[i].(inStage := Attached))
    case RegisterAntiOut(i) => WithFetch(s, i, s.fetches[i].(antiStage := Hooked))
    case RunFetch(i) => WithFetch(s, i, s.fetches[i].(inStage := Ready(s.copy)))
    case LetGoOf(i) => ReleaseLowered(WithFetch(s, i, s.fetches[i].(antiStage := LetGo)))
  }

  // ---------------------------------------------------------------- the invariant

  function LetGos(fetches: seq<Fetch>): nat {
    if fetches == [] then 0
    else LetGos(fetches[..|fetches| - 1]) + if fetches[|fetches| - 1].antiStage == LetGo then 1 else 0
  }

  lemma {:induction false} LetGosUpdate(fetches: seq<Fetch>, i: nat, f: Fetch)
    requires i < |fetches|
    ensures LetGos(fetches[i := f]) + (if fetches[i].antiStage == LetGo then 1 else 0) ==
            LetGos(fetches) + (if f.antiStage == LetGo then 1 else 0)
    ensures LetGos(fetches) <= |fetches| && (fetches[i].antiStage != LetGo ==> LetGos(fetches) < |fetches|)
  {
    var n := |fetches| - 1;
    if i == n {
      assert fetches[i := f][..n] == fetches[..n];
      LetGosAtMost(fetches[..n]);
    } else {
      LetGosUpdate(fetches[..n], i, f);
      assert fetches[i := f][..n] == fetches[..n][i := f];
    }
  }

  lemma {:induction false} LetGosAtMost(fetches: seq<Fetch>)
    ensures LetGos(fetches) <= |fetches|
    ensures LetGos(fetches) == |fetches| <==> forall i :: 0 <= i < |fetches| ==> fetches[i].antiStage == LetGo
  {
    if fetches != [] {
      var n := |fetches| - 1;
      LetGosAtMost(fetches[..n]);
      assert (forall i :: 0 <= i < |fetches| ==> fetches[i].antiStage == LetGo) <==>
             (forall i :: 0 <= i < n ==> fetches[..n][i].antiStage == LetGo) && fetches[n].antiStage == LetGo;
    }
  }

  /** The release event counts the fetches that have not let go, once their number is known. */
  predicate ReleaseOk<T>(s: State<T>) {
    && s.releaseCount + LetGos(s.fetches) ==
       (if Rank(s.pub) < 2 then 1 else 0) + (if Rank(s.pub) >= 1 then |s.fetches| else 0)
    && (s.releaseTriggered <==> s.releaseCount == 0)
  }

  predicate CopyOk<T(==)>(s: State<T>) {
    && s.blocks != []
    && s.fetchingCount == (if Rank(s.pub) >= 4 then 0 else 1)
    && (Rank(s.pub) >= 3 ==> s.flowReady && 0 < s.copy < |s.blocks| && s.blocks[s.copy] == s.published)
    && (s.flowReady && s.pub != Released ==> s.blocks[0] == s.published)
  }

  predicate FetchOk<T>(s: State<T>, i: nat)
    requires i < |s.fetches|
  {
    && (s.fetches[i].inStage.Ready? ==> Rank(s.pub) >= 4 && s.fetches[i].inStage.data == s.copy)
    && (s.fetches[i].antiStage == LetGo ==> s.fetches[i].inStage.Ready?)
    && (s.fetches[i].antiStage == Hooked ==> s.fetches[i].inStage != Unregistered)
  }

  ghost predicate Invariant<T>(s: State<T>) {
    ReleaseOk(s) && CopyOk(s) && forall i :: 0 <= i < |s.fetches| ==> FetchOk(s, i)
  }

  lemma {:induction false} NothingLetGo(fetches: seq<Fetch>)
    requires forall i :: 0 <= i < |fetches| ==> fetches[i].antiStage != LetGo
    ensures LetGos(fetches) == 0
  {
    if fetches != [] {
      NothingLetGo(fetches[..|fetches| - 1]);
    }
  }

  /** Before the copy nobody can have let go. */
  lemma EarlyNothingLetGo<T>(s: State<T>)
    requires Invariant(s) && Rank(s.pub) < 4
    ensures LetGos(s.fetches) == 0
  {
    forall i | 0 <= i < |s.fetches| ensures s.fetches[i].antiStage != LetGo {
      assert FetchOk(s, i);
    }
    NothingLetGo(s.fetches);
  }

  lemma MovesAreSafe<T>(s: State<T>, m: Move<T>)
    requires Invariant(s) && Enabled(s, m)
    ensures Safe(s, m)
  {
    match m
    case Publish =>
      if Rank(s.pub) < 2 {
        EarlyNothingLetGo(s);
      }
    case LetGoOf(i) =>
      assert FetchOk(s, i);
      LetGosUpdate(s.fetches, i, s.fetches[i]);
    case _ =>
  }

  predicate OfFetch<T>(m: Move<T>, i: nat) {
    m == RegisterIn(i) || m == RegisterAntiOut(i) || m == RunFetch(i) || m == LetGoOf(i)
  }

  lemma FetchKeepsRelease<T>(s: State<T>, m: Move<T>, i: nat)
    requires ReleaseOk(s) && s.blocks != [] && Enabled(s, m) && Safe(s, m) && OfFetch(m, i)
    ensures ReleaseOk(Apply(s, m)) && |Apply(s, m).fetches| == |s.fetches|
  {
    LetGosUpdate(s.fetches, i, Apply(s, m).fetches[i]);
    hide LetGos;
  }

  lemma PublishKeepsRelease<T>(s: State<T>)
    requires ReleaseOk(s) && s.blocks != [] && Enabled(s, Publish) && (Rank(s.pub) < 2 ==> LetGos(s.fetches) == 0)
    ensures ReleaseOk(Apply(s, Publish)) && Apply(s, Publish).fetches == s.fetches
  {
    hide LetGos;
  }

  lemma OtherKeepsRelease<T>(s: State<T>, m: Move<T>)
    requires ReleaseOk(s) && s.blocks != [] && Enabled(s, m) && (m.FlowBecomesReady? || m.Overwrite?)
    ensures ReleaseOk(Apply(s, m)) && |Apply(s, m).fetches| == |s.fetches|
  {
    hide LetGos;
  }

  lemma ReleaseStays<T>(s: State<T>, m: Move<T>)
    requires Invariant(s) && Enabled(s, m)
    ensures ReleaseOk(Apply(s, m)) && |Apply(s, m).fetches| == |s.fetches|
  {
    MovesAreSafe(s, m);
    hide ReleaseOk, LetGos;
    match m
    case Publish =>
      if Rank(s.pub) < 2 {
        EarlyNothingLetGo(s);
      }
      PublishKeepsRelease(s);
    case RegisterIn(i) => FetchKeepsRelease(s, m, i);
    case RegisterAntiOut(i) => FetchKeepsRelease(s, m, i);
    case RunFetch(i) => FetchKeepsRelease(s, m, i);
    case LetGoOf(i) => FetchKeepsRelease(s, m, i);
    case _ => OtherKeepsRelease(s, m);
  }

  lemma FetchStays<T>(s: State<T>, m: Move<T>, j: nat)
    requires CopyOk(s) && Enabled(s, m) && j < |s.fetches| && FetchOk(s, j)
    ensures j < |Apply(s, m).fetches| && FetchOk(Apply(s, m), j)
  {
  }

  lemma MoveKeepsInvariant<T>(s: State<T>, m: Move<T>)
    requires Invariant(s) && Enabled(s, m)
    ensures Invariant(Apply(s, m)) && |Apply(s, m).fetches| == |s.fetches|
  {
    ReleaseStays(s, m);
    hide ReleaseOk, FetchOk;
    forall j | 0 <= j < |s.fetches| ensures FetchOk(Apply(s, m), j) {
      FetchStays(s, m, j);
    }
  }

  // ---------------------------------------------------------------- every run

  predicate IsRun<T>(s: State<T>, moves: seq<Move<T>>)
    decreases |moves|
  {
    moves != [] ==> Enabled(s, moves[0]) && s.blocks != [] && IsRun(Apply(s, moves[0]), moves[1..])
  }

  function After<T>(s: State<T>, moves: seq<Move<T>>): State<T>
    requires IsRun(s, moves)
    decreases |moves|
  {
    if moves == [] then s else After(Apply(s, moves[0]), moves[1..])
  }

  lemma {:induction false} RunKeepsInvariant<T>(s: State<T>, moves: seq<Move<T>>)
    requires Invariant(s) && IsRun(s, moves)
    ensures Invariant(After(s, moves)) && |After(s, moves).fetches| == |s.fetches|
    decreases |moves|
  {
    hide Invariant, Enabled;
    if moves != [] {
      MoveKeepsInvariant(s, moves[0]);
      RunKeepsInvariant(Apply(s, moves[0]), moves[1..]);
    }
  }

  lemma InitialInvariant<T>(value: T, fetchers: nat)
    ensures Invariant(Initial(value, fetchers))
  {
    NothingLetGo(Initial(value, fetchers).fetches);
  }

  /** Publish and fetch meet in every order: a fetch is ready only once the copy exists, and what
      it points to is the published value, whatever is written to the publisher's block later;
      the release event has fired exactly when the publication is known and every fetch has let
      go; and no step of either side fails an assertion. */
  lemma FetchesReadWhatWasPublished<T>(value: T, fetchers: nat, moves: seq<Move<T>>)
    requires IsRun(Initial(value, fetchers), moves)
    ensures var s := After(Initial(value, fetchers), moves);
      && |s.fetches| == fetchers
      && (forall i :: 0 <= i < |s.fetches| && s.fetches[i].inStage.Ready? ==>
            && Rank(s.pub) >= 4 && s.flowReady
            && s.fetches[i].inStage.data < |s.blocks| && s.blocks[s.fetches[i].inStage.data] == s.published)
      && (s.releaseTriggered <==>
            Rank(s.pub) >= 2 && forall i :: 0 <= i < |s.fetches| ==> s.fetches[i].antiStage == LetGo)
      && (forall m :: Enabled(s, m) ==> Safe(s, m))
  {
    InitialInvariant(value, fetchers);
    RunKeepsInvariant(Initial(value, fetchers), moves);
    var s := After(Initial(value, fetchers), moves);
    LetGosAtMost(s.fetches);
    if Rank(s.pub) < 2 {
      EarlyNothingLetGo(s);
    }
    forall i | 0 <= i < |s.fetches| && s.fetches[i].inStage.Ready?
      ensures Rank(s.pub) >= 4 && s.fetches[i].inStage.data == s.copy
    {
      assert FetchOk(s, i);
    }
    forall m | Enabled(s, m) ensures Safe(s, m) {
      MovesAreSafe(s, m);
    }
  }

  /** What a fetch points to never changes again: it becomes ready once. */
  lemma ReadyOnce<T>(s: State<T>, m: Move<T>, i: nat)
    requires Invariant(s) && Enabled(s, m) && i < |s.fetches| && s.fetches[i].inStage.Ready?
    ensures i < |Apply(s, m).fetches| && Apply(s, m).fetches[i].inStage == s.fetches[i].inStage
    ensures s.fetches[i].inStage.data < |s.blocks| && s.fetches[i].inStage.data < |Apply(s, m).blocks|
    ensures Apply(s, m).blocks[s.fetches[i].inStage.data] == s.blocks[s.fetches[i].inStage.data]
  {
    assert FetchOk(s, i);
  }

  /** No fetch is forgotten: when neither side can go on, every registered fetch of a published
      value is ready, whichever side came first. */
  lemma NoFetchIsForgotten<T>(s: State<T>, i: nat)
    requires Invariant(s) && s.flowReady && s.pub == Released
    requires i < |s.fetches| && s.fetches[i].inStage != Unregistered && !Enabled(s, RunFetch(i))
    ensures s.fetches[i].inStage == Ready(s.copy)
  {
    assert FetchOk(s, i);
  }

  // ---------------------------------------------------------------- what is published

  /** What was written last into the publisher's block. */
  function LastWritten<T>(first: T, moves: seq<Move<T>>): T {
    if moves == [] then first
    else if moves[|moves| - 1].Overwrite? then moves[|moves| - 1].value
    else LastWritten(first, moves[..|moves| - 1])
  }

  lemma {:induction false} LastMove<T>(s: State<T>, moves: seq<Move<T>>)
    requires IsRun(s, moves) && moves != []
    ensures var before := moves[..|moves| - 1];
      && IsRun(s, before) && Enabled(After(s, before), moves[|moves| - 1]) && After(s, before).blocks != []
      && After(s, moves) == Apply(After(s, before), moves[|moves| - 1])
    decreases |moves|
  {
    hide Enabled, Apply;
    if |moves| > 1 {
      LastMove(Apply(s, moves[0]), moves[1..]);
      assert moves[..|moves| - 1][1..] == moves[1..][..|moves| - 2];
    }
  }

  lemma BlockAfter<T>(s: State<T>, m: Move<T>)
    requires Enabled(s, m) && s.blocks != []
    ensures var t := Apply(s, m);
      && t.blocks != [] && t.blocks[0] == (if m.Overwrite? then m.value else s.blocks[0])
      && t.flowReady == (s.flowReady || m.FlowBecomesReady?)
      && t.published == (if m.FlowBecomesReady? then s.blocks[0] else s.published)
      && (m.FlowBecomesReady? ==> !s.flowReady)
  {
  }

  /** The block holds what was written last, and what is published is what it held when the
      publisher's flow became ready. */
  lemma {:induction false} PublishedIsWhatWasThere<T>(value: T, fetchers: nat, moves: seq<Move<T>>)
    requires IsRun(Initial(value, fetchers), moves)
    ensures var s := After(Initial(value, fetchers), moves);
      && s.blocks != [] && s.blocks[0] == LastWritten(value, moves)
      && (s.flowReady <==> FlowBecomesReady in moves)
      && (s.flowReady ==>
            exists k :: 0 <= k < |moves| && moves[k].FlowBecomesReady? && s.published == LastWritten(value, moves[..k]))
    decreases |moves|
  {
    if moves != [] {
      var n := |moves| - 1;
      var before, m := moves[..n], moves[n];
      LastMove(Initial(value, fetchers), moves);
      PublishedIsWhatWasThere(value, fetchers, before);
      var t := After(Initial(value, fetchers), before);
      BlockAfter(t, m);
      hide IsRun, After, Enabled, Apply;
      assert moves == before + [m];
      if t.flowReady {
        var k :| 0 <= k < n && before[k] == FlowBecomesReady && t.published == LastWritten(value, before[..k]);
        assert moves[k] == FlowBecomesReady && moves[..k] == before[..k];
      } else if m.FlowBecomesReady? {
        assert moves[..n] == before;
      }
    }
  }

  // ---------------------------------------------------------------- and everything comes to its end

  function InLeft(stage: InStage): nat {
    match stage case Unregistered => 2 case Attached => 1 case Ready(_) => 0
  }

  function AntiLeft(stage: AntiStage): nat {
    match stage case NoAnti => 2 case Hooked => 1 case LetGo => 0
  }

  function FetchesLeft(fetches: seq<Fetch>): nat {
    if fetches == [] then 0
    else
      var f := fetches[|fetches| - 1];
      FetchesLeft(fetches[..|fetches| - 1]) + InLeft(f.inStage) + AntiLeft(f.antiStage)
  }

  lemma {:induction false} FetchesLeftUpdate(fetches: seq<Fetch>, i: nat, f: Fetch)
    requires i < |fetches|
    ensures FetchesLeft(fetches[i := f]) + InLeft(fetches[i].inStage) + AntiLeft(fetches[i].antiStage) ==
            FetchesLeft(fetches) + InLeft(f.inStage) + AntiLeft(f.antiStage)
  {
    var n := |fetches| - 1;
    hide InLeft, AntiLeft;
    if i == n {
      assert fetches[i := f][..n] == fetches[..n];
    } else {
      FetchesLeftUpdate(fetches[..n], i, f);
      assert fetches[i := f][..n] == fetches[..n][i := f];
    }
  }

  /** Steps of the publisher, of its flow, and of the fetches that are left. */
  function StepsLeft<T>(s: State<T>): nat {
    (if s.flowReady then 0 else 1) + (5 - Rank(s.pub)) + FetchesLeft(s.fetches)
  }

  lemma PublisherGoesOn<T>(s: State<T>)
    requires Enabled(s, Publish) && s.blocks != []
    ensures Rank(Apply(s, Publish).pub) == Rank(s.pub) + 1
  {
  }

  /** Every step but a write is one of those that are left. */
  lemma MoveSpendsOne<T>(s: State<T>, m: Move<T>)
    requires Enabled(s, m) && s.blocks != []
    ensures StepsLeft(Apply(s, m)) + (if m.Overwrite? then 0 else 1) == StepsLeft(s)
  {
    match m
    case RegisterIn(i) => FetchesLeftUpdate(s.fetches, i, Apply(s, m).fetches[i]);
    case RegisterAntiOut(i) => FetchesLeftUpdate(s.fetches, i, Apply(s, m).fetches[i]);
    case RunFetch(i) => FetchesLeftUpdate(s.fetches, i, Apply(s, m).fetches[i]);
    case LetGoOf(i) => FetchesLeftUpdate(s.fetches, i, Apply(s, m).fetches[i]);
    case Publish => PublisherGoesOn(s);
    case _ =>
  }

  /** Steps of the publisher and of fetches that are registered; or also those that register more,
      and that of the publisher's flow. */
  predicate Counts<T>(m: Move<T>, all: bool) {
    m.Publish? || m.RunFetch? || m.LetGoOf? || (all && !m.Overwrite?)
  }

  predicate AllCount<T>(moves: seq<Move<T>>, all: bool) {
    forall k :: 0 <= k < |moves| ==> Counts(moves[k], all)
  }

  /** What is left to a fetch only becomes less. */
  /** There is no more left to the fetch than before. */
  predicate NoMoreLeft(before: Fetch, f: Fetch) {
    InLeft(f.inStage) <= InLeft(before.inStage) && AntiLeft(f.antiStage) <= AntiLeft(before.antiStage)
  }

  lemma FetchGoesOn<T>(s: State<T>, m: Move<T>, i: nat)
    requires Enabled(s, m) && s.blocks != [] && i < |s.fetches|
    ensures i < |Apply(s, m).fetches| && NoMoreLeft(s.fetches[i], Apply(s, m).fetches[i])
  {
  }

  /** The fetch has got as far as it can. */
  predicate IsThrough<T>(s: State<T>, before: Fetch, f: Fetch, all: bool) {
    && (all || before.inStage != Unregistered ==> f.inStage == Ready(s.copy))
    && (all || (before.inStage != Unregistered && before.antiStage != NoAnti) ==> f.antiStage == LetGo)
  }

  /** When no such step is left the publisher has released its use, and every fetch is through. */
  lemma NothingLeftMeansDone<T>(s: State<T>, all: bool, before: Fetch, i: nat)
    requires Invariant(s) && (all || s.flowReady) && forall m: Move<T> :: Counts(m, all) ==> !Enabled(s, m)
    ensures s.pub == Released
    ensures i < |s.fetches| && NoMoreLeft(before, s.fetches[i]) ==> IsThrough(s, before, s.fetches[i], all)
  {
    assert !Enabled(s, Publish);
    if all {
      assert !Enabled(s, FlowBecomesReady);
    }
    if i < |s.fetches| {
      assert FetchOk(s, i);
      assert !Enabled(s, RunFetch(i)) && !Enabled(s, LetGoOf(i));
      if all {
        assert !Enabled(s, RegisterIn(i)) && !Enabled(s, RegisterAntiOut(i));
      }
    }
  }

  lemma BlocksAreThere<T>(s: State<T>)
    requires Invariant(s)
    ensures s.blocks != []
  {
  }

  lemma {:induction false} Finish<T>(s: State<T>, all: bool) returns (moves: seq<Move<T>>)
    requires Invariant(s) && (all || s.flowReady)
    ensures IsRun(s, moves) && AllCount(moves, all) && |moves| <= StepsLeft(s)
    ensures var t := After(s, moves);
      && Invariant(t) && t.pub == Released && |t.fetches| == |s.fetches|
      && forall i :: 0 <= i < |t.fetches| ==> IsThrough(t, s.fetches[i], t.fetches[i], all)
    decreases StepsLeft(s)
  {
    hide Invariant, Enabled, StepsLeft, IsThrough, NoMoreLeft;
    moves := [];
    if m: Move<T> :| Counts(m, all) && Enabled(s, m) {
      BlocksAreThere(s);
      MoveSpendsOne(s, m);
      MoveKeepsInvariant(s, m);
      FlowStaysReady(s, m);
      var t := Apply(s, m);
      var rest := Finish(t, all);
      moves := [m] + rest;
      assert moves[1..] == rest;
      var end := After(t, rest);
      forall i | 0 <= i < |end.fetches| ensures IsThrough(end, s.fetches[i], end.fetches[i], all) {
        FetchGoesOn(s, m, i);
        FurtherIsThrough(end, s.fetches[i], t.fetches[i], end.fetches[i], all);
      }
    } else {
      forall i | 0 <= i < |s.fetches| ensures IsThrough(s, s.fetches[i], s.fetches[i], all) {
        NothingLeftMeansDone(s, all, s.fetches[i], i);
        ItselfNoMoreLeft(s.fetches[i]);
      }
      NothingLeftMeansDone(s, all, Fetch(Unregistered, NoAnti), 0);
    }
  }

  lemma ItselfNoMoreLeft(f: Fetch)
    ensures NoMoreLeft(f, f)
  {
  }

  lemma FlowStaysReady<T>(s: State<T>, m: Move<T>)
    requires Enabled(s, m) && s.blocks != []
    ensures s.flowReady ==> Apply(s, m).flowReady
  {
  }

  lemma FurtherIsThrough<T>(s: State<T>, before: Fetch, mid: Fetch, f: Fetch, all: bool)
    requires IsThrough(s, mid, f, all) && NoMoreLeft(before, mid)
    ensures IsThrough(s, before, f, all)
  {
  }

  /** The publisher's block has been overwritten, and fetches read what they read before. */
  predicate StillReads<T(==)>(s: State<T>, t: State<T>, value: T) {
    && t.blocks != [] && t.blocks[0] == value && t.fetches == s.fetches
    && forall i :: 0 <= i < |t.fetches| && t.fetches[i].inStage.Ready? ==>
         && t.fetches[i].inStage.data < |t.blocks|
         && t.blocks[t.fetches[i].inStage.data] == s.published == t.published
  }

  lemma OverwritingIsUnseen<T>(s: State<T>, value: T)
    requires Invariant(s) && s.pub == Released
    ensures Enabled(s, Overwrite(value)) && s.blocks != [] && StillReads(s, Apply(s, Overwrite(value)), value)
  {
    var t := Apply(s, Overwrite(value));
    forall i | 0 <= i < |t.fetches| && t.fetches[i].inStage.Ready? ensures t.fetches[i].inStage.data == s.copy {
      assert FetchOk(s, i);
    }
  }

  /** No fetch is forgotten, and the publisher gets to its end.  From every reachable state in which
      the published flow is ready, a bounded run of the publisher and of the fetches there are ends
      with the publishing use released, every registered fetch reading the published value, and
      those that hooked their anti-flow having let go; if all have, the release event has fired.
      Then the publisher's block may be written again, and no fetch sees that. */
  lemma PublicationCompletes<T>(value: T, fetchers: nat, moves: seq<Move<T>>) returns (more: seq<Move<T>>)
    requires IsRun(Initial(value, fetchers), moves) && After(Initial(value, fetchers), moves).flowReady
    ensures var s := After(Initial(value, fetchers), moves);
      && IsRun(s, more) && AllCount(more, false) && |more| <= StepsLeft(s)
      && var t := After(s, more);
         && t.pub == Released && |t.fetches| == |s.fetches| == fetchers
         && (forall i :: 0 <= i < fetchers && s.fetches[i].inStage != Unregistered ==>
               && t.fetches[i].inStage.Ready? && t.fetches[i].inStage.data < |t.blocks|
               && t.blocks[t.fetches[i].inStage.data] == t.published
               && (s.fetches[i].antiStage != NoAnti ==> t.fetches[i].antiStage == LetGo))
         && ((forall i :: 0 <= i < fetchers ==>
                s.fetches[i].inStage != Unregistered && s.fetches[i].antiStage != NoAnti) ==> t.releaseTriggered)
         && forall v :: Enabled(t, Overwrite(v)) && t.blocks != [] && StillReads(t, Apply(t, Overwrite(v)), v)
  {
    var s := After(Initial(value, fetchers), moves);
    InitialInvariant(value, fetchers);
    RunKeepsInvariant(Initial(value, fetchers), moves);
    more := Finish(s, false);
    var t := After(s, more);
    forall i | 0 <= i < fetchers && s.fetches[i].inStage != Unregistered
      ensures && t.fetches[i].inStage.Ready? && t.fetches[i].inStage.data < |t.blocks|
              && t.blocks[t.fetches[i].inStage.data] == t.published
              && (s.fetches[i].antiStage != NoAnti ==> t.fetches[i].antiStage == LetGo)
    {
      assert IsThrough(t, s.fetches[i], t.fetches[i], false);
    }
    forall v ensures Enabled(t, Overwrite(v)) && t.blocks != [] && StillReads(t, Apply(t, Overwrite(v)), v) {
      OverwritingIsUnseen(t, v);
    }
    LetGosAtMost(t.fetches);
  }

  /** And from every reachable state whatsoever a bounded run, in which the flow becomes ready and
      the missing fetches are registered, ends with all fetches having read and let go. */
  lemma EverythingCompletes<T>(value: T, fetchers: nat, moves: seq<Move<T>>) returns (more: seq<Move<T>>)
    requires IsRun(Initial(value, fetchers), moves)
    ensures var s := After(Initial(value, fetchers), moves);
      && IsRun(s, more) && AllCount(more, true) && |more| <= StepsLeft(s)
      && var t := After(s, more);
         && t.pub == Released && t.releaseTriggered && |t.fetches| == fetchers
         && forall i :: 0 <= i < fetchers ==>
              && t.fetches[i].antiStage == LetGo && t.fetches[i].inStage.Ready?
              && t.fetches[i].inStage.data < |t.blocks| && t.blocks[t.fetches[i].inStage.data] == t.published
  {
    var s := After(Initial(value, fetchers), moves);
    InitialInvariant(value, fetchers);
    RunKeepsInvariant(Initial(value, fetchers), moves);
    more := Finish(s, true);
    var t := After(s, more);
    forall i | 0 <= i < fetchers ensures t.fetches[i].antiStage == LetGo && t.fetches[i].inStage == Ready(t.copy) {
      assert IsThrough(t, s.fetches[i], t.fetches[i], true);
    }
    LetGosAtMost(t.fetches);
  }
}
