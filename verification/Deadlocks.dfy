/**
  When a history of registrations, releases and submissions can get stuck: never, as long as
  what is held and what is waited for go up in some order.
  */
module Deadlocks {
  import opened Cascades
  import opened CounterNet
  import opened Scripts
  import opened UseHistories
  import opened UseProtocol
  import opened Waiting

  lemma {:induction false} OwedBySomebody(claims: seq<Claim>, c: Id) returns (i: nat)
    requires OwedBy(claims, c) > 0
    ensures i < |claims| && Owes(claims[i], c) > 0
  {
    i := |claims| - 1;
    if Owes(claims[i], c) == 0 {
      i := OwedBySomebody(claims[..i], c);
    }
  }

  /** A submission that is done owes nothing. */
  lemma {:induction false} AssembledOwesNothing(b: Books, setups: seq<Job>, c: Id)
    requires AllAssembled(setups) && forall i :: 0 <= i < |setups| ==> SetupOk(b, setups[i])
    ensures OwedInSetups(setups, c) == 0
  {
    if setups != [] {
      assert SetupOk(b, setups[|setups| - 1]);
      AssembledOwesNothing(b, setups[..|setups| - 1], c);
    }
  }

  /** `owner` says which task a use is for.  No counter waits for itself, and whoever holds a
      counter waits, for all uses of its task, only for counters of lower rank. */
  ghost predicate Ranked(s: System, owner: seq<nat>, rank: seq<nat>) {
    && |owner| == |s.claims| && Acyclic(s.books.state, rank)
    && forall i, j, c: Id, d: Id ::
         0 <= i < |s.claims| && 0 <= j < |s.claims| && c < |rank| && d < |rank| ==>
           owner[i] == owner[j] && TriggerOf(s.claims[i], c) && Owes(s.claims[j], d) > 0 ==> rank[c] < rank[d]
  }

  /** Everything the task waits for has triggered. */
  ghost predicate MayGo(s: System, owner: seq<nat>, task: nat)
    requires |owner| == |s.claims|
  {
    forall i, c: Id :: 0 <= i < |s.claims| && owner[i] == task && TriggerOf(s.claims[i], c) ==> Fired(s.books.state, c)
  }

  lemma TriggersExist(b: Books, k: Claim, c: Id)
    requires Consistent(b, k) && TriggerOf(k, c)
    ensures c < |b.held|
  {
  }

  lemma ReleasedOwesNothing(b: Books, k: Claim, c: Id)
    requires Consistent(b, k) && Owes(k, c) > 0
    ensures k.stage != Released
  {
    hide JobOk, Underway, Suits, JobOwes;
  }

  /** Behind every counter that is held up there is a task that may go on and still holds
      something. */
  lemma {:induction false} SomebodyMayGo(s: System, owner: seq<nat>, rank: seq<nat>, c: Id) returns (i: nat)
    requires Conserved(s) && Ranked(s, owner, rank) && AllAssembled(s.setups) && Settled(s.books.state, true)
    requires c < |s.books.held| && !Fired(s.books.state, c)
    ensures i < |s.claims| && s.claims[i].stage != Released && MayGo(s, owner, owner[i])
    decreases if c < |rank| then rank[c] else 0
  {
    hide Balanced, Consistent, SetupOk, Owes, MayGo, TriggerOf;
    SameSize(s.books);
    var d := HolderOf(s, rank, c);
    AssembledOwesNothing(s.books, s.setups, d);
    i := OwedBySomebody(s.claims, d);
    ReleasedOwesNothing(s.books, s.claims[i], d);
    if !MayGo(s, owner, owner[i]) {
      var e := HeldUpBy(s, owner, owner[i]);
      i := SomebodyMayGo(s, owner, rank, e);
    }
  }

  lemma HolderOf(s: System, rank: seq<nat>, c: Id) returns (d: Id)
    requires Balanced(s.books) && Acyclic(s.books.state, rank) && Settled(s.books.state, true)
    requires c < |s.books.held| && !Fired(s.books.state, c)
    ensures d < |s.books.held| && s.books.held[d] > 0 && |rank| == |s.books.held| && rank[d] <= rank[c]
  {
    d := SomebodyHoldsItBack(s.books.state, rank, c);
  }

  lemma HeldUpBy(s: System, owner: seq<nat>, task: nat) returns (c: Id)
    requires Conserved(s) && |owner| == |s.claims| && !MayGo(s, owner, task)
    ensures c < |s.books.held| && !Fired(s.books.state, c)
    ensures exists j :: 0 <= j < |s.claims| && owner[j] == task && TriggerOf(s.claims[j], c)
  {
    hide Balanced, Consistent, SetupOk;
    var j, e: Id :| 0 <= j < |s.claims| && owner[j] == task && TriggerOf(s.claims[j], e) && !Fired(s.books.state, e);
    TriggersExist(s.books, s.claims[j], e);
    c := e;
  }

  lemma StuckMeansReleased(s: System, owner: seq<nat>, rank: seq<nat>)
    requires Conserved(s) && Ranked(s, owner, rank) && AllAssembled(s.setups) && Settled(s.books.state, true)
    requires forall i :: 0 <= i < |s.claims| && s.claims[i].stage != Released ==> !MayGo(s, owner, owner[i])
    ensures forall i :: 0 <= i < |s.claims| ==> s.claims[i].stage == Released
    ensures forall c: Id :: c < |s.books.state.net| ==> Fired(s.books.state, c)
  {
    SameSize(s.books);
    hide Conserved, MayGo, Fired;
    forall c: Id | c < |s.books.state.net| ensures Fired(s.books.state, c) {
      if !Fired(s.books.state, c) {
        var i := SomebodyMayGo(s, owner, rank, c);
      }
    }
    forall i | 0 <= i < |s.claims| ensures s.claims[i].stage == Released {
      if !MayGo(s, owner, owner[i]) {
        var c := HeldUpBy(s, owner, owner[i]);
      }
    }
  }

  /** Deadlock freedom, for every history: as long as uses are held and waited for in some
      order, some cascade can go on, some submission is unfinished, some task has everything it
      waits for and something left to release, or all uses are released and every counter has
      triggered. */
  lemma OrderedHistoriesGoOn(events: seq<Event>, owner: seq<nat>, rank: seq<nat>)
    requires AllObey(INITIAL, events) && Ranked(Final(INITIAL, events), owner, rank)
    ensures var t := Final(INITIAL, events);
      || (exists m :: Enabled(t.books.state, m, true))
      || !AllAssembled(t.setups)
      || (exists i :: 0 <= i < |t.claims| && t.claims[i].stage != Released && MayGo(t, owner, owner[i]))
      || ((forall i :: 0 <= i < |t.claims| ==> t.claims[i].stage == Released) &&
          (forall c: Id :: c < |t.books.state.net| ==> Fired(t.books.state, c)))
  {
    assert Conserved(INITIAL);
    hide AllObey, Final, Conserved, MayGo, Fired;
    HistoryConserves(INITIAL, events);
    var t := Final(INITIAL, events);
    if Settled(t.books.state, true) && AllAssembled(t.setups) &&
       forall i :: 0 <= i < |t.claims| && t.claims[i].stage != Released ==> !MayGo(t, owner, owner[i]) {
      StuckMeansReleased(t, owner, rank);
    }
  }
}
