/**
  What can go wrong around the moment an event triggers, and exactly when it cannot: raising a
  count that one does not hold, and the order in which actions run.
  */
module EventRaces {
  import opened EventProtocol

  lemma Prepend(s: State, m: Move, t: State, moves: seq<Move>) returns (more: seq<Move>)
    requires CanMove(s, m) && Moved(s, m) == t && IsRun(t, moves)
    ensures more == [m] + moves && IsRun(s, more) && After(s, more) == After(t, moves)
  {
    more := [m] + moves;
    assert more[1..] == moves;
  }

  lemma {:induction false} Continue(s: State, first: seq<Move>, second: seq<Move>)
    requires IsRun(s, first) && IsRun(After(s, first), second)
    ensures IsRun(s, first + second) && After(s, first + second) == After(After(s, first), second)
    decreases |first|
  {
    hide CanMove, Moved;
    if first == [] {
      assert [] + second == second;
    } else {
      Continue(Moved(s, first[0]), first[1..], second);
      assert (first + second)[1..] == first[1..] + second;
    }
  }

  // ---------------------------------------------------------------- running the other threads to rest

  predicate AtRest(s: State) {
    forall i :: 0 <= i < |s.threads| ==> s.threads[i] == Idle
  }

  /** The moves are made by other threads, and whoever raises the count holds it. */
  predicate Spares(moves: seq<Move>, i: nat) {
    Disciplined(moves) && forall k :: 0 <= k < |moves| ==> moves[k].thread != i
  }

  function Raises(pc: Pc): nat {
    if pc.Checking? || pc.Adding? then 2 else 0
  }

  /** What clients will hold when the calls under way have returned. */
  function Raisers(threads: seq<Pc>): nat {
    if threads == [] then 0 else Raisers(threads[..|threads| - 1]) + Raises(threads[|threads| - 1])
  }

  lemma {:induction false} RaisersUpdate(threads: seq<Pc>, i: nat, pc: Pc)
    requires i < |threads|
    ensures Raisers(threads[i := pc]) + Raises(threads[i]) == Raisers(threads) + Raises(pc)
  {
    var n := |threads| - 1;
    if i == n {
      assert threads[i := pc][..n] == threads[..n];
    } else {
      RaisersUpdate(threads[..n], i, pc);
      assert threads[i := pc][..n] == threads[..n][i := pc];
    }
  }

  lemma {:induction false} NobodyRaises(threads: seq<Pc>)
    requires forall i :: 0 <= i < |threads| ==> threads[i] == Idle
    ensures Raisers(threads) == 0
  {
    if threads != [] {
      NobodyRaises(threads[..|threads| - 1]);
    }
  }

  lemma StepKeepsFuture(s: State, j: nat)
    requires StepIsSafe(s, j) && !Unbacked(s.threads[j])
    ensures var t := Step(s, j);
      t.held + Raisers(t.threads) == s.held + Raisers(s.threads) && t.threads == s.threads[j := t.threads[j]]
  {
    RaisersUpdate(s.threads, j, Step(s, j).threads[j]);
  }

  /** All calls return, whatever else happens. */
  lemma {:induction false} ToRest(s: State, i: nat) returns (moves: seq<Move>)
    requires Invariant(s) && (i < |s.threads| ==> s.threads[i] == Idle)
    ensures IsRun(s, moves) && Spares(moves, i)
    ensures var t := After(s, moves);
      Invariant(t) && AtRest(t) && |t.threads| == |s.threads| && t.held == s.held + Raisers(s.threads)
    decreases |s.queue| + Weights(s.threads)
  {
    hide Invariant, StepIsSafe, Step;
    moves := [];
    if AtRest(s) {
      NobodyRaises(s.threads);
    } else {
      var j :| 0 <= j < |s.threads| && s.threads[j] != Idle;
      AssertionsHold(s, j);
      NobodyUnbacked(s, j);
      EveryCallReturns(s, j);
      StepKeepsInvariant(s, j);
      StepKeepsFuture(s, j);
      moves := ToRest(Step(s, j), i);
      moves := Prepend(s, Go(j), Step(s, j), moves);
    }
  }

  lemma NobodyUnbacked(s: State, j: nat)
    requires Invariant(s) && j < |s.threads|
    ensures !Unbacked(s.threads[j])
  {
  }

  lemma NothingHeldAtRest(s: State)
    requires Invariant(s) && AtRest(s) && s.held == 0
    ensures s.count == 0 && s.triggered
  {
    AllIdle(s.threads, 0);
  }

  lemma BeginLowering(s: State, j: nat)
    requires Invariant(s) && AtRest(s) && j < |s.threads| && s.held > 0
    ensures var t := Begin(s, j, Decrement);
      Invariant(t) && t.held == s.held - 1 && Raisers(t.threads) == 0 && t.threads == s.threads[j := Asserting]
  {
    BeginKeepsInvariant(s, j, Decrement);
    RaisersUpdate(s.threads, j, Asserting);
    NobodyRaises(s.threads);
  }

  /** The other threads discharge everything, and the event triggers. */
  lemma {:induction false} ToTheEnd(s: State, i: nat, j: nat) returns (moves: seq<Move>)
    requires Invariant(s) && AtRest(s) && j < |s.threads| && j != i
    ensures IsRun(s, moves) && Spares(moves, i)
    ensures var t := After(s, moves);
      AtRest(t) && |t.threads| == |s.threads| && t.held == 0 && t.count == 0 && t.triggered
    decreases s.held
  {
    hide Invariant, StepIsSafe, Step;
    if s.held == 0 {
      moves := [];
      NothingHeldAtRest(s);
    } else {
      var t := Begin(s, j, Decrement);
      BeginLowering(s, j);
      var first := ToRest(t, i);
      var second := ToTheEnd(After(t, first), i, j);
      Continue(t, first, second);
      moves := Prepend(s, Start(j, Decrement), t, first + second);
    }
  }

  lemma OthersFinish(s: State, i: nat, j: nat) returns (moves: seq<Move>)
    requires Invariant(s) && i < |s.threads| && s.threads[i] == Idle && j < |s.threads| && j != i
    ensures IsRun(s, moves) && Spares(moves, i)
    ensures var t := After(s, moves);
      AtRest(t) && |t.threads| == |s.threads| && t.held == 0 && t.count == 0 && t.triggered
  {
    hide Invariant, CanMove, Moved;
    var first := ToRest(s, i);
    var second := ToTheEnd(After(s, first), i, j);
    Continue(s, first, second);
    moves := first + second;
  }

  // ---------------------------------------------------------------- a thread the others do not see

  /** The state as it would be if thread `i` were doing nothing. */
  function Without(s: State, i: nat): State
    requires i < |s.threads|
  {
    Goto(s, i, Idle)
  }

  lemma BeginWithout(s: State, i: nat, j: nat, c: Call)
    requires i < |s.threads| && j != i && CanBegin(Without(s, i), j, c)
    ensures CanBegin(s, j, c) && |Begin(s, j, c).threads| == |s.threads| && Begin(s, j, c).threads[i] == s.threads[i]
    ensures Without(Begin(s, j, c), i) == Begin(Without(s, i), j, c)
  {
    assert Begin(s, j, c).threads[i := Idle] == Begin(Without(s, i), j, c).threads;
  }

  lemma StepWithout(s: State, i: nat, j: nat)
    requires i < |s.threads| && j != i && StepIsSafe(Without(s, i), j)
    ensures StepIsSafe(s, j) && |Step(s, j).threads| == |s.threads| && Step(s, j).threads[i] == s.threads[i]
    ensures Without(Step(s, j), i) == Step(Without(s, i), j)
  {
    var pc := Step(s, j).threads[j];
    assert s.threads[j := pc][i := Idle] == s.threads[i := Idle][j := pc];
    match s.threads[j]
    case Draining(_, _) =>
    case _ =>
  }

  lemma MoveWithout(s: State, i: nat, m: Move)
    requires i < |s.threads| && m.thread != i && CanMove(Without(s, i), m)
    ensures CanMove(s, m) && i < |Moved(s, m).threads| && Moved(s, m).threads[i] == s.threads[i]
    ensures Without(Moved(s, m), i) == Moved(Without(s, i), m)
  {
    hide Begin, Step, StepIsSafe, CanBegin, Without;
    match m
    case Start(j, c) => BeginWithout(s, i, j, c);
    case Go(j) => StepWithout(s, i, j);
  }

  /** What the others do, they can do while `i` is in the middle of a call. */
  lemma {:induction false} RunWithout(s: State, i: nat, moves: seq<Move>)
    requires i < |s.threads| && IsRun(Without(s, i), moves)
    requires forall k :: 0 <= k < |moves| ==> moves[k].thread != i
    ensures IsRun(s, moves) && i < |After(s, moves).threads| && After(s, moves).threads[i] == s.threads[i]
    ensures Without(After(s, moves), i) == After(Without(s, i), moves)
    decreases |moves|
  {
    hide CanMove, Moved;
    if moves != [] {
      MoveWithout(s, i, moves[0]);
      RunWithout(Moved(s, moves[0]), i, moves[1..]);
    }
  }

  // ---------------------------------------------------------------- raising what one does not hold

  /** No thread is about to fail an assertion. */
  predicate NothingFails(s: State) {
    forall i :: 0 <= i < |s.threads| && s.threads[i] != Idle ==> StepIsSafe(s, i)
  }

  /** A thread that raises the count while it holds an obligation makes nothing fail, then or
      later. */
  lemma BackedRaiseIsSafe(s: State, i: nat, moves: seq<Move>)
    requires Invariant(s) && CanBegin(s, i, Increment(true))
    requires IsRun(Begin(s, i, Increment(true)), moves) && Disciplined(moves)
    ensures NothingFails(After(Begin(s, i, Increment(true)), moves))
  {
    hide Invariant;
    BeginKeepsInvariant(s, i, Increment(true));
    RunKeepsInvariant(Begin(s, i, Increment(true)), moves);
    var t := After(Begin(s, i, Increment(true)), moves);
    forall j | 0 <= j < |t.threads| && t.threads[j] != Idle ensures StepIsSafe(t, j) {
      AssertionsHold(t, j);
    }
  }

  /** What an unbacked raise can lead to: the flag is set, the count is one, and the decrement
      of what was raised fails. */
  predicate RaisedTooLate(s: State) {
    s.triggered && s.count == 1 && exists j :: 0 <= j < |s.threads| && s.threads[j] == Asserting && !StepIsSafe(s, j)
  }

  /** A thread that raises the count of an untriggered event without holding anything: its
      assertion passes; then the others discharge everything and the event triggers; then the
      count is raised, and its decrement fails. */
  lemma UnbackedRaiseFails(s: State, i: nat, j: nat) returns (moves: seq<Move>)
    requires Invariant(s) && !s.triggered && i < |s.threads| && s.threads[i] == Idle
    requires j < |s.threads| && j != i
    ensures var t := Begin(s, i, Increment(false));
      IsRun(t, moves) && Disciplined(moves) && RaisedTooLate(After(t, moves))
  {
    var t := Begin(s, i, Increment(false));
    var passed := Step(t, i);
    assert Without(passed, i).threads == s.threads;
    hide Invariant, RaisedTooLate, AtRest;
    var others := OthersFinish(s, i, j);
    var last := AfterTheOthers(passed, i, j, others);
    moves := Prepend(t, Go(i), passed, last);
  }

  lemma AfterTheOthers(s: State, i: nat, j: nat, others: seq<Move>) returns (moves: seq<Move>)
    requires i < |s.threads| && s.threads[i] == Adding(false) && j != i
    requires IsRun(Without(s, i), others) && Spares(others, i)
    requires var t := After(Without(s, i), others);
      AtRest(t) && j < |t.threads| && t.held == 0 && t.count == 0 && t.triggered
    ensures IsRun(s, moves) && Disciplined(moves) && RaisedTooLate(After(s, moves))
  {
    RunWithout(s, i, others);
    var over := After(s, others);
    assert Without(over, i).threads[j] == Idle;
    hide RaisedTooLate, AtRest, IsRun, After;
    var last := RaiseAndLower(over, i, j);
    Continue(s, others, last);
    moves := others + last;
  }

  lemma RaiseAndLower(s: State, i: nat, j: nat) returns (moves: seq<Move>)
    requires i < |s.threads| && s.threads[i] == Adding(false) && s.count == 0 && s.held == 0 && s.triggered
    requires j < |s.threads| && j != i && s.threads[j] == Idle
    ensures IsRun(s, moves) && Disciplined(moves) && RaisedTooLate(After(s, moves))
  {
    var t := Step(s, i);
    var u := Begin(t, j, Decrement);
    moves := [];
    moves := Prepend(t, Start(j, Decrement), u, moves);
    moves := Prepend(s, Go(i), t, moves);
    assert u.threads[j] == Asserting;
  }

  /** Exactly the backed calls are safe.  Whatever the state and however many other threads
      there are, as long as there is one: raising the count can make something fail, now or
      later, if and only if the caller has not set aside an obligation of its own. */
  lemma RaiseIsSafeIffBacked(s: State, i: nat, j: nat, backed: bool)
    requires Invariant(s) && CanBegin(s, i, Increment(backed)) && j < |s.threads| && j != i
    ensures backed <==>
      forall moves | IsRun(Begin(s, i, Increment(backed)), moves) && Disciplined(moves) ::
        NothingFails(After(Begin(s, i, Increment(backed)), moves))
  {
    var t := Begin(s, i, Increment(backed));
    if backed {
      forall moves | IsRun(t, moves) && Disciplined(moves) ensures NothingFails(After(t, moves)) {
        BackedRaiseIsSafe(s, i, moves);
      }
    } else if s.triggered {
      assert !StepIsSafe(t, i);
      assert IsRun(t, []) && Disciplined([]) && !NothingFails(After(t, []));
    } else {
      var moves := UnbackedRaiseFails(s, i, j);
      assert !NothingFails(After(t, moves));
    }
  }

  // ---------------------------------------------------------------- overtaking

  /** A thread that is idle attaches an action to an event that has not triggered. */
  lemma AttachQuietly(s: State, i: nat, a: Action) returns (moves: seq<Move>, t: State)
    requires !s.triggered && i < |s.threads| && s.threads[i] == Idle
    ensures IsRun(s, moves) && Disciplined(moves) && After(s, moves) == t
    ensures t == s.(queue := s.queue + [a], attached := s.attached + multiset{a})
  {
    t := s.(queue := s.queue + [a], attached := s.attached + multiset{a});
    var s1 := Begin(s, i, Attach(a));
    var s2 := Step(s1, i);
    var s3 := Step(s2, i);
    assert s3.threads[i := Idle] == s.threads;
    moves := [];
    moves := Prepend(s3, Go(i), t, moves);
    moves := Prepend(s2, Go(i), s3, moves);
    moves := Prepend(s1, Go(i), s2, moves);
    moves := Prepend(s, Start(i, Attach(a)), s1, moves);
  }

  /** A thread that is idle lowers the count by one, and there is more to come. */
  lemma LowerOnce(s: State, i: nat) returns (moves: seq<Move>, t: State)
    requires !s.triggered && i < |s.threads| && s.threads[i] == Idle && s.count > 1 && s.held > 0
    ensures IsRun(s, moves) && Disciplined(moves) && After(s, moves) == t
    ensures t == s.(count := s.count - 1, held := s.held - 1)
  {
    t := s.(count := s.count - 1, held := s.held - 1);
    var s1 := Begin(s, i, Decrement);
    var s2 := Step(s1, i);
    assert s2.threads[i := Idle] == s.threads;
    moves := [];
    moves := Prepend(s2, Go(i), t, moves);
    moves := Prepend(s1, Go(i), s2, moves);
    moves := Prepend(s, Start(i, Decrement), s1, moves);
  }

  /** A thread lowers the count to zero and sets the flag, and has not taken the queue yet. */
  lemma {:induction false} LowerToZero(s: State, i: nat) returns (moves: seq<Move>, t: State)
    requires !s.triggered && i < |s.threads| && s.threads[i] == Idle && 0 < s.count == s.held
    ensures IsRun(s, moves) && Disciplined(moves) && After(s, moves) == t
    ensures t == Goto(s, i, Exchanging).(count := 0, held := 0, triggered := true, early := s.taken + |s.queue|)
    decreases s.count
  {
    if s.count > 1 {
      var first, u := LowerOnce(s, i);
      var second;
      second, t := LowerToZero(u, i);
      Continue(s, first, second);
      moves := first + second;
    } else {
      var s1 := Begin(s, i, Decrement);
      var s2 := Step(s1, i);
      var s3 := Step(s2, i);
      t := Step(s3, i);
      moves := [];
      moves := Prepend(s3, Go(i), t, moves);
      moves := Prepend(s2, Go(i), s3, moves);
      moves := Prepend(s1, Go(i), s2, moves);
      moves := Prepend(s, Start(i, Decrement), s1, moves);
      assert t.threads == s.threads[i := Exchanging];
    }
  }

  /** A thread attaches an action to an event that has triggered, and runs it itself. */
  lemma RunAtOnce(s: State, i: nat, a: Action) returns (moves: seq<Move>, t: State)
    requires s.triggered && i < |s.threads| && s.threads[i] == Idle
    ensures IsRun(s, moves) && Disciplined(moves) && After(s, moves) == t
    ensures t == s.(attached := s.attached + multiset{a}, ran := s.ran + multiset{a})
  {
    t := s.(attached := s.attached + multiset{a}, ran := s.ran + multiset{a});
    var s1 := Begin(s, i, Attach(a));
    var s2 := Step(s1, i);
    assert s2.threads[i := Idle] == s.threads;
    moves := [];
    moves := Prepend(s2, Go(i), t, moves);
    moves := Prepend(s1, Go(i), s2, moves);
    moves := Prepend(s, Start(i, Attach(a)), s1, moves);
  }

  /** There is no order across the two ways to run an action, whatever the count, the number of
      threads and the actions: the call that attached `a` has returned before `b` is attached,
      and yet `b` runs first. */
  lemma LaterActionMayOvertake(count: nat, threads: nat, i: nat, j: nat, a: Action, b: Action)
      returns (before: seq<Move>, since: seq<Move>)
    requires count > 0 && i < threads && j < threads && i != j
    ensures IsRun(Initial(count, threads), before) && Disciplined(before)
    ensures var s := After(Initial(count, threads), before); AtRest(s) && s.attached == multiset{a}
    ensures var s := After(Initial(count, threads), before);
      && IsRun(s, since) && Disciplined(since)
      && After(s, since).ran == multiset{b} && After(s, since).queue == [a]
  {
    var s := Initial(count, threads);
    var s1, s2, s3, lower, direct;
    before, s1 := AttachQuietly(s, i, a);
    lower, s2 := LowerToZero(s1, j);
    direct, s3 := RunAtOnce(s2, i, b);
    Continue(s1, lower, direct);
    since := lower + direct;
  }
}
