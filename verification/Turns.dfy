/**
  Where a task is from its submission until it has run: attached to its counter, in a queue, or
  among the tasks that have been run.
  */
module Turns {
  import opened CounterNet
  import opened Dispatches
  import opened UseProtocol

  /** The books, and the tasks run so far, in order. */
  datatype Desk = Desk(books: Books, ran: seq<nat>)

  /** What a thread does next. */
  datatype Turn =
    | SubmitTask(triggers: seq<Id>, task: nat, inPlace: bool) // run it right away if it is ready and that is allowed
    | TakeTask(task: nat)                                     // take a task out of the queue and run it
    | TakeDecrement(target: Id)                               // take a deferred decrement out of the queue and do it
    | Client(op: Op)                                          // anything else that is done to counters

  predicate IsPermitted(d: Desk, turn: Turn) {
    match turn
    case SubmitTask(triggers, _, _) => AllKnown(d.books, triggers)
    case TakeTask(t) => Launch(t) in d.books.state.work
    case TakeDecrement(c) => Alias(c) in d.books.state.work
    case Client(op) => Permitted(d.books, op) && (op.Attach? ==> !op.action.Launch?)
  }

  /** An operation leaves the queue; a deferred decrement is now owed by whoever took it. */
  function TakenOut(b: Books, a: Action): Books {
    Books(State(b.state.net, b.state.work - multiset{a}),
          if a.Launch? then b.held else Posted(b.held, a.target, Entry(b.held, a.target) + 1))
  }

  ghost function After(d: Desk, turn: Turn): Desk {
    match turn
    case SubmitTask(triggers, task, inPlace) =>
      var b := Awaiting(d.books, triggers, true);
      var p := |d.books.held|;
      if inPlace && p < |b.state.net| && b.state.net[p].triggered then Desk(b, d.ran + [task])
      else Desk(Then(b, Attach(p, Launch(task)), true), d.ran)
    case TakeTask(task) => Desk(TakenOut(d.books, Launch(task)), d.ran + [task])
    case TakeDecrement(c) => Desk(Then(TakenOut(d.books, Alias(c)), Drop(c), true), d.ran)
    case Client(op) => Desk(Then(d.books, op, true), d.ran)
  }

  /** How often the task is attached, queued, or has been run. */
  function Whereabouts(d: Desk, t: nat): nat {
    Launches(d.books.state, t) + multiset(d.ran)[t]
  }

  lemma TakingBalances(b: Books, a: Action)
    requires Balanced(b) && a in b.state.work && !a.Decrement?
    ensures var t := TakenOut(b, a);
      && Balanced(t) && |t.held| == |b.held|
      && (a.Alias? ==> a.target < |t.held| && t.held[a.target] == b.held[a.target] + 1)
  {
    var t := TakenOut(b, a);
    forall c | 0 <= c < |b.held| ensures Held(t.state, c) == t.held[c] {
      assert Held(b.state, c) == b.held[c];
    }
  }

  lemma TakingLaunches(b: Books, a: Action, t: nat)
    requires a in b.state.work
    ensures Launches(TakenOut(b, a).state, t) + (if a == Launch(t) then 1 else 0) == Launches(b.state, t)
  {
  }

  lemma {:induction false} DependingLaunchesNothing(b: Books, p: Id, triggers: seq<Id>, t: nat)
    requires Balanced(b) && p < |b.held| && b.held[p] > 0 && AllKnown(b, triggers)
    ensures Launches(DependOn(b, p, triggers, true).state, t) == Launches(b.state, t)
    decreases |triggers|
  {
    hide Balanced, Then, Launches;
    if triggers != [] {
      var raised := Then(b, Raise(p), true);
      var next := Then(raised, Attach(triggers[0], Decrement(p)), true);
      assert triggers[0] in triggers;
      HeldIsLive(b, p);
      ThenBalances(b, Raise(p), true);
      ThenBalances(raised, Attach(triggers[0], Decrement(p)), true);
      ThenLaunches(b, Raise(p), t);
      ThenLaunches(raised, Attach(triggers[0], Decrement(p)), t);
      forall d | d in triggers[1..] ensures d < |next.held| {
        assert d in triggers;
      }
      DependingLaunchesNothing(next, p, triggers[1..], t);
    }
  }

  lemma AwaitingLaunchesNothing(b: Books, triggers: seq<Id>, t: nat)
    requires Balanced(b) && AllKnown(b, triggers)
    ensures Launches(Awaiting(b, triggers, true).state, t) == Launches(b.state, t)
  {
    hide Balanced, Then, Launches, DependOn, Fresh;
    var made, p := Fresh(b, true), |b.held|;
    FreshGrows(b, true);
    FreshLaunchesNothing(b, t);
    assert AllKnown(made, triggers);
    DependOnBalances(made, p, triggers, true);
    DependingLaunchesNothing(made, p, triggers, t);
    ThenLaunches(DependOn(made, p, triggers, true), Drop(p), t);
  }

  lemma FreshLaunchesNothing(b: Books, t: nat)
    requires Balanced(b)
    ensures Launches(Fresh(b, true).state, t) == Launches(b.state, t)
  {
    ThenLaunches(b, Create(1), t);
  }

  /** One turn moves tasks from place to place; only a submission adds one. */
  lemma TurnKeepsTasks(d: Desk, turn: Turn, t: nat)
    requires Balanced(d.books) && IsPermitted(d, turn)
    ensures Balanced(After(d, turn).books)
    ensures Whereabouts(After(d, turn), t) == Whereabouts(d, t) + if turn.SubmitTask? && turn.task == t then 1 else 0
  {
    hide Balanced, Then, Launches, Awaiting;
    match turn
    case SubmitTask(triggers, task, _) =>
      var p := |d.books.held|;
      AwaitingGrows(d.books, triggers, true);
      AwaitingLaunchesNothing(d.books, triggers, t);
      ThenBalances(Awaiting(d.books, triggers, true), Attach(p, Launch(task)), true);
      ThenLaunches(Awaiting(d.books, triggers, true), Attach(p, Launch(task)), t);
    case TakeTask(task) =>
      TakingBalances(d.books, Launch(task));
      TakingLaunches(d.books, Launch(task), t);
    case TakeDecrement(c) =>
      TakingBalances(d.books, Alias(c));
      TakingLaunches(d.books, Alias(c), t);
      ThenBalances(TakenOut(d.books, Alias(c)), Drop(c), true);
      ThenLaunches(TakenOut(d.books, Alias(c)), Drop(c), t);
    case Client(op) =>
      ThenBalances(d.books, op, true);
      ThenLaunches(d.books, op, t);
  }

  ghost predicate AllPermitted(d: Desk, turns: seq<Turn>)
    decreases |turns|
  {
    turns != [] ==> IsPermitted(d, turns[0]) && AllPermitted(After(d, turns[0]), turns[1..])
  }

  ghost function AfterAll(d: Desk, turns: seq<Turn>): Desk
    decreases |turns|
  {
    if turns == [] then d else AfterAll(After(d, turns[0]), turns[1..])
  }

  /** How often the task was submitted. */
  function Submissions(turns: seq<Turn>, t: nat): nat {
    if turns == [] then 0
    else (if turns[0].SubmitTask? && turns[0].task == t then 1 else 0) + Submissions(turns[1..], t)
  }

  lemma {:induction false} TurnsKeepTasks(d: Desk, turns: seq<Turn>, t: nat)
    requires Balanced(d.books) && AllPermitted(d, turns)
    ensures Whereabouts(AfterAll(d, turns), t) == Whereabouts(d, t) + Submissions(turns, t)
    decreases |turns|
  {
    hide Balanced, Whereabouts, IsPermitted, After;
    if turns != [] {
      TurnKeepsTasks(d, turns[0], t);
      TurnsKeepTasks(After(d, turns[0]), turns[1..], t);
    }
  }

  /** No task is lost or run twice.  After any sequence of submissions, of operations taken out of
      queues, and of whatever else threads do to counters, a task is attached, queued, or has been
      run, together exactly as often as it was submitted. */
  lemma EachTaskIsInOnePlace(turns: seq<Turn>, t: nat)
    requires AllPermitted(Desk(Books(State([], multiset{}), []), []), turns)
    ensures var d := AfterAll(Desk(Books(State([], multiset{}), []), []), turns);
      LaunchesIn(d.books.state.net, t) + d.books.state.work[Launch(t)] + multiset(d.ran)[t] == Submissions(turns, t)
  {
    TurnsKeepTasks(Desk(Books(State([], multiset{}), []), []), turns, t);
  }
}
