/**
  The race between threads that attach actions to an event and the thread that triggers it.

  Any number of threads work on one join counter.  Each has a program counter; one step is
  one atomic access of the source: a load or store of the flag, a subtraction or addition on
  the count, an insertion into the action queue under shared access, an exchange of the
  queue under exclusive access, or one action run off a queue that was taken.  What an
  action does when it runs (it may attach to or decrement this very event) counts as a call
  by another thread.
  */
module EventProtocol {

  type Action = nat

  datatype Pc =
    | Idle
    // attach_or_do_action
    | Loading(action: Action)     // about to load the flag
    | Direct(action: Action)      // saw it set: about to run the action itself
    | Emplacing(action: Action)   // saw it clear: about to put the action into the queue
    | Reloading                   // did so: about to load the flag again
    // _do_actions
    | Exchanging                  // about to exchange the queue for an empty one
    | Draining(rest: seq<Action>, next: nat) // runs what it took; `next` is the place of the first of these
    // decrement_count, make_ready
    | Asserting                   // about to assert that the flag is clear
    | Subtracting                 // about to subtract
    | Storing                     // reached zero: about to set the flag
    // advance_count by one, by a client that sets aside an obligation it holds, or by one that does not
    | Checking(backed: bool)      // about to assert that the flag is clear
    | Adding(backed: bool)        // about to add

  /** `held` counts the decrements clients have yet to make.  `taken`, `attached`, `ran`,
      `order` and `early` record the history: how many actions were taken out of the queue,
      the actions attached by calls so far, those run so far, the places (in the order of
      insertion) of those run off a queue, and how many had been inserted when the flag was
      set. */
  datatype State = State(
    count: nat, triggered: bool, queue: seq<Action>, threads: seq<Pc>, held: nat,
    taken: nat, attached: multiset<Action>, ran: multiset<Action>, order: seq<nat>, early: nat)

  function Initial(count: nat, threads: nat): State {
    State(count, false, [], seq(threads, _ => Idle), count, 0, multiset{}, multiset{}, [], 0)
  }

  function Goto(s: State, i: nat, pc: Pc): State
    requires i < |s.threads|
  {
    s.(threads := s.threads[i := pc])
  }

  // ---------------------------------------------------------------- steps

  datatype Call = Attach(action: Action) | Decrement | Increment(backed: bool)

  /** A thread decrements only what is held.  It should raise the count only while it holds an
      obligation itself, which nobody else can discharge before the call returns; nothing keeps
      it from raising without. */
  predicate CanBegin(s: State, i: nat, c: Call) {
    i < |s.threads| && s.threads[i] == Idle && (c.Decrement? || c == Increment(true) ==> s.held > 0)
  }

  function Begin(s: State, i: nat, c: Call): State
    requires CanBegin(s, i, c)
  {
    match c
    case Attach(a) => Goto(s, i, Loading(a)).(attached := s.attached + multiset{a})
    case Decrement => Goto(s, i, Asserting).(held := s.held - 1)
    case Increment(backed) => Goto(s, i, Checking(backed)).(held := if backed then s.held - 1 else s.held)
  }

  predicate CanStep(s: State, i: nat) {
    i < |s.threads| && s.threads[i] != Idle
  }

  /** The step does not fail an assertion, and does not take the count below zero. */
  predicate StepIsSafe(s: State, i: nat) {
    CanStep(s, i) &&
    match s.threads[i]
    case Asserting | Checking(_) => !s.triggered
    case Subtracting => s.count > 0
    case _ => true
  }

  function Step(s: State, i: nat): State
    requires StepIsSafe(s, i)
  {
    match s.threads[i]
    case Loading(a) => Goto(s, i, if s.triggered then Direct(a) else Emplacing(a))
    case Direct(a) => Goto(s, i, Idle).(ran := s.ran + multiset{a})
    case Emplacing(a) => Goto(s, i, Reloading).(queue := s.queue + [a])
    case Reloading => Goto(s, i, if s.triggered then Exchanging else Idle)
    case Exchanging => Goto(s, i, Draining(s.queue, s.taken)).(queue := [], taken := s.taken + |s.queue|)
    case Draining(rest, next) =>
      if rest == [] then Goto(s, i, Idle)
      else Goto(s, i, Draining(rest[1..], next + 1)).(ran := s.ran + multiset{rest[0]}, order := s.order + [next])
    case Asserting => Goto(s, i, Subtracting)
    case Subtracting => Goto(s, i, if s.count == 1 then Storing else Idle).(count := s.count - 1)
    case Storing => Goto(s, i, Exchanging).(triggered := true, early := s.taken + |s.queue|)
    case Checking(backed) => Goto(s, i, Adding(backed))
    case Adding(backed) => Goto(s, i, Idle).(count := s.count + 1, held := s.held + if backed then 2 else 1)
  }

  // ---------------------------------------------------------------- sums over the threads

  /** How often a thread has the action in its hands. */
  function InHand(pc: Pc, a: Action): nat {
    match pc
    case Loading(b) => if a == b then 1 else 0
    case Direct(b) => if a == b then 1 else 0
    case Emplacing(b) => if a == b then 1 else 0
    case Draining(rest, _) => multiset(rest)[a]
    case _ => 0
  }

  function InHands(threads: seq<Pc>, a: Action): nat {
    if threads == [] then 0 else InHands(threads[..|threads| - 1], a) + InHand(threads[|threads| - 1], a)
  }

  /** Whether the thread still has to make a decrement it took on, or holds one back. */
  function Owes(pc: Pc): nat {
    if pc == Asserting || pc == Subtracting || pc == Checking(true) || pc == Adding(true) then 1 else 0
  }

  function Owed(threads: seq<Pc>): nat {
    if threads == [] then 0 else Owed(threads[..|threads| - 1]) + Owes(threads[|threads| - 1])
  }

  function Stores(pc: Pc): nat {
    if pc == Storing then 1 else 0
  }

  function Storers(threads: seq<Pc>): nat {
    if threads == [] then 0 else Storers(threads[..|threads| - 1]) + Stores(threads[|threads| - 1])
  }

  lemma {:induction false} HandUpdate(threads: seq<Pc>, i: nat, pc: Pc, a: Action)
    requires i < |threads|
    ensures InHands(threads[i := pc], a) + InHand(threads[i], a) == InHands(threads, a) + InHand(pc, a)
    ensures InHand(threads[i], a) <= InHands(threads, a)
  {
    var n := |threads| - 1;
    hide InHand;
    if i == n {
      assert threads[i := pc][..n] == threads[..n];
    } else {
      HandUpdate(threads[..n], i, pc, a);
      assert threads[i := pc][..n] == threads[..n][i := pc];
    }
  }

  lemma {:induction false} CountUpdate(threads: seq<Pc>, i: nat, pc: Pc)
    requires i < |threads|
    ensures Owed(threads[i := pc]) + Owes(threads[i]) == Owed(threads) + Owes(pc)
    ensures Storers(threads[i := pc]) + Stores(threads[i]) == Storers(threads) + Stores(pc)
    ensures Owes(threads[i]) <= Owed(threads) && Stores(threads[i]) <= Storers(threads)
  {
    var n := |threads| - 1;
    hide Owes, Stores;
    if i == n {
      assert threads[i := pc][..n] == threads[..n];
    } else {
      CountUpdate(threads[..n], i, pc);
      assert threads[i := pc][..n] == threads[..n][i := pc];
    }
  }

  lemma {:induction false} AllIdle(threads: seq<Pc>, a: Action)
    requires forall i :: 0 <= i < |threads| ==> threads[i] == Idle
    ensures InHands(threads, a) == 0 && Owed(threads) == 0 && Storers(threads) == 0
  {
    if threads != [] {
      AllIdle(threads[..|threads| - 1], a);
    }
  }

  // ---------------------------------------------------------------- the invariant

  /** The count is what is still owed; it is zero exactly when the flag is set or one thread
      is about to set it. */
  predicate CountOk(s: State) {
    && s.count == s.held + Owed(s.threads)
    && Storers(s.threads) <= 1
    && (s.count == 0 <==> s.triggered || Storers(s.threads) == 1)
    && (s.triggered ==> Storers(s.threads) == 0)
  }

  /** Somebody will still exchange the queue. */
  predicate Committed(pc: Pc) {
    pc == Reloading || pc == Exchanging
  }

  ghost predicate SomebodyCommitted(threads: seq<Pc>) {
    exists i :: 0 <= i < |threads| && Committed(threads[i])
  }

  lemma NowCommitted(threads: seq<Pc>, i: nat)
    requires i < |threads| && Committed(threads[i])
    ensures SomebodyCommitted(threads)
  {
  }

  lemma StillCommitted(threads: seq<Pc>, i: nat, pc: Pc)
    requires i < |threads| && SomebodyCommitted(threads) && !Committed(threads[i])
    ensures SomebodyCommitted(threads[i := pc])
  {
    var j :| 0 <= j < |threads| && Committed(threads[j]);
    assert Committed(threads[i := pc][j]);
  }

  /** Each action attached has run, or is in the queue, or is in the hands of a thread. */
  ghost predicate Accounted(s: State) {
    forall a: Action :: s.attached[a] == s.ran[a] + multiset(s.queue)[a] + InHands(s.threads, a)
  }

  /** If an action sits in the queue of a triggered event, some thread is committed to take
      the queue.  No action runs before the event triggers. */
  ghost predicate QueueOk(s: State) {
    && (s.triggered && s.queue != [] ==> SomebodyCommitted(s.threads))
    && (!s.triggered ==> s.ran == multiset{} && s.taken == 0 && s.order == [])
    && (!s.triggered ==> forall i :: 0 <= i < |s.threads| ==> NotRunning(s.threads[i]))
  }

  predicate NotRunning(pc: Pc) {
    !pc.Direct? && !pc.Draining? && pc != Exchanging
  }

  /** No thread raises the count without holding it. */
  predicate Unbacked(pc: Pc) {
    pc == Checking(false) || pc == Adding(false)
  }

  predicate AllBacked(threads: seq<Pc>) {
    forall i :: 0 <= i < |threads| ==> !Unbacked(threads[i])
  }

  ghost predicate Invariant(s: State) {
    CountOk(s) && Accounted(s) && QueueOk(s) && AllBacked(s.threads)
  }

  /** No assertion of the source fails. */
  lemma AssertionsHold(s: State, i: nat)
    requires Invariant(s) && CanStep(s, i)
    ensures StepIsSafe(s, i)
  {
    CountUpdate(s.threads, i, Idle);
  }

  lemma BeginAccounts(s: State, i: nat, c: Call)
    requires Accounted(s) && CanBegin(s, i, c)
    ensures Accounted(Begin(s, i, c))
  {
    var t := Begin(s, i, c);
    forall a: Action ensures t.attached[a] == t.ran[a] + multiset(t.queue)[a] + InHands(t.threads, a) {
      HandUpdate(s.threads, i, t.threads[i], a);
    }
  }

  predicate Backed(c: Call) {
    c != Increment(false)
  }

  lemma BeginKeepsCount(s: State, i: nat, c: Call)
    requires CountOk(s) && CanBegin(s, i, c) && Backed(c)
    ensures CountOk(Begin(s, i, c))
  {
    CountUpdate(s.threads, i, Begin(s, i, c).threads[i]);
  }

  lemma BeginKeepsQueue(s: State, i: nat, c: Call)
    requires QueueOk(s) && CanBegin(s, i, c)
    ensures QueueOk(Begin(s, i, c))
  {
    hide SomebodyCommitted;
    if s.triggered && s.queue != [] {
      StillCommitted(s.threads, i, Begin(s, i, c).threads[i]);
    }
  }

  lemma BeginKeepsInvariant(s: State, i: nat, c: Call)
    requires Invariant(s) && CanBegin(s, i, c) && Backed(c)
    ensures Invariant(Begin(s, i, c))
  {
    hide Accounted, CountOk, QueueOk;
    BeginKeepsCount(s, i, c);
    BeginAccounts(s, i, c);
    BeginKeepsQueue(s, i, c);
  }

  lemma StepKeepsCount(s: State, i: nat)
    requires CountOk(s) && StepIsSafe(s, i) && !Unbacked(s.threads[i])
    ensures CountOk(Step(s, i))
  {
    CountUpdate(s.threads, i, Step(s, i).threads[i]);
    hide Owed, Storers;
  }

  /** The thread and the queue together have the action as often as before, less the times
      it was run. */
  predicate Passes(s: State, i: nat, t: State, a: Action)
    requires i < |s.threads| && i < |t.threads|
  {
    && t.attached == s.attached && t.threads == s.threads[i := t.threads[i]]
    && t.ran[a] + multiset(t.queue)[a] + InHand(t.threads[i], a) ==
        s.ran[a] + multiset(s.queue)[a] + InHand(s.threads[i], a)
  }

  lemma DrainPasses(s: State, i: nat, a: Action)
    requires StepIsSafe(s, i) && s.threads[i].Draining?
    ensures Passes(s, i, Step(s, i), a)
  {
    var rest := s.threads[i].rest;
    if rest != [] {
      assert rest == [rest[0]] + rest[1..];
    }
  }

  lemma AttachPasses(s: State, i: nat, a: Action)
    requires StepIsSafe(s, i) && (s.threads[i].Loading? || s.threads[i].Direct? || s.threads[i].Emplacing?)
    ensures Passes(s, i, Step(s, i), a)
  {
  }

  lemma StepPasses(s: State, i: nat, a: Action)
    requires StepIsSafe(s, i)
    ensures Passes(s, i, Step(s, i), a)
  {
    match s.threads[i]
    case Draining(_, _) => DrainPasses(s, i, a);
    case Loading(_) | Direct(_) | Emplacing(_) => AttachPasses(s, i, a);
    case _ =>
  }

  lemma StepAccounts(s: State, i: nat)
    requires Accounted(s) && StepIsSafe(s, i)
    ensures Accounted(Step(s, i))
  {
    var t := Step(s, i);
    forall a: Action ensures t.attached[a] == t.ran[a] + multiset(t.queue)[a] + InHands(t.threads, a) {
      StepPasses(s, i, a);
      HandUpdate(s.threads, i, t.threads[i], a);
      hide Step, StepIsSafe, InHand;
    }
  }

  lemma StepKeepsQueue(s: State, i: nat)
    requires CountOk(s) && QueueOk(s) && StepIsSafe(s, i)
    ensures QueueOk(Step(s, i))
  {
    hide CountOk, SomebodyCommitted;
    var t := Step(s, i);
    if t.triggered && t.queue != [] {
      if Committed(t.threads[i]) {
        NowCommitted(t.threads, i);
      } else {
        StillCommitted(s.threads, i, t.threads[i]);
      }
    }
  }

  lemma StepKeepsInvariant(s: State, i: nat)
    requires Invariant(s) && StepIsSafe(s, i)
    ensures Invariant(Step(s, i))
  {
    hide CountOk, Accounted, QueueOk;
    StepKeepsCount(s, i);
    StepAccounts(s, i);
    StepKeepsQueue(s, i);
  }

  // ---------------------------------------------------------------- runs

  datatype Move = Start(thread: nat, call: Call) | Go(thread: nat)

  predicate CanMove(s: State, m: Move) {
    match m
    case Start(i, c) => CanBegin(s, i, c)
    case Go(i) => StepIsSafe(s, i)
  }

  function Moved(s: State, m: Move): State
    requires CanMove(s, m)
  {
    match m
    case Start(i, c) => Begin(s, i, c)
    case Go(i) => Step(s, i)
  }

  predicate IsRun(s: State, moves: seq<Move>)
    decreases |moves|
  {
    moves != [] ==> CanMove(s, moves[0]) && IsRun(Moved(s, moves[0]), moves[1..])
  }

  function After(s: State, moves: seq<Move>): State
    requires IsRun(s, moves)
    decreases |moves|
  {
    if moves == [] then s else After(Moved(s, moves[0]), moves[1..])
  }

  /** Whoever raises the count holds an obligation meanwhile. */
  predicate IsBacked(m: Move) {
    m.Start? ==> Backed(m.call)
  }

  predicate Disciplined(moves: seq<Move>) {
    forall k :: 0 <= k < |moves| ==> IsBacked(moves[k])
  }

  lemma MoveKeepsInvariant(s: State, m: Move)
    requires Invariant(s) && CanMove(s, m) && IsBacked(m)
    ensures Invariant(Moved(s, m))
  {
    match m
    case Start(i, c) => BeginKeepsInvariant(s, i, c);
    case Go(i) => StepKeepsInvariant(s, i);
  }

  lemma InitialInvariant(count: nat, threads: nat)
    requires count > 0
    ensures Invariant(Initial(count, threads))
  {
    forall a: Action ensures InHands(Initial(count, threads).threads, a) == 0 {
      AllIdle(Initial(count, threads).threads, a);
    }
    AllIdle(Initial(count, threads).threads, 0);
  }

  lemma {:induction false} RunKeepsInvariant(s: State, moves: seq<Move>)
    requires Invariant(s) && IsRun(s, moves) && Disciplined(moves)
    ensures Invariant(After(s, moves))
    decreases |moves|
  {
    hide Invariant, CanMove, Moved;
    if moves != [] {
      MoveKeepsInvariant(s, moves[0]);
      RunKeepsInvariant(Moved(s, moves[0]), moves[1..]);
    }
  }

  /** No lost and no duplicated action, for any number of threads, calls and interleavings:
      every action attached has run, or is in the queue, or is in the hands of a thread,
      exactly as often as it was attached.  Nothing runs before the event triggers, every
      thread can always take its next step, and once all calls have returned either the
      event has triggered, the queue is empty and all actions have run, or it has not, and
      all of them are in the queue. */
  lemma NoActionLostOrDuplicated(count: nat, threads: nat, moves: seq<Move>)
    requires count > 0 && IsRun(Initial(count, threads), moves) && Disciplined(moves)
    ensures var s := After(Initial(count, threads), moves);
      && Accounted(s)
      && (!s.triggered ==> s.ran == multiset{})
      && (forall i :: 0 <= i < |s.threads| && s.threads[i] != Idle ==> StepIsSafe(s, i))
      && ((forall i :: 0 <= i < |s.threads| ==> s.threads[i] == Idle) ==>
            && (s.triggered <==> s.held == 0)
            && (if s.triggered then s.queue == [] && s.ran == s.attached else multiset(s.queue) == s.attached))
  {
    InitialInvariant(count, threads);
    RunKeepsInvariant(Initial(count, threads), moves);
    var s := After(Initial(count, threads), moves);
    forall i | 0 <= i < |s.threads| && s.threads[i] != Idle ensures StepIsSafe(s, i) {
      AssertionsHold(s, i);
    }
    if forall i :: 0 <= i < |s.threads| ==> s.threads[i] == Idle {
      AllIdle(s.threads, 0);
      forall a: Action ensures s.attached[a] == s.ran[a] + multiset(s.queue)[a] {
        AllIdle(s.threads, a);
      }
    }
  }

  // ---------------------------------------------------------------- progress

  function Weight(pc: Pc): nat {
    match pc
    case Idle => 0
    case Loading(_) => 6
    case Direct(_) => 1
    case Emplacing(_) => 5
    case Reloading => 3
    case Exchanging => 2
    case Draining(rest, _) => 1 + |rest|
    case Asserting => 5
    case Subtracting => 4
    case Storing => 3
    case Checking(_) => 2
    case Adding(_) => 1
  }

  function Weights(threads: seq<Pc>): nat {
    if threads == [] then 0 else Weights(threads[..|threads| - 1]) + Weight(threads[|threads| - 1])
  }

  lemma {:induction false} WeightUpdate(threads: seq<Pc>, i: nat, pc: Pc)
    requires i < |threads|
    ensures Weights(threads[i := pc]) + Weight(threads[i]) == Weights(threads) + Weight(pc)
  {
    var n := |threads| - 1;
    if i == n {
      assert threads[i := pc][..n] == threads[..n];
    } else {
      WeightUpdate(threads[..n], i, pc);
      assert threads[i := pc][..n] == threads[..n][i := pc];
    }
  }

  /** Every call returns: without new calls, each step uses something up. */
  lemma EveryCallReturns(s: State, i: nat)
    requires StepIsSafe(s, i)
    ensures |Step(s, i).queue| + Weights(Step(s, i).threads) < |s.queue| + Weights(s.threads)
  {
    WeightUpdate(s.threads, i, Step(s, i).threads[i]);
  }

  // ---------------------------------------------------------------- refinement

  /** The event as the rest of the model sees it: attaching is one step, and so are triggering
      (which hands over everything attached) and running an action. */
  datatype Atomic = Atomic(count: nat, triggered: bool, waiting: multiset<Action>, released: multiset<Action>,
      ran: multiset<Action>)

  datatype AtomicStep =
    | Nothing
    | AttachNow(action: Action)
    | Lower
    | Raise
    | Trigger
    | Run(action: Action)

  predicate CanDo(e: Atomic, a: AtomicStep) {
    match a
    case Nothing => true
    case AttachNow(_) => true
    case Lower => e.count > 0 && !e.triggered
    case Raise => e.count > 0 && !e.triggered
    case Trigger => e.count == 0 && !e.triggered
    case Run(a) => e.triggered && a in e.released
  }

  function Do(e: Atomic, a: AtomicStep): Atomic
    requires CanDo(e, a)
  {
    match a
    case Nothing => e
    case AttachNow(a) =>
      if e.triggered then e.(released := e.released + multiset{a}) else e.(waiting := e.waiting + multiset{a})
    case Lower => e.(count := e.count - 1)
    case Raise => e.(count := e.count + 1)
    case Trigger => e.(triggered := true, waiting := multiset{}, released := e.released + e.waiting)
    case Run(a) => e.(released := e.released - multiset{a}, ran := e.ran + multiset{a})
  }

  /** The action is attached already, and its thread will run it. */
  function Running(pc: Pc, a: Action): nat {
    match pc
    case Direct(b) => if a == b then 1 else 0
    case Draining(rest, _) => multiset(rest)[a]
    case _ => 0
  }

  function Runnings(threads: seq<Pc>, a: Action): nat {
    if threads == [] then 0 else Runnings(threads[..|threads| - 1], a) + Running(threads[|threads| - 1], a)
  }

  lemma {:induction false} RunningUpdate(threads: seq<Pc>, i: nat, pc: Pc, a: Action)
    requires i < |threads|
    ensures Runnings(threads[i := pc], a) + Running(threads[i], a) == Runnings(threads, a) + Running(pc, a)
    ensures Running(threads[i], a) <= Runnings(threads, a)
  {
    var n := |threads| - 1;
    hide Running;
    if i == n {
      assert threads[i := pc][..n] == threads[..n];
    } else {
      RunningUpdate(threads[..n], i, pc, a);
      assert threads[i := pc][..n] == threads[..n][i := pc];
    }
  }

  /** The queue of an event that has not triggered waits; that of one that has is as good as
      taken. */
  predicate RepresentsOne(s: State, e: Atomic, a: Action) {
    && e.count == s.count && e.triggered == s.triggered && e.ran[a] == s.ran[a]
    && e.waiting[a] == (if s.triggered then 0 else multiset(s.queue)[a])
    && e.released[a] == Runnings(s.threads, a) + if s.triggered then multiset(s.queue)[a] else 0
  }

  ghost predicate Represents(s: State, e: Atomic) {
    e.count == s.count && e.triggered == s.triggered && forall a: Action :: RepresentsOne(s, e, a)
  }

  /** The atomic step a step of a thread amounts to. */
  function Effect(s: State, i: nat): AtomicStep
    requires CanStep(s, i)
  {
    match s.threads[i]
    case Loading(a) => if s.triggered then AttachNow(a) else Nothing
    case Direct(a) => Run(a)
    case Emplacing(a) => AttachNow(a)
    case Draining(rest, _) => if rest == [] then Nothing else Run(rest[0])
    case Subtracting => Lower
    case Storing => Trigger
    case Adding(_) => Raise
    case _ => Nothing
  }

  /** The protocol implements the atomic event: every step of every thread is one atomic step
      or none. */
  lemma StepRefines(s: State, i: nat, e: Atomic)
    requires Invariant(s) && StepIsSafe(s, i) && Represents(s, e)
    ensures CanDo(e, Effect(s, i)) && Represents(Step(s, i), Do(e, Effect(s, i)))
  {
    var t := Step(s, i);
    EffectIsPossible(s, i, e);
    var f := Do(e, Effect(s, i));
    EffectOnFlag(s, i, e);
    forall a: Action ensures RepresentsOne(t, f, a) {
      assert RepresentsOne(s, e, a);
      RunningUpdate(s.threads, i, t.threads[i], a);
      EffectOnAction(s, i, e, a);
      hide Step, StepIsSafe, Do, Effect, Invariant, Running;
    }
  }

  lemma EffectOnFlag(s: State, i: nat, e: Atomic)
    requires StepIsSafe(s, i) && Represents(s, e) && CanDo(e, Effect(s, i))
    ensures var t, f := Step(s, i), Do(e, Effect(s, i));
      f.count == t.count && f.triggered == t.triggered && t.threads == s.threads[i := t.threads[i]]
  {
  }

  /** The bookkeeping of one action, before and after a step of thread `i`. */
  predicate Agree(s: State, i: nat, e: Atomic, t: State, f: Atomic, a: Action)
    requires i < |s.threads| && i < |t.threads|
  {
    && f.ran[a] == t.ran[a] && f.waiting[a] == (if t.triggered then 0 else multiset(t.queue)[a])
    && f.released[a] + Running(s.threads[i], a) + (if s.triggered then multiset(s.queue)[a] else 0) ==
       e.released[a] + Running(t.threads[i], a) + (if t.triggered then multiset(t.queue)[a] else 0)
  }

  lemma EffectOnAction(s: State, i: nat, e: Atomic, a: Action)
    requires StepIsSafe(s, i) && RepresentsOne(s, e, a) && CanDo(e, Effect(s, i))
    requires !s.triggered ==> NotRunning(s.threads[i])
    ensures Agree(s, i, e, Step(s, i), Do(e, Effect(s, i)), a)
  {
    match s.threads[i]
    case Loading(_) | Direct(_) => RunEffect(s, i, e, a);
    case Draining(_, _) => DrainEffect(s, i, e, a);
    case Emplacing(_) => EmplaceEffect(s, i, e, a);
    case Exchanging | Storing => QueueEffect(s, i, e, a);
    case _ => OtherEffect(s, i, e, a);
  }

  lemma RunEffect(s: State, i: nat, e: Atomic, a: Action)
    requires StepIsSafe(s, i) && RepresentsOne(s, e, a) && CanDo(e, Effect(s, i))
    requires s.threads[i].Loading? || s.threads[i].Direct?
    ensures Agree(s, i, e, Step(s, i), Do(e, Effect(s, i)), a)
  {
  }

  lemma DrainEffect(s: State, i: nat, e: Atomic, a: Action)
    requires StepIsSafe(s, i) && RepresentsOne(s, e, a) && CanDo(e, Effect(s, i))
    requires s.threads[i].Draining?
    ensures Agree(s, i, e, Step(s, i), Do(e, Effect(s, i)), a)
  {
    var rest := s.threads[i].rest;
    if rest != [] {
      DrainOne(rest, a);
    }
  }

  lemma DrainOne(rest: seq<Action>, a: Action)
    requires rest != []
    ensures multiset(rest)[a] == multiset(rest[1..])[a] + if rest[0] == a then 1 else 0
  {
    assert rest == [rest[0]] + rest[1..];
  }

  lemma EmplaceEffect(s: State, i: nat, e: Atomic, a: Action)
    requires StepIsSafe(s, i) && RepresentsOne(s, e, a) && CanDo(e, Effect(s, i)) && s.threads[i].Emplacing?
    ensures Agree(s, i, e, Step(s, i), Do(e, Effect(s, i)), a)
  {
    assert multiset(s.queue + [s.threads[i].action]) == multiset(s.queue) + multiset{s.threads[i].action};
  }

  lemma QueueEffect(s: State, i: nat, e: Atomic, a: Action)
    requires StepIsSafe(s, i) && RepresentsOne(s, e, a) && CanDo(e, Effect(s, i))
    requires s.threads[i] == Exchanging || s.threads[i] == Storing
    requires !s.triggered ==> NotRunning(s.threads[i])
    ensures Agree(s, i, e, Step(s, i), Do(e, Effect(s, i)), a)
  {
  }

  lemma OtherEffect(s: State, i: nat, e: Atomic, a: Action)
    requires StepIsSafe(s, i) && RepresentsOne(s, e, a) && CanDo(e, Effect(s, i)) &&
        Effect(s, i) in {Nothing, Lower, Raise}
    requires !s.threads[i].Loading? && !s.threads[i].Draining? && s.threads[i] != Exchanging
    ensures Agree(s, i, e, Step(s, i), Do(e, Effect(s, i)), a)
  {
  }

  lemma EffectIsPossible(s: State, i: nat, e: Atomic)
    requires Invariant(s) && StepIsSafe(s, i) && Represents(s, e)
    ensures CanDo(e, Effect(s, i))
  {
    hide Accounted;
    CountUpdate(s.threads, i, Idle);
    match s.threads[i]
    case Direct(a) =>
      RunningUpdate(s.threads, i, Idle, a);
      assert RepresentsOne(s, e, a);
    case Draining(rest, _) =>
      if rest != [] {
        RunningUpdate(s.threads, i, Idle, rest[0]);
        assert RepresentsOne(s, e, rest[0]);
        assert rest[0] in multiset(rest);
      }
    case _ =>
  }

  lemma BeginRefines(s: State, i: nat, c: Call, e: Atomic)
    requires CanBegin(s, i, c) && Represents(s, e)
    ensures Represents(Begin(s, i, c), e)
  {
    forall a: Action ensures RepresentsOne(Begin(s, i, c), e, a) {
      assert RepresentsOne(s, e, a);
      RunningUpdate(s.threads, i, Begin(s, i, c).threads[i], a);
    }
  }

  // ---------------------------------------------------------------- the order in which actions run

  /** The thread has actions in its hands that were inserted before the flag was set. */
  predicate DrainsEarly(pc: Pc, early: nat) {
    pc.Draining? && pc.rest != [] && pc.next < early
  }

  /** All early actions are taken in one go, by one thread, which runs them in order. */
  predicate DrainOk(s: State, i: nat)
    requires i < |s.threads|
  {
    var pc := s.threads[i];
    pc.Draining? && pc.rest != [] ==>
      && pc.next + |pc.rest| <= s.taken
      && (pc.next < s.early ==>
            && (forall j :: 0 <= j < |s.threads| && j != i ==> !DrainsEarly(s.threads[j], s.early))
            && (forall y :: y in s.order && y < s.early ==> y < pc.next))
  }

  predicate EarlyInOrder(order: seq<nat>, early: nat) {
    forall a, b :: 0 <= a < b < |order| && order[a] < early && order[b] < early ==> order[a] < order[b]
  }

  ghost predicate OrderOk(s: State) {
    && (s.triggered ==> s.early <= s.taken + |s.queue| && (s.taken < s.early ==> s.taken == 0))
    && (forall y :: y in s.order ==> y < s.taken)
    && (forall i :: 0 <= i < |s.threads| ==> DrainOk(s, i))
    && EarlyInOrder(s.order, s.early)
  }

  lemma StepKeepsOrder(s: State, i: nat)
    requires Invariant(s) && OrderOk(s) && StepIsSafe(s, i)
    ensures OrderOk(Step(s, i))
  {
    TriggeredBeforeStore(s, i);
    hide CountOk, Accounted;
    match s.threads[i]
    case Draining(rest, next) => DrainKeepsOrder(s, i);
    case Exchanging => ExchangeKeepsOrder(s, i);
    case Storing => StoreKeepsOrder(s, i);
    case _ => OtherKeepsOrder(s, i);
  }

  lemma DrainKeepsOrder(s: State, i: nat)
    requires OrderOk(s) && StepIsSafe(s, i) && s.threads[i].Draining?
    ensures OrderOk(Step(s, i))
  {
    var t := Step(s, i);
    assert DrainOk(s, i);
    forall j | 0 <= j < |t.threads| ensures DrainOk(t, j) {
      assert DrainOk(s, j);
    }
    assert forall a :: 0 <= a < |s.order| ==> s.order[a] in s.order;
  }

  lemma ExchangeKeepsOrder(s: State, i: nat)
    requires OrderOk(s) && s.triggered && StepIsSafe(s, i) && s.threads[i] == Exchanging
    ensures OrderOk(Step(s, i))
  {
    var t := Step(s, i);
    forall j | 0 <= j < |t.threads| ensures DrainOk(t, j) {
      assert DrainOk(s, j);
      forall l | 0 <= l < |t.threads| && l != i && s.taken < s.early ensures !DrainsEarly(t.threads[l], t.early) {
        assert DrainOk(s, l);
      }
    }
  }

  lemma StoreKeepsOrder(s: State, i: nat)
    requires QueueOk(s) && OrderOk(s) && !s.triggered && StepIsSafe(s, i) && s.threads[i] == Storing
    ensures OrderOk(Step(s, i))
  {
    var t := Step(s, i);
    forall j | 0 <= j < |t.threads| ensures DrainOk(t, j) {
      assert NotRunning(s.threads[j]);
    }
  }

  lemma OtherKeepsOrder(s: State, i: nat)
    requires OrderOk(s) && StepIsSafe(s, i)
    requires !s.threads[i].Draining? && s.threads[i] != Exchanging && s.threads[i] != Storing
    ensures OrderOk(Step(s, i))
  {
    var t := Step(s, i);
    assert !t.threads[i].Draining?;
    forall j | 0 <= j < |t.threads| ensures DrainOk(t, j) {
      assert DrainOk(s, j);
    }
  }

  lemma BeginKeepsOrder(s: State, i: nat, c: Call)
    requires OrderOk(s) && CanBegin(s, i, c)
    ensures OrderOk(Begin(s, i, c))
  {
    var t := Begin(s, i, c);
    forall j | 0 <= j < |t.threads| ensures DrainOk(t, j) {
      assert DrainOk(s, j);
    }
  }

  lemma {:induction false} RunKeepsOrder(s: State, moves: seq<Move>)
    requires Invariant(s) && OrderOk(s) && IsRun(s, moves) && Disciplined(moves)
    ensures OrderOk(After(s, moves))
    decreases |moves|
  {
    hide Invariant, OrderOk;
    if moves != [] {
      MoveKeepsInvariant(s, moves[0]);
      match moves[0] {
        case Start(i, c) => BeginKeepsOrder(s, i, c);
        case Go(i) => StepKeepsOrder(s, i);
      }
      RunKeepsOrder(Moved(s, moves[0]), moves[1..]);
    }
  }

  lemma TriggeredBeforeStore(s: State, i: nat)
    requires Invariant(s) && StepIsSafe(s, i)
    ensures s.threads[i] == Storing ==> !s.triggered
    ensures s.threads[i] == Exchanging ==> s.triggered
  {
    CountUpdate(s.threads, i, Idle);
  }

  /** The actions inserted before the event triggers run in the order of their insertion. */
  lemma EarlyActionsRunInOrder(count: nat, threads: nat, moves: seq<Move>)
    requires count > 0 && IsRun(Initial(count, threads), moves) && Disciplined(moves)
    ensures var s := After(Initial(count, threads), moves); EarlyInOrder(s.order, s.early)
  {
    InitialInvariant(count, threads);
    RunKeepsOrder(Initial(count, threads), moves);
  }
}
