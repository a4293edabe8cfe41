/**
  What a schedule must respect for parallel execution to refine program order.

  A program is a list of tasks.  Each declares the data it reads and the data it may
  write, and is a list of atomic steps that touch nothing else.  A schedule interleaves
  the steps of the running tasks in any way.  If no task starts before all earlier tasks
  it conflicts with are done, every task sees at each of its steps what it would have
  seen in the sequential execution, and the final memory is the sequential one.
  */
module ProgramOrder {

  type Handle = nat
  type Memory = Handle -> int
  type Step = Memory -> Memory

  datatype Task = Task(inputs: set<Handle>, outputs: set<Handle>, steps: seq<Step>)

  datatype Status = Waiting | Running(pc: nat) | Done

  predicate Touches(t: Task, h: Handle) {
    h in t.inputs || h in t.outputs
  }

  /** The step writes only what the task may write, and what it writes depends only on
      what the task may read or write. */
  ghost predicate Confined(t: Task, f: Step) {
    && (forall m: Memory, h: Handle :: h !in t.outputs ==> f(m)(h) == m(h))
    && (forall m: Memory, n: Memory :: (forall h: Handle :: Touches(t, h) ==> m(h) == n(h)) ==>
          forall h: Handle :: h in t.outputs ==> f(m)(h) == f(n)(h))
  }

  ghost predicate WellBehaved(program: seq<Task>) {
    forall t, i :: 0 <= t < |program| && 0 <= i < |program[t].steps| ==> Confined(program[t], program[t].steps[i])
  }

  /** The task conflicts with a task that accesses `h`, which it writes or the other does. */
  predicate ConflictOn(a: Task, b: Task, h: Handle) {
    (h in a.outputs && Touches(b, h)) || (Touches(a, h) && h in b.outputs)
  }

  // ---------------------------------------------------------------- sequential execution

  function RunSteps(steps: seq<Step>, m: Memory): Memory {
    if steps == [] then m else steps[|steps| - 1](RunSteps(steps[..|steps| - 1], m))
  }

  /** Memory before task `k` when the tasks run one after the other. */
  function Sequential(program: seq<Task>, start: Memory, k: nat): Memory
    requires k <= |program|
  {
    if k == 0 then start else RunSteps(program[k - 1].steps, Sequential(program, start, k - 1))
  }

  /** Memory when the sequential execution has done `pc` steps of task `t`. */
  function Midway(program: seq<Task>, start: Memory, t: nat, pc: nat): Memory
    requires t < |program| && pc <= |program[t].steps|
  {
    RunSteps(program[t].steps[..pc], Sequential(program, start, t))
  }

  lemma {:induction false} StepsStayInside(t: Task, n: nat, m: Memory, h: Handle)
    requires n <= |t.steps| && h !in t.outputs
    requires forall i :: 0 <= i < |t.steps| ==> Confined(t, t.steps[i])
    ensures RunSteps(t.steps[..n], m)(h) == m(h)
  {
    if n > 0 {
      assert t.steps[..n][..n - 1] == t.steps[..n - 1];
      StepsStayInside(t, n - 1, m, h);
      assert Confined(t, t.steps[n - 1]);
    }
  }

  /** Tasks that do not write `h` leave it alone. */
  lemma {:induction false} UnwrittenStays(program: seq<Task>, start: Memory, i: nat, k: nat, h: Handle)
    requires WellBehaved(program) && i <= k <= |program|
    requires forall t :: i <= t < k ==> h !in program[t].outputs
    ensures Sequential(program, start, k)(h) == Sequential(program, start, i)(h)
  {
    if i < k {
      UnwrittenStays(program, start, i, k - 1, h);
      var t := program[k - 1];
      assert t.steps[..|t.steps|] == t.steps;
      StepsStayInside(t, |t.steps|, Sequential(program, start, k - 1), h);
    }
  }

  // ---------------------------------------------------------------- schedules

  datatype Execution = Execution(status: seq<Status>, memory: Memory)

  datatype Act = Start(task: nat) | Work(task: nat) | Finish(task: nat)

  predicate Enabled(program: seq<Task>, e: Execution, a: Act) {
    && |e.status| == |program| && a.task < |program|
    && match a
       case Start(t) => e.status[t] == Waiting
       case Work(t) => e.status[t].Running? && e.status[t].pc < |program[t].steps|
       case Finish(t) => e.status[t] == Running(|program[t].steps|)
  }

  function Perform(program: seq<Task>, e: Execution, a: Act): Execution
    requires Enabled(program, e, a)
  {
    match a
    case Start(t) => e.(status := e.status[t := Running(0)])
    case Work(t) =>
      var pc := e.status[t].pc;
      Execution(e.status[t := Running(pc + 1)], program[t].steps[pc](e.memory))
    case Finish(t) => e.(status := e.status[t := Done])
  }

  /** No task has started before all earlier tasks it conflicts with were done. */
  ghost predicate Respects(program: seq<Task>, status: seq<Status>) {
    && |status| == |program|
    && forall u, t, h: Handle ::
         0 <= u < t < |program| && status[t] != Waiting && ConflictOn(program[u], program[t], h) ==> status[u] == Done
  }

  /** Every running task sees on the data it touches what it would see sequentially. */
  ghost predicate SeesItsVersion(program: seq<Task>, start: Memory, e: Execution, t: nat)
    requires t < |program| == |e.status|
  {
    e.status[t].Running? ==>
      && e.status[t].pc <= |program[t].steps|
      && forall h: Handle :: Touches(program[t], h) ==> e.memory(h) == Midway(program, start, t, e.status[t].pc)(h)
  }

  /** A point of the sequential execution that the state of `h` corresponds to. */
  predicate At(program: seq<Task>, status: seq<Status>, h: Handle, k: nat) {
    && k <= |program| == |status|
    && (forall t :: 0 <= t < k && h in program[t].outputs ==> status[t] == Done)
    && (forall t :: k <= t < |program| && h in program[t].outputs ==> status[t] == Waiting)
  }

  ghost predicate Faithful(program: seq<Task>, start: Memory, e: Execution) {
    && |e.status| == |program|
    && (forall t :: 0 <= t < |program| ==> SeesItsVersion(program, start, e, t))
    && (forall h: Handle, k: nat :: At(program, e.status, h, k) ==> e.memory(h) == Sequential(program, start, k)(h))
  }

  lemma StartStaysFaithful(program: seq<Task>, start: Memory, e: Execution, t: nat)
    requires WellBehaved(program) && Enabled(program, e, Start(t))
    requires Faithful(program, start, e) && Respects(program, Perform(program, e, Start(t)).status)
    requires Respects(program, e.status)
    ensures Faithful(program, start, Perform(program, e, Start(t)))
  {
    var n := Perform(program, e, Start(t));
    forall h: Handle | Touches(program[t], h) ensures n.memory(h) == Midway(program, start, t, 0)(h) {
      forall u | 0 <= u < t && h in program[u].outputs ensures e.status[u] == Done {
        assert ConflictOn(program[u], program[t], h) && n.status[t] != Waiting;
      }
      forall u | t <= u < |program| && h in program[u].outputs ensures e.status[u] == Waiting {
        if u > t && e.status[u] != Waiting {
          assert ConflictOn(program[t], program[u], h);
        }
      }
      assert At(program, e.status, h, t);
    }
    forall u | 0 <= u < |program| ensures SeesItsVersion(program, start, n, u) {
      assert SeesItsVersion(program, start, e, u);
    }
    forall h: Handle, k: nat | At(program, n.status, h, k) ensures At(program, e.status, h, k) {
      forall u | k <= u < |program| && h in program[u].outputs ensures e.status[u] == Waiting {
        assert n.status[u] == Waiting;
      }
      forall u | 0 <= u < k && h in program[u].outputs ensures e.status[u] == Done {
        assert n.status[u] == Done;
      }
    }
  }

  lemma WorkStaysFaithful(program: seq<Task>, start: Memory, e: Execution, t: nat)
    requires WellBehaved(program) && Enabled(program, e, Work(t))
    requires Faithful(program, start, e) && Respects(program, e.status)
    ensures Faithful(program, start, Perform(program, e, Work(t)))
  {
    var n, pc := Perform(program, e, Work(t)), e.status[t].pc;
    var f := program[t].steps[pc];
    assert Confined(program[t], f);
    assert SeesItsVersion(program, start, e, t);
    var mid := Midway(program, start, t, pc);
    assert program[t].steps[..pc + 1][..pc] == program[t].steps[..pc];
    assert Midway(program, start, t, pc + 1) == f(mid);
    forall h: Handle | Touches(program[t], h) ensures n.memory(h) == f(mid)(h) {
      if h !in program[t].outputs {
        assert f(e.memory)(h) == e.memory(h) && f(mid)(h) == mid(h);
      }
    }
    forall u | 0 <= u < |program| ensures SeesItsVersion(program, start, n, u) {
      assert SeesItsVersion(program, start, e, u);
      if u != t && n.status[u].Running? {
        forall h: Handle | Touches(program[u], h) ensures n.memory(h) == e.memory(h) {
          if h in program[t].outputs {
            assert ConflictOn(program[t], program[u], h) && ConflictOn(program[u], program[t], h);
            assert false;
          }
        }
      }
    }
    forall h: Handle, k: nat | At(program, n.status, h, k) ensures n.memory(h) == Sequential(program, start, k)(h) {
      assert n.status[t].Running?;
      assert h !in program[t].outputs;
      assert At(program, e.status, h, k) by {
        assert forall u :: 0 <= u < |program| && u != t ==> e.status[u] == n.status[u];
      }
    }
  }

  lemma FinishStaysFaithful(program: seq<Task>, start: Memory, e: Execution, t: nat)
    requires WellBehaved(program) && Enabled(program, e, Finish(t))
    requires Faithful(program, start, e) && Respects(program, e.status)
    ensures Faithful(program, start, Perform(program, e, Finish(t)))
  {
    var n := Perform(program, e, Finish(t));
    forall u | 0 <= u < |program| ensures SeesItsVersion(program, start, n, u) {
      assert SeesItsVersion(program, start, e, u);
    }
    forall h: Handle, k: nat | At(program, n.status, h, k) ensures n.memory(h) == Sequential(program, start, k)(h) {
      if h in program[t].outputs {
        assert t < k;
        assert SeesItsVersion(program, start, e, t);
        assert program[t].steps[..|program[t].steps|] == program[t].steps;
        forall u | t + 1 <= u < k ensures h !in program[u].outputs {
          if h in program[u].outputs {
            assert n.status[u] == Done && ConflictOn(program[t], program[u], h);
            assert false;
          }
        }
        UnwrittenStays(program, start, t + 1, k, h);
      } else {
        assert At(program, e.status, h, k) by {
          assert forall u :: 0 <= u < |program| && u != t ==> e.status[u] == n.status[u];
        }
      }
    }
  }

  /** One act of a schedule that respects the order keeps memory faithful to the
      sequential execution. */
  lemma ActStaysFaithful(program: seq<Task>, start: Memory, e: Execution, a: Act)
    requires WellBehaved(program) && Enabled(program, e, a) && Faithful(program, start, e)
    requires Respects(program, e.status) && Respects(program, Perform(program, e, a).status)
    ensures Faithful(program, start, Perform(program, e, a))
  {
    match a
    case Start(t) => StartStaysFaithful(program, start, e, t);
    case Work(t) => WorkStaysFaithful(program, start, e, t);
    case Finish(t) => FinishStaysFaithful(program, start, e, t);
  }

  function NotStarted(program: seq<Task>, start: Memory): Execution {
    Execution(seq(|program|, _ => Waiting), start)
  }

  lemma FaithfulAtFirst(program: seq<Task>, start: Memory)
    requires WellBehaved(program)
    ensures Faithful(program, start, NotStarted(program, start))
  {
    forall h: Handle, k: nat | At(program, NotStarted(program, start).status, h, k)
      ensures Sequential(program, start, k)(h) == start(h)
    {
      forall t | 0 <= t < k ensures h !in program[t].outputs {
        assert NotStarted(program, start).status[t] == Waiting;
      }
      UnwrittenStays(program, start, 0, k, h);
    }
  }

  /** When all tasks are done, memory is what the sequential execution leaves. */
  lemma AllDoneIsSequential(program: seq<Task>, start: Memory, e: Execution, h: Handle)
    requires Faithful(program, start, e) && forall t :: 0 <= t < |program| ==> e.status[t] == Done
    ensures e.memory(h) == Sequential(program, start, |program|)(h)
  {
    assert At(program, e.status, h, |program|);
  }

  /** Two tasks that conflict never run at the same time. */
  lemma ConflictingTasksExclude(program: seq<Task>, status: seq<Status>, t: nat, u: nat, h: Handle)
    requires Respects(program, status) && t < |program| && u < |program| && t != u
    requires ConflictOn(program[t], program[u], h)
    ensures !(status[t].Running? && status[u].Running?)
  {
    assert ConflictOn(program[u], program[t], h);
  }
}
