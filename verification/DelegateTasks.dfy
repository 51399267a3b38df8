/** Tasks posted from other threads and the worker that runs them: a bounded queue paired with
    a pipe that wakes the worker. */
module DelegateTasks {

  const ONCE_PROCESS_TASK_LIMIT := 10
  const MAX_TASKS_LIMIT := 1000

  /** What the worker is doing: waiting for the pipe, about to pop after its read, or running
      the popped tasks. */
  datatype Worker = Waiting | HasRead | Running(pending: seq<nat>)

  /** Tasks are numbered in the order of their posting.  `pipe` counts unread records,
      `finished` lists the tasks taken up by ProcessTask, `ran` those whose function it called,
      `waited` the tasks whose poster has stopped waiting. */
  datatype System = System(
    pipe: nat, queue: seq<nat>, worker: Worker, posted: nat, finished: seq<nat>, ran: seq<nat>, waited: set<nat>)

  const START := System(0, [], Waiting, 0, [], [], {})

  /** The steps of all threads; a post and a pop hold the mutex and are atomic, the worker's
      read of the pipe is a step of its own. */
  datatype Event =
    | Post(writeOk: bool)
    | StopWaiting(task: nat)
    | Read
    | Pop
    | RunNext

  function Min(a: nat, b: nat): nat { if a < b then a else b }

  function Step(s: System, e: Event): System {
    match e
    case Post(writeOk) =>
      if |s.queue| > MAX_TASKS_LIMIT || !writeOk then s
      else s.(pipe := s.pipe + 1, queue := s.queue + [s.posted], posted := s.posted + 1)
    case StopWaiting(t) => if t < s.posted then s.(waited := s.waited + {t}) else s
    case Read =>
      // Triggered by the pipe, but a read that finds it empty just fails.
      if !s.worker.Waiting? then s else s.(pipe := if s.pipe > 0 then s.pipe - 1 else 0, worker := HasRead)
    case Pop =>
      if !s.worker.HasRead? then s else
      var n := Min(ONCE_PROCESS_TASK_LIMIT, |s.queue|);
      s.(queue := s.queue[n..], worker := Running(s.queue[..n]))
    case RunNext =>
      if !s.worker.Running? then s
      else if s.worker.pending == [] then s.(worker := Waiting)
      else
        var t := s.worker.pending[0];
        s.(worker := Running(s.worker.pending[1..]), finished := s.finished + [t],
           ran := if t in s.waited then s.ran else s.ran + [t])
  }

  function Run(s: System, es: seq<Event>): System
    decreases |es|
  {
    if es == [] then s else Run(Step(s, es[0]), es[1..])
  }

  function Pending(w: Worker): seq<nat> { if w.Running? then w.pending else [] }

  /** The numbers from 0 to n - 1. */
  function UpTo(n: nat): seq<nat> { seq(n, i => i) }

  ghost predicate Ascending(ns: seq<nat>) { forall i, j | 0 <= i < j < |ns| :: ns[i] < ns[j] }

  ghost predicate Inv(s: System) {
    && |s.queue| <= s.pipe + (if s.worker.HasRead? then 1 else 0)
    && |s.queue| <= MAX_TASKS_LIMIT + 1
    && s.finished + Pending(s.worker) + s.queue == UpTo(s.posted)
    && Ascending(s.ran) && (forall t | t in s.ran :: t in s.finished)
    && (forall t | t in s.finished :: t in s.ran || t in s.waited)
  }

  lemma PostKeeps(s: System)
    requires Inv(s)
    ensures Inv(Step(s, Post(true)))
  {
    var r := Step(s, Post(true));
    if r != s {
      assert UpTo(s.posted + 1) == UpTo(s.posted) + [s.posted];
      assert r.finished + Pending(r.worker) + r.queue == UpTo(s.posted) + [s.posted];
    }
  }

  lemma PopKeeps(s: System)
    requires Inv(s) && s.worker.HasRead?
    ensures Inv(Step(s, Pop))
  {
    var r := Step(s, Pop);
    assert Pending(r.worker) + r.queue == s.queue;
    assert r.finished + Pending(r.worker) + r.queue == s.finished + (Pending(r.worker) + r.queue);
    assert s.finished + [] == s.finished;
  }

  lemma RunNextKeeps(s: System)
    requires Inv(s) && s.worker.Running? && s.worker.pending != []
    ensures Inv(Step(s, RunNext))
  {
    var r := Step(s, RunNext);
    var t := s.worker.pending[0];
    MovedOver(s.finished, s.worker.pending, s.queue);
    FirstIsLatest(s.finished, s.worker.pending, s.queue, s.posted);
    AscendingSnoc(s.ran, t);
    assert Ascending(r.ran) && forall x | x in r.ran :: x in r.finished;
    forall x | x in r.finished ensures x in r.ran || x in r.waited { if x != t { assert x in s.finished; } }
  }

  lemma MovedOver(finished: seq<nat>, pending: seq<nat>, queue: seq<nat>)
    requires pending != []
    ensures (finished + [pending[0]]) + pending[1..] + queue == finished + pending + queue
  {
    assert pending == [pending[0]] + pending[1..];
  }

  /** The first task not yet taken up was posted after all that were. */
  lemma FirstIsLatest(finished: seq<nat>, pending: seq<nat>, queue: seq<nat>, posted: nat)
    requires finished + pending + queue == UpTo(posted) && pending != []
    ensures forall x | x in finished :: x < pending[0]
  {
    var all := finished + pending + queue;
    assert all[|finished|] == pending[0] && UpTo(posted)[|finished|] == |finished|;
    forall x | x in finished ensures x < pending[0] {
      var i :| 0 <= i < |finished| && finished[i] == x;
      assert all[i] == x && UpTo(posted)[i] == i;
    }
  }

  lemma AscendingSnoc(ns: seq<nat>, t: nat)
    requires Ascending(ns) && forall x | x in ns :: x < t
    ensures Ascending(ns + [t])
  {
    var ms := ns + [t];
    forall i, j | 0 <= i < j < |ms| ensures ms[i] < ms[j] {
      if j == |ns| { assert ns[i] in ns; }
    }
  }

  lemma StepKeeps(s: System, e: Event)
    requires Inv(s)
    ensures Inv(Step(s, e))
  {
    match e
    case Post(writeOk) => if writeOk { PostKeeps(s); }
    case Pop => if s.worker.HasRead? { PopKeeps(s); }
    case RunNext => if s.worker.Running? && s.worker.pending != [] { RunNextKeeps(s); }
    case _ =>
  }

  lemma {:induction false} RunKeeps(s: System, es: seq<Event>)
    requires Inv(s)
    ensures Inv(Run(s, es))
    decreases |es|
  {
    if es != [] { StepKeeps(s, es[0]); RunKeeps(Step(s, es[0]), es[1..]); }
  }

  /** No lost wakeup: under every interleaving, whenever the worker waits the unread records
      are at least as many as the queued tasks, so a non-empty queue leaves the pipe readable;
      the queue never exceeds 1001 tasks; and the tasks taken up, popped and queued are all
      the tasks posted, in the order of posting. */
  lemma NoLostWakeup(es: seq<Event>)
    ensures var s := Run(START, es);
            && (s.worker.Waiting? ==> |s.queue| <= s.pipe)
            && (s.worker.Waiting? && s.queue != [] ==> s.pipe > 0)
            && |s.queue| <= MAX_TASKS_LIMIT + 1
            && s.finished + Pending(s.worker) + s.queue == UpTo(s.posted)
  {
    assert UpTo(0) == [];
    RunKeeps(START, es);
  }

  /** In every run each task runs at most once, and tasks run in the order of posting. */
  lemma RunsInOrderOnce(es: seq<Event>)
    ensures var s := Run(START, es);
            Ascending(s.ran) && forall t | t in s.ran :: t in s.finished && t < s.posted
  {
    assert UpTo(0) == [];
    RunKeeps(START, es);
    var s := Run(START, es);
    forall t | t in s.ran ensures t < s.posted {
      assert t in s.finished;
      var i :| 0 <= i < |s.finished| && s.finished[i] == t;
      assert (s.finished + Pending(s.worker) + s.queue)[i] == t;
    }
  }

  // ---------- every accepted task is taken up in time ----------

  /** The pops among the events that find the worker ready to pop. */
  function Rounds(s: System, es: seq<Event>): nat
    decreases |es|
  {
    if es == [] then 0 else
    (if es[0].Pop? && s.worker.HasRead? then 1 else 0) + Rounds(Step(s, es[0]), es[1..])
  }

  /** However posts and other steps interleave, a task with `p` tasks before it in the queue
      has left the queue after p / 10 + 1 rounds of the worker. */
  lemma {:induction false} TakenUpInTime(s: System, es: seq<Event>, p: nat)
    requires Inv(s) && p < |s.queue|
    requires Rounds(s, es) * ONCE_PROCESS_TASK_LIMIT > p
    ensures s.queue[p] !in Run(s, es).queue
    ensures s.queue[p] in Run(s, es).finished + Pending(Run(s, es).worker)
    decreases |es|
  {
    var t := s.queue[p];
    var r := Step(s, es[0]);
    StepKeeps(s, es[0]);
    if es[0].Pop? && s.worker.HasRead? {
      var n := Min(ONCE_PROCESS_TASK_LIMIT, |s.queue|);
      if p < n {
        assert r.worker.pending[p] == t;
        assert t in r.finished + Pending(r.worker);
        StaysTakenUp(r, es[1..], t);
      } else {
        assert r.queue[p - n] == t;
        TakenUpInTime(r, es[1..], p - n);
      }
    } else {
      assert r.queue[p] == t;
      TakenUpInTime(r, es[1..], p);
    }
  }

  lemma {:induction false} StaysTakenUp(s: System, es: seq<Event>, t: nat)
    requires Inv(s) && t in s.finished + Pending(s.worker)
    ensures t !in Run(s, es).queue
    ensures t in Run(s, es).finished + Pending(Run(s, es).worker)
    decreases |es|
  {
    if es == [] {
      var all := s.finished + Pending(s.worker) + s.queue;
      var i :| 0 <= i < |s.finished + Pending(s.worker)| && (s.finished + Pending(s.worker))[i] == t;
      forall j | 0 <= j < |s.queue| ensures s.queue[j] != t {
        var k := |s.finished + Pending(s.worker)| + j;
        assert all[i] == t && all[k] == s.queue[j] && all[i] == i && all[k] == k;
      }
    } else {
      var r := Step(s, es[0]);
      StepKeeps(s, es[0]);
      assert t in r.finished + Pending(r.worker) by {
        if es[0].RunNext? && s.worker.Running? && s.worker.pending != [] {
          assert s.worker.pending == [s.worker.pending[0]] + r.worker.pending;
        }
      }
      StaysTakenUp(r, es[1..], t);
    }
  }

  /** Any accepted task is taken up within 101 rounds. */
  lemma TakenUpWithin101Rounds(s: System, es: seq<Event>, t: nat)
    requires Inv(s) && t in s.queue && Rounds(s, es) >= 101
    ensures t in Run(s, es).finished + Pending(Run(s, es).worker)
  {
    var p :| 0 <= p < |s.queue| && s.queue[p] == t;
    TakenUpInTime(s, es, p);
  }

  // ---------- which tasks run ----------

  /** The states of a run, one before each event and one after the last. */
  ghost predicate Trace(ss: seq<System>, es: seq<Event>) {
    |ss| == |es| + 1 && ss[0] == START && forall i | 0 <= i < |es| :: ss[i + 1] == Step(ss[i], es[i])
  }

  /** Event `i` takes up task `t`. */
  predicate TakesUp(ss: seq<System>, es: seq<Event>, i: nat, t: nat)
    requires i < |es| < |ss|
  {
    es[i].RunNext? && ss[i].worker.Running? && ss[i].worker.pending != [] && ss[i].worker.pending[0] == t
  }

  /** The poster of task `t` stopped waiting for it before event `n`. */
  predicate GivenUp(ss: seq<System>, es: seq<Event>, n: nat, t: nat)
    requires n <= |es| < |ss|
  {
    exists j :: 0 <= j < n && es[j] == StopWaiting(t) && t < ss[j].posted
  }

  lemma {:induction false} WaitedMeans(ss: seq<System>, es: seq<Event>, n: nat, t: nat)
    requires Trace(ss, es) && n <= |es|
    ensures t in ss[n].waited <==> GivenUp(ss, es, n, t)
  {
    if n > 0 {
      WaitedMeans(ss, es, n - 1, t);
      if GivenUp(ss, es, n - 1, t) { var j :| 0 <= j < n - 1 && es[j] == StopWaiting(t) && t < ss[j].posted; assert GivenUp(ss, es, n, t); }
    }
  }

  ghost predicate TakenUp(ss: seq<System>, es: seq<Event>, n: nat, t: nat)
    requires n <= |es| < |ss|
  {
    exists i: nat :: i < n && TakesUp(ss, es, i, t)
  }

  ghost predicate TakenUpWanted(ss: seq<System>, es: seq<Event>, n: nat, t: nat)
    requires n <= |es| < |ss|
  {
    exists i: nat :: i < n && TakesUp(ss, es, i, t) && !GivenUp(ss, es, i, t)
  }

  /** In every run a task has been run exactly if it was taken up and its poster had not stopped
      waiting before that. */
  lemma {:induction false} RunsExactlyWhen(ss: seq<System>, es: seq<Event>, n: nat, t: nat)
    requires Trace(ss, es) && n <= |es|
    ensures t in ss[n].finished <==> TakenUp(ss, es, n, t)
    ensures t in ss[n].ran <==> TakenUpWanted(ss, es, n, t)
  {
    if n > 0 {
      RunsExactlyWhen(ss, es, n - 1, t);
      WaitedMeans(ss, es, n - 1, t);
      StepTakes(ss[n - 1], es[n - 1], t);
      TakenUpSnoc(ss, es, n, t);
    }
  }

  lemma StepTakes(s: System, e: Event, t: nat)
    ensures var takes := e.RunNext? && s.worker.Running? && s.worker.pending != [] && s.worker.pending[0] == t;
            && (t in Step(s, e).finished <==> t in s.finished || takes)
            && (t in Step(s, e).ran <==> t in s.ran || (takes && t !in s.waited))
  {
  }

  lemma TakenUpSnoc(ss: seq<System>, es: seq<Event>, n: nat, t: nat)
    requires 0 < n <= |es| < |ss|
    ensures TakenUp(ss, es, n, t) <==> TakenUp(ss, es, n - 1, t) || TakesUp(ss, es, n - 1, t)
    ensures TakenUpWanted(ss, es, n, t) <==>
              TakenUpWanted(ss, es, n - 1, t) || (TakesUp(ss, es, n - 1, t) && !GivenUp(ss, es, n - 1, t))
  {
    if TakenUp(ss, es, n - 1, t) { var i: nat :| i < n - 1 && TakesUp(ss, es, i, t); assert TakenUp(ss, es, n, t); }
    if TakenUpWanted(ss, es, n - 1, t) {
      var i: nat :| i < n - 1 && TakesUp(ss, es, i, t) && !GivenUp(ss, es, i, t);
      assert TakenUpWanted(ss, es, n, t);
    }
    if TakesUp(ss, es, n - 1, t) { assert TakenUp(ss, es, n, t); }
  }

  /** Every accepted task whose poster is still waiting has been run once 101 rounds have passed and
      the batch that popped it is done. */
  lemma WaitedForRuns(s: System, es: seq<Event>, t: nat)
    requires Inv(s) && t in s.queue && Rounds(s, es) >= 101
    requires t !in Run(s, es).waited && t !in Pending(Run(s, es).worker)
    ensures t in Run(s, es).ran
  {
    TakenUpWithin101Rounds(s, es, t);
    RunKeeps(s, es);
  }

  /** The tasks of a batch that are run. */
  function Wanted(ts: seq<nat>, waited: set<nat>): seq<nat> {
    if ts == [] then [] else (if ts[0] in waited then [] else [ts[0]]) + Wanted(ts[1..], waited)
  }

  function Batch(n: nat): seq<Event> { seq(n, i => RunNext) }

  /** Undisturbed, the worker takes up its whole batch, running those still waited for, in order. */
  lemma {:induction false} BatchRuns(s: System)
    requires s.worker.Running?
    ensures var ts := s.worker.pending;
            Run(s, Batch(|ts| + 1)) ==
            s.(worker := Waiting, finished := s.finished + ts, ran := s.ran + Wanted(ts, s.waited))
    decreases |s.worker.pending|
  {
    var ts := s.worker.pending;
    BatchUnfolds(s, |ts|);
    if ts == [] {
      assert Batch(0) == [] && s.finished + [] == s.finished && s.ran + [] == s.ran;
    } else {
      var r := Step(s, RunNext);
      BatchRuns(r);
      BatchJoins(s.finished, ts);
      BatchJoins(s.ran, Wanted(ts, s.waited));
      if ts[0] !in s.waited { assert s.ran + ([ts[0]] + Wanted(ts[1..], s.waited)) == (s.ran + [ts[0]]) + Wanted(ts[1..], s.waited); }
      assert [] + Wanted(ts[1..], s.waited) == Wanted(ts[1..], s.waited);
    }
  }

  lemma BatchUnfolds(s: System, n: nat)
    ensures Run(s, Batch(n + 1)) == Run(Step(s, RunNext), Batch(n))
  {
    var es := Batch(n + 1);
    assert es[0] == RunNext && es[1..] == Batch(n);
  }

  lemma BatchJoins(before: seq<nat>, ts: seq<nat>)
    ensures ts != [] ==> before + ts == (before + [ts[0]]) + ts[1..]
  {
  }

  /** A task whose poster stopped waiting before the worker came to it never runs. */
  lemma {:induction false} ExpiredNeverRuns(s: System, es: seq<Event>, t: nat)
    requires Inv(s) && t in s.waited && t !in s.finished
    ensures t !in Run(s, es).ran
    decreases |es|
  {
    if es != [] {
      StepKeeps(s, es[0]);
      var r := Step(s, es[0]);
      if t in r.finished {
        assert r.ran == s.ran;
        DoneStaysUnrun(r, es[1..], t);
      } else {
        ExpiredNeverRuns(r, es[1..], t);
      }
    }
  }

  lemma {:induction false} DoneStaysUnrun(s: System, es: seq<Event>, t: nat)
    requires Inv(s) && t in s.finished && t !in s.ran
    ensures t !in Run(s, es).ran
    decreases |es|
  {
    if es != [] {
      StepKeeps(s, es[0]);
      var r := Step(s, es[0]);
      if es[0].RunNext? && s.worker.Running? && s.worker.pending != [] {
        var all := s.finished + s.worker.pending + s.queue;
        var i :| 0 <= i < |s.finished| && s.finished[i] == t;
        assert all[i] == t && all[|s.finished|] == s.worker.pending[0];
      }
      DoneStaysUnrun(r, es[1..], t);
    }
  }

  /** The queue and its pipe as the posting and the worker threads change them. */
  class TaskQueue {
    var tasks: seq<nat>
    var pipe: nat
    var posted: nat

    constructor ()
      ensures tasks == [] && pipe == 0 && posted == 0
    {
      tasks, pipe, posted := [], 0, 0;
    }

    /** `s` with this queue. */
    function In(s: System): System
      reads this
    {
      s.(queue := tasks, pipe := pipe, posted := posted)
    }

    /** PostTask; the worker itself may not post. */
    method PostTask(isWorker: bool, writeOk: bool) returns (ok: bool)
      modifies this
      ensures isWorker ==> !ok && forall s :: In(s) == old(In(s))
      ensures !isWorker ==> forall s :: In(s) == Step(old(In(s)), Post(writeOk))
      ensures ok <==> !isWorker && writeOk && |old(tasks)| <= 1000
      ensures ok ==> tasks == old(tasks) + [old(posted)] && pipe == old(pipe) + 1
    {
      if isWorker {
        return false;
      }
      if |tasks| > MAX_TASKS_LIMIT {
        return false;
      }
      if !writeOk {
        return false;
      }
      pipe := pipe + 1;
      tasks := tasks + [posted];
      posted := posted + 1;
      return true;
    }

    /** PopPendingTaskList. */
    method PopPendingTaskList() returns (popped: seq<nat>)
      modifies this
      ensures popped + tasks == old(tasks)
      ensures |popped| == if |old(tasks)| < 10 then |old(tasks)| else 10
      ensures pipe == old(pipe) && posted == old(posted)
    {
      popped := [];
      var count := 0;
      while count < ONCE_PROCESS_TASK_LIMIT && |tasks| != 0
        invariant count == |popped| <= ONCE_PROCESS_TASK_LIMIT
        invariant popped + tasks == old(tasks)
        invariant pipe == old(pipe) && posted == old(posted)
      {
        var task := tasks[0];
        assert popped + tasks == popped + [task] + tasks[1..];
        popped := popped + [task];
        tasks := tasks[1..];
        count := count + 1;
      }
    }

    /** ProcessTasks: up to ten tasks are popped and run, except those whose posters have stopped
        waiting.  Yields the tasks taken up and those run. */
    method ProcessTasks(waited: set<nat>) returns (popped: seq<nat>, ran: seq<nat>)
      modifies this
      ensures popped + tasks == old(tasks) && |popped| == Min(ONCE_PROCESS_TASK_LIMIT, |old(tasks)|)
      ensures pipe == old(pipe) && posted == old(posted)
      ensures ran == Wanted(popped, waited)
      ensures forall s: System | s.worker == HasRead && s.waited == waited ::
                In(s).(worker := Waiting, finished := s.finished + popped, ran := s.ran + ran)
                == Run(Step(old(In(s)), Pop), Batch(|popped| + 1))
    {
      popped := PopPendingTaskList();
      ran := [];
      assert popped[0..] == popped;
      for i := 0 to |popped|
        invariant popped + tasks == old(tasks) && pipe == old(pipe) && posted == old(posted)
        invariant ran + Wanted(popped[i..], waited) == Wanted(popped, waited)
      {
        assert popped[i..][1..] == popped[i + 1..];
        if popped[i] !in waited {
          assert ran + Wanted(popped[i..], waited) == (ran + [popped[i]]) + Wanted(popped[i + 1..], waited);
          ran := ran + [popped[i]];
        }
      }
      assert popped[|popped|..] == [] && ran + [] == ran;
      assert popped == old(tasks)[..|popped|] && tasks == old(tasks)[|popped|..];
      forall s: System | s.worker == HasRead && s.waited == waited
        ensures In(s).(worker := Waiting, finished := s.finished + popped, ran := s.ran + ran)
                == Run(Step(old(In(s)), Pop), Batch(|popped| + 1))
      {
        BatchRuns(Step(old(In(s)), Pop));
      }
    }

    /** OnDelegateTask up to running the tasks: one record is read, up to ten tasks are popped. */
    method OnDelegateTask() returns (popped: seq<nat>)
      modifies this
      ensures forall s: System | s.worker == Waiting ::
                In(s).(worker := Running(popped)) == Step(Step(old(In(s)), Read), Pop)
      ensures old(|tasks| <= pipe) ==> |tasks| <= pipe
    {
      if pipe > 0 {
        pipe := pipe - 1;
      }
      popped := PopPendingTaskList();
      assert popped == old(tasks)[..|popped|] && tasks == old(tasks)[|popped|..];
    }
  }
}
