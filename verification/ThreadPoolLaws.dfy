// The barrier: what holds after every interleaving of the threads' steps.
module ThreadPoolLaws {
  import opened ThreadPool

  datatype Step = Add | Start | TakeBy(w: nat) | FinishBy(w: nat)

  // Jobs are added only while the pool is idle; everything else interleaves freely.
  predicate Enabled(p: Pool, s: Step) {
    match s
    case Add => !p.isRunning
    case Start => true
    case TakeBy(w) => p.IsIdle(w) && p.JobReady()
    case FinishBy(w) => w < |p.workers| && p.workers[w].Busy?
  }

  function Apply(p: Pool, s: Step): Pool
    requires Enabled(p, s) || s.Add?
  {
    match s
    case Add => p.DoJob()
    case Start => p.DoJobs()
    case TakeBy(w) => p.Take(w)
    case FinishBy(w) => p.Finish(w)
  }

  predicate CanRun(p: Pool, ss: seq<Step>)
    decreases |ss|
  {
    ss == [] || (Enabled(p, ss[0]) && CanRun(Apply(p, ss[0]), ss[1..]))
  }

  function Run(p: Pool, ss: seq<Step>): Pool
    requires CanRun(p, ss)
    decreases |ss|
  {
    if ss == [] then p else Run(Apply(p, ss[0]), ss[1..])
  }

  // ----- counting -----

  function Times(tasks: seq<Task>, t: Task): nat {
    if tasks == [] then 0 else Times(tasks[..|tasks| - 1], t) + if tasks[|tasks| - 1] == t then 1 else 0
  }

  function Held(ws: seq<Worker>, t: Task): nat {
    if ws == [] then 0 else (if ws[0] == Busy(t) then 1 else 0) + Held(ws[1..], t)
  }

  function Holders(ws: seq<Worker>): nat {
    if ws == [] then 0 else (if ws[0].Busy? then 1 else 0) + Holders(ws[1..])
  }

  lemma TimesSnoc(tasks: seq<Task>, x: Task, t: Task)
    ensures Times(tasks + [x], t) == Times(tasks, t) + if x == t then 1 else 0
  {
    assert (tasks + [x])[..|tasks|] == tasks;
  }

  lemma {:induction false} HeldUpdate(ws: seq<Worker>, w: nat, x: Worker, t: Task)
    requires w < |ws|
    ensures Held(ws[w := x], t) == Held(ws, t) - (if ws[w] == Busy(t) then 1 else 0) + if x == Busy(t) then 1 else 0
    ensures Holders(ws[w := x]) == Holders(ws) - (if ws[w].Busy? then 1 else 0) + if x.Busy? then 1 else 0
  {
    if w == 0 {
      assert ws[0 := x][1..] == ws[1..];
    } else {
      HeldUpdate(ws[1..], w - 1, x, t);
      assert ws[w := x][1..] == ws[1..][w - 1 := x];
    }
  }

  lemma {:induction false} NobodyHolds(ws: seq<Worker>, t: Task)
    requires Holders(ws) == 0
    ensures Held(ws, t) == 0
    ensures forall w :: 0 <= w < |ws| ==> ws[w].Idle?
  {
    if ws != [] {
      NobodyHolds(ws[1..], t);
      assert forall w :: 0 < w < |ws| ==> ws[w] == ws[1..][w - 1];
    }
  }

  lemma {:induction false} SomeoneHolds(ws: seq<Worker>) returns (w: nat)
    requires Holders(ws) > 0
    ensures w < |ws| && ws[w].Busy?
  {
    if ws[0].Busy? {
      w := 0;
    } else {
      var k := SomeoneHolds(ws[1..]);
      w := k + 1;
    }
  }

  // ----- the barrier's invariant -----

  // How often a task should have been begun: once for every job of a batch reached so far.
  function Due(p: Pool, t: Task): nat {
    if t.batch >= |p.goals| then 0
    else if t.batch == |p.goals| - 1 && p.isRunning then (if t.job < p.index then 1 else 0)
    else if t.job < p.goals[t.batch] then 1 else 0
  }

  ghost predicate Barrier(p: Pool) {
    && p.goal == p.jobs
    && (p.isRunning ==> p.goals != [] && p.goals[|p.goals| - 1] == p.goal && p.index <= p.goal
                        && p.busy == p.goal - p.index + Holders(p.workers) && (p.goal > 0 ==> p.busy > 0))
    && (!p.isRunning ==> Holders(p.workers) == 0)
    && (forall w :: 0 <= w < |p.workers| && p.workers[w].Busy? ==>
          p.isRunning && p.workers[w].task.batch == |p.goals| - 1 && p.workers[w].task.job < p.index)
  }

  ghost predicate Tracked(p: Pool, t: Task) {
    Times(p.begun, t) == Due(p, t) && Times(p.done, t) + Held(p.workers, t) == Times(p.begun, t)
  }

  lemma StepKeeps(p: Pool, s: Step, t: Task)
    requires Barrier(p) && Tracked(p, t) && Enabled(p, s)
    ensures Barrier(Apply(p, s)) && Tracked(Apply(p, s), t)
  {
    hide Times, Held, Holders;
    match s
    case Add =>
    case Start =>
      if !p.isRunning {
        NobodyHolds(p.workers, t);
      }
    case TakeBy(w) =>
      HeldUpdate(p.workers, w, p.Take(w).workers[w], t);
      TimesSnoc(p.begun, p.Take(w).begun[|p.begun|], t);
    case FinishBy(w) =>
      HeldUpdate(p.workers, w, Idle, t);
      TimesSnoc(p.done, p.workers[w].task, t);
      if p.busy == 1 {
        NobodyHolds(p.Finish(w).workers, t);
      }
  }

  lemma {:induction false} RunKeeps(p: Pool, ss: seq<Step>, t: Task)
    requires Barrier(p) && Tracked(p, t) && CanRun(p, ss)
    ensures Barrier(Run(p, ss)) && Tracked(Run(p, ss), t)
    decreases |ss|
  {
    hide Barrier, Tracked, Enabled, Apply;
    if ss != [] {
      StepKeeps(p, ss[0], t);
      RunKeeps(Apply(p, ss[0]), ss[1..], t);
    }
  }

  lemma {:induction false} NewIsIdle(n: nat, t: Task)
    ensures Barrier(NewPool(n)) && Tracked(NewPool(n), t)
  {
    AllIdle(NewPool(n).workers, t);
  }

  lemma {:induction false} AllIdle(ws: seq<Worker>, t: Task)
    requires forall w :: 0 <= w < |ws| ==> ws[w].Idle?
    ensures Holders(ws) == 0 && Held(ws, t) == 0
  {
    if ws != [] {
      AllIdle(ws[1..], t);
    }
  }

  // ----- what that means -----

  /** After any interleaving, a batch that is over has run every job of its list exactly once and nothing else. */
  lemma BatchRunsEachJobOnce(n: nat, ss: seq<Step>, t: Task)
    requires CanRun(NewPool(n), ss)
    ensures var p := Run(NewPool(n), ss);
            t.batch < |p.goals| && !(p.isRunning && t.batch == |p.goals| - 1) ==>
              Times(p.begun, t) == Times(p.done, t) == if t.job < p.goals[t.batch] then 1 else 0
  {
    hide Run, Times, Holders;
    NewIsIdle(n, t);
    RunKeeps(NewPool(n), ss, t);
    var p := Run(NewPool(n), ss);
    if t.batch < |p.goals| && !(p.isRunning && t.batch == |p.goals| - 1) {
      NotHeld(p.workers, t);
    }
  }

  lemma {:induction false} NotHeld(ws: seq<Worker>, t: Task)
    requires forall w :: 0 <= w < |ws| && ws[w].Busy? ==> ws[w].task != t
    ensures Held(ws, t) == 0
  {
    if ws != [] {
      NotHeld(ws[1..], t);
    }
  }

  /** No two batches overlap: whenever a worker can take a job, every task begun in an earlier batch is finished. */
  lemma BatchesDoNotOverlap(n: nat, ss: seq<Step>, w: nat, t: Task)
    requires CanRun(NewPool(n), ss) && Enabled(Run(NewPool(n), ss), TakeBy(w))
    ensures var p := Run(NewPool(n), ss);
            && p.goals != [] && Apply(p, TakeBy(w)).begun == p.begun + [Task(|p.goals| - 1, p.index)]
            && (t.batch < |p.goals| - 1 ==>
                  Times(p.done, t) == Times(p.begun, t) == if t.job < p.goals[t.batch] then 1 else 0)
  {
    hide Run, Times, Holders;
    NewIsIdle(n, t);
    RunKeeps(NewPool(n), ss, t);
    BatchRunsEachJobOnce(n, ss, t);
  }

  /** The waiting thread is let through only when no job is running and every job of every batch is done. */
  lemma WaitMeansDone(n: nat, ss: seq<Step>, t: Task)
    requires CanRun(NewPool(n), ss) && Run(NewPool(n), ss).WaitReturns()
    ensures var p := Run(NewPool(n), ss);
            && (forall w :: 0 <= w < |p.workers| ==> p.workers[w].Idle?)
            && Times(p.done, t) == Times(p.begun, t)
            && (t.batch < |p.goals| && t.job < p.goals[t.batch] ==> Times(p.done, t) == 1)
  {
    hide Run, Times, Held;
    NewIsIdle(n, t);
    RunKeeps(NewPool(n), ss, t);
    var p := Run(NewPool(n), ss);
    if p.isRunning {
      AllIdle(p.workers, t);
    } else {
      NobodyHolds(p.workers, t);
    }
  }

  // ----- progress -----

  // The worker steps the running batch still needs: two for a job not taken, one for a job being done.
  function StepsLeft(p: Pool): int {
    if p.isRunning then 2 * (p.goal - p.index) + Holders(p.workers) else 0
  }

  lemma WorkerStepCounts(p: Pool, s: Step)
    requires Barrier(p) && Enabled(p, s) && (s.TakeBy? || s.FinishBy?)
    ensures StepsLeft(Apply(p, s)) == StepsLeft(p) - 1
  {
    hide Holders;
    match s
    case TakeBy(w) => HeldUpdate(p.workers, w, p.Take(w).workers[w], Task(0, 0));
    case FinishBy(w) => HeldUpdate(p.workers, w, Idle, Task(0, 0));
  }

  // While a batch of at least one job runs on at least one worker, some worker can move.
  lemma SomeWorkerMoves(p: Pool) returns (s: Step)
    requires Barrier(p) && p.isRunning && p.goal > 0 && |p.workers| > 0
    ensures Enabled(p, s) && (s.TakeBy? || s.FinishBy?)
  {
    hide Holders;
    if Holders(p.workers) > 0 {
      var w := SomeoneHolds(p.workers);
      s := FinishBy(w);
    } else {
      NobodyHolds(p.workers, Task(0, 0));
      s := TakeBy(0);
    }
  }

  predicate WorkersOnly(ss: seq<Step>) {
    forall s :: s in ss ==> s.TakeBy? || s.FinishBy?
  }

  lemma {:induction false} WorkersCount(p: Pool, ss: seq<Step>, t: Task)
    requires Barrier(p) && Tracked(p, t) && CanRun(p, ss) && WorkersOnly(ss)
    ensures StepsLeft(Run(p, ss)) == StepsLeft(p) - |ss| && Run(p, ss).goal == p.goal
    ensures |Run(p, ss).workers| == |p.workers|
    decreases |ss|
  {
    hide Barrier, Tracked, StepsLeft;
    if ss != [] {
      StepKeeps(p, ss[0], t);
      WorkerStepCounts(p, ss[0]);
      WorkersCount(Apply(p, ss[0]), ss[1..], t);
    }
  }

  /** A batch of at least one job is over after exactly two worker steps a job, in whatever order the workers take
      them; before that the waiting thread is held and some worker can move. */
  lemma BatchTakesTwoStepsAJob(n: nat, before: seq<Step>, ss: seq<Step>)
    requires n > 0 && CanRun(NewPool(n), before)
    requires var p := Run(NewPool(n), before); !p.isRunning && p.goal > 0 && CanRun(p.DoJobs(), ss)
    requires WorkersOnly(ss)
    ensures var p := Run(NewPool(n), before); var q := Run(p.DoJobs(), ss);
            && |ss| <= 2 * p.goal
            && (q.WaitReturns() <==> |ss| == 2 * p.goal)
            && (|ss| < 2 * p.goal ==> exists s: Step :: (s.TakeBy? || s.FinishBy?) && Enabled(q, s))
  {
    hide Run, CanRun, Holders;
    var t := Task(0, 0);
    NewIsIdle(n, t);
    RunKeeps(NewPool(n), before, t);
    SameWorkers(NewPool(n), before);
    var p := Run(NewPool(n), before);
    StepKeeps(p, Start, t);
    WorkersCount(p.DoJobs(), ss, t);
    RunKeeps(p.DoJobs(), ss, t);
    var q := Run(p.DoJobs(), ss);
    if q.isRunning {
      var s := SomeWorkerMoves(q);
    }
  }

  lemma {:induction false} SameWorkers(p: Pool, ss: seq<Step>)
    requires CanRun(p, ss)
    ensures |Run(p, ss).workers| == |p.workers|
    decreases |ss|
  {
    if ss != [] {
      SameWorkers(Apply(p, ss[0]), ss[1..]);
    }
  }

  // ----- the empty batch -----

  // The same interleavings, but with jobs added at any time.
  predicate CanRunFreely(p: Pool, ss: seq<Step>)
    decreases |ss|
  {
    ss == [] || ((Enabled(p, ss[0]) || ss[0].Add?) && CanRunFreely(Apply(p, ss[0]), ss[1..]))
  }

  function RunFreely(p: Pool, ss: seq<Step>): Pool
    requires CanRunFreely(p, ss)
    decreases |ss|
  {
    if ss == [] then p else RunFreely(Apply(p, ss[0]), ss[1..])
  }

  lemma {:induction false} BelowZeroNeverEnds(p: Pool, ss: seq<Step>)
    requires p.isRunning && p.busy <= 0 && CanRunFreely(p, ss)
    ensures RunFreely(p, ss).isRunning && RunFreely(p, ss).jobs >= p.jobs
    decreases |ss|
  {
    if ss != [] {
      BelowZeroNeverEnds(Apply(p, ss[0]), ss[1..]);
    }
  }

  /** Starting a batch on an empty job list leaves the pool running for ever: once a job is added, no interleaving
      lets the waiting thread through again. */
  lemma EmptyBatchNeverEnds(p: Pool, ss: seq<Step>)
    requires Barrier(p) && !p.isRunning && p.goal == 0 && CanRunFreely(p.DoJobs().DoJob(), ss)
    ensures !RunFreely(p.DoJobs().DoJob(), ss).WaitReturns()
  {
    hide RunFreely;
    BelowZeroNeverEnds(p.DoJobs().DoJob(), ss);
  }
}
