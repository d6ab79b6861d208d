// The batch thread pool (include/threading/thread_pool.h) as interleaved critical sections: any number of
// workers and jobs, every batch re-running the whole job list.
module ThreadPool {

  // One run of one job: which batch and which place in the job list.
  datatype Task = Task(batch: nat, job: nat)

  datatype Worker = Idle | Busy(task: Task)

  /** The pool's registers and what each worker thread is doing. `goals`, `begun` and `done` are history: each
      batch's number of jobs, and the tasks begun and finished. The job list is never cleared. */
  datatype Pool = Pool(
    jobs: nat, goal: nat, index: nat, busy: int, isRunning: bool, workers: seq<Worker>,
    goals: seq<nat>, begun: seq<Task>, done: seq<Task>)
  {
    function DoJob(): Pool { this.(jobs := jobs + 1, goal := goal + 1) }

    function DoJobs(): Pool {
      if isRunning then this else this.(isRunning := true, index := 0, busy := goal, goals := goals + [goal])
    }

    // What a worker waits for under the lock.
    predicate JobReady() { isRunning && index < goal && jobs > 0 }

    predicate IsIdle(w: nat) { w < |workers| && workers[w].Idle? }

    function Take(w: nat): Pool
      requires IsIdle(w)
    {
      var task := Task(CurrentBatch(goals), index);
      this.(index := index + 1, workers := workers[w := Busy(task)], begun := begun + [task])
    }

    function Finish(w: nat): Pool
      requires w < |workers| && workers[w].Busy?
    {
      this.(busy := busy - 1, isRunning := isRunning && busy != 1,
            workers := workers[w := Idle], done := done + [workers[w].task])
    }

    // What the waiting thread waits for.
    predicate WaitReturns() { !isRunning || jobs == 0 }
  }

  function CurrentBatch(goals: seq<nat>): nat { if goals == [] then 0 else |goals| - 1 }

  function NewPool(workers: nat): Pool {
    Pool(0, 0, 0, 0, false, seq(workers, i => Idle), [], [], [])
  }

  /** The fields the threads share; each method is one critical section. A worker's own job is thread-local. */
  class ThreadPool<Job> {
    var jobs: seq<Job>
    var goal: nat
    var index: nat
    var busy: int
    var isRunning: bool
    ghost var workers: seq<Worker>
    ghost var goals: seq<nat>
    ghost var begun: seq<Task>
    ghost var done: seq<Task>

    ghost function State(): Pool
      reads this
    {
      Pool(|jobs|, goal, index, busy, isRunning, workers, goals, begun, done)
    }

    constructor (n: nat)
      ensures State() == NewPool(n) && jobs == []
    {
      jobs, goal, index, busy, isRunning := [], 0, 0, 0, false;
      workers := seq(n, i => Idle);
      goals, begun, done := [], [], [];
    }

    method DoJob(job: Job)
      modifies this
      ensures State() == old(State()).DoJob() && jobs == old(jobs) + [job]
    {
      goal := goal + 1;
      jobs := jobs + [job];
    }

    method DoJobs()
      modifies this
      ensures State() == old(State()).DoJobs() && jobs == old(jobs)
    {
      if !isRunning {
        isRunning := true;
        index := 0;
        busy := goal;
        goals := goals + [goal];
      }
    }

    // The locked part of the worker loop before a job: nothing to do, or the next job in the list.
    method Take(ghost w: nat) returns (job: seq<Job>)
      requires State().IsIdle(w) && goal <= |jobs|
      modifies this
      ensures jobs == old(jobs)
      ensures if old(State()).JobReady() then State() == old(State()).Take(w) && job == [jobs[old(index)]]
              else State() == old(State()) && job == []
    {
      if !isRunning || index >= goal || jobs == [] {
        return [];
      }
      job := [jobs[index]];
      ghost var task := Task(CurrentBatch(goals), index);
      begun := begun + [task];
      workers := workers[w := Busy(task)];
      index := index + 1;
    }

    // The locked part after a job.
    method Finish(ghost w: nat)
      requires w < |workers| && workers[w].Busy?
      modifies this
      ensures State() == old(State()).Finish(w) && jobs == old(jobs)
    {
      done := done + [workers[w].task];
      workers := workers[w := Idle];
      busy := busy - 1;
      if busy == 0 {
        isRunning := false;
      }
    }
  }
}
