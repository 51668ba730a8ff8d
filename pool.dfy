/** The scheduler and its workers: a fixed list of workers sharing one work
    queue of slots. schedule() queues an agent, stop() queues one sentinel
    per worker, and each worker takes slots until it takes a sentinel or a
    consume cycle throws, which it reports to the scheduler. Every method is
    proved against the functions of module WorkPool. */
module Pool {
  import opened Types
  import opened WorkPool

  /** An agent that can be handed to a worker (SchedulableAgent). Its own
      code is not part of this model: a worker records which agent each of
      its consume cycles ran on, and what a cycle throws is a parameter. */
  class SchedulableAgent {
  }

  /** The scheduler's LinkedBlockingQueue of slots, unbounded. */
  class WorkQueue {
    var slots: seq<Slot<SchedulableAgent>>

    constructor()
      ensures slots == []
    {
      slots := [];
    }

    /** put: the slot goes to the tail. */
    method Put(s: Slot<SchedulableAgent>)
      modifies this`slots
      ensures slots == old(slots) + [s]
    {
      slots := slots + [s];
    }

    /** take, on a queue that holds a slot: the head comes off. */
    method Take() returns (s: Slot<SchedulableAgent>)
      requires slots != []
      modifies this`slots
      ensures old(slots) == [s] + slots
    {
      s := slots[0];
      slots := slots[1..];
    }
  }

  /** WorkerImpl. */
  class Worker {
    var scheduler: Scheduler?
    var queue: WorkQueue?
    /** Whether the worker's thread has been created (thread != null). */
    var started: bool
    /** The agents whose consume cycle this worker has run, in order. */
    ghost var consumed: seq<SchedulableAgent>

    constructor()
      ensures scheduler == null && queue == null && !started && consumed == []
    {
      scheduler := null;
      queue := null;
      started := false;
      consumed := [];
    }

    method SetScheduler(s: Scheduler)
      modifies this`scheduler
      ensures scheduler == s
    {
      scheduler := s;
    }

    method SetQueue(q: WorkQueue)
      modifies this`queue
      ensures queue == q
    {
      queue := q;
    }

    /** start(): refused once the thread exists; otherwise the thread is
        created (and started, which is not part of this model). */
    method Start() returns (r: Outcome)
      modifies this`started
      ensures r == if old(started) then Fail(RuntimeException(WorkerAlreadyStarted)) else Pass
      ensures started
    {
      if started {
        return Fail(RuntimeException(WorkerAlreadyStarted));
      }
      started := true;
      r := Pass;
    }

    /** run(), on a worker wired by its scheduler to the scheduler's queue:
        WorkPool.Run from the queue as it is, escape(j) being what the j-th
        consume cycle throws. An escaped exception is reported through
        signalError, which records it and queues one sentinel per worker. */
    method Run(escape: nat -> Option<Error>) returns (exit: Exit)
      requires scheduler != null && queue == scheduler.workQueue
      modifies this`consumed, queue`slots, scheduler`errors
      ensures var d := WorkPool.Run(old(queue.slots), escape, 0);
        && exit == d.exit
        && consumed == old(consumed) + d.consumed
        && scheduler.errors == old(scheduler.errors) + (if d.exit.Escaped? then [d.exit.error] else [])
        && queue.slots == d.rest + (if d.exit.Escaped? then Sentinels(|scheduler.workers|) else [])
    {
      ghost var d0 := WorkPool.Run(queue.slots, escape, 0);
      ghost var c0 := consumed;
      ghost var e0 := scheduler.errors;
      ghost var done: seq<SchedulableAgent> := [];
      var k := 0;
      var next: Option<Exit> := None;
      while next.None?
        invariant scheduler != null && queue == scheduler.workQueue
        invariant next.None? ==> Pending(escape, d0, c0, e0, done, k)
        invariant next.Some? ==> Finished(d0, c0, e0, next.value)
        decreases if next.None? then |queue.slots| + 1 else 0
      {
        next, done, k := Step(escape, d0, c0, e0, done, k);
      }
      exit := next.value;
    }

    /** A run that started from d0 = WorkPool.Run of the queue, with log c0
        and errors e0, has run the cycles of done and goes on k cycles in. */
    ghost predicate Pending(escape: nat -> Option<Error>, d0: Drain<SchedulableAgent>, c0: seq<SchedulableAgent>,
                            e0: seq<Error>, done: seq<SchedulableAgent>, k: nat)
      reads this`consumed, this`queue, queue, this`scheduler, scheduler
    {
      && queue != null && scheduler != null
      && k == |done| && consumed == c0 + done && scheduler.errors == e0
      && d0 == Resume(done, WorkPool.Run(queue.slots, escape, k))
    }

    /** A run that started from d0, with log c0 and errors e0, has ended as d0 says. */
    ghost predicate Finished(d0: Drain<SchedulableAgent>, c0: seq<SchedulableAgent>, e0: seq<Error>, exit: Exit)
      reads this`consumed, this`queue, queue, this`scheduler, scheduler
    {
      && queue != null && scheduler != null
      && exit == d0.exit
      && consumed == c0 + d0.consumed
      && scheduler.errors == e0 + (if d0.exit.Escaped? then [d0.exit.error] else [])
      && queue.slots == d0.rest + (if d0.exit.Escaped? then Sentinels(|scheduler.workers|) else [])
    }

    /** One turn of run()'s loop: take a slot, and either end the run or
        consume the agent's message and go on. */
    method Step(escape: nat -> Option<Error>, ghost d0: Drain<SchedulableAgent>, ghost c0: seq<SchedulableAgent>,
                ghost e0: seq<Error>, ghost done: seq<SchedulableAgent>, k: nat)
      returns (next: Option<Exit>, ghost done': seq<SchedulableAgent>, k': nat)
      requires scheduler != null && queue == scheduler.workQueue
      requires Pending(escape, d0, c0, e0, done, k)
      modifies this`consumed, queue`slots, scheduler`errors
      ensures next.None? ==> Pending(escape, d0, c0, e0, done', k') && |queue.slots| < old(|queue.slots|)
      ensures next.Some? ==> Finished(d0, c0, e0, next.value)
    {
      if queue.slots == [] {
        // take() would wait here for a producer
        return Some(Waiting), done, k;
      }
      ghost var q := queue.slots;
      var slot := queue.Take();
      if slot.Sentinel? {
        return Some(Closed), done, k;
      }
      consumed := consumed + [slot.agent];
      var thrown := escape(k);
      if thrown.Some? {
        scheduler.SignalError(this, thrown.value);
        return Some(Escaped(thrown.value)), done, k;
      }
      ResumeStep(d0, done, q, escape, k);
      next, done', k' := None, done + [slot.agent], k + 1;
    }
  }

  /** Scheduler. */
  class Scheduler {
    var workers: seq<Worker>
    const workQueue: WorkQueue
    var errors: seq<Error>

    /** Every worker is its own object, bound to this scheduler and its queue. */
    ghost predicate Valid()
      reads this`workers, workers`scheduler, workers`queue
    {
      && (forall i, j :: 0 <= i < j < |workers| ==> workers[i] != workers[j])
      && (forall w :: w in workers ==> w.scheduler == this && w.queue == workQueue)
    }

    /** Scheduler(provider, config) with config's thread count n > 0: n new
        workers, none started, an empty queue, no error. */
    constructor(numOfThreads: int)
      requires numOfThreads > 0
      ensures |workers| == numOfThreads && Valid()
      ensures forall w :: w in workers ==> fresh(w) && !w.started && w.consumed == []
      ensures fresh(workQueue) && workQueue.slots == [] && errors == []
    {
      workQueue := new WorkQueue();
      workers := [];
      errors := [];
      new;
      var i := 0;
      while i < numOfThreads
        invariant 0 <= i <= numOfThreads && |workers| == i && Valid()
        invariant forall w :: w in workers ==> fresh(w) && !w.started && w.consumed == []
        invariant fresh(workQueue) && workQueue.slots == [] && errors == []
      {
        AddNewWorker();
        i := i + 1;
      }
    }

    /** The Scheduler constructor, which throws for a thread count of zero
        or less. */
    static method New(numOfThreads: int) returns (r: Result<Scheduler>)
      ensures r.Err? <==> numOfThreads <= 0
      ensures r.Err? ==> r.error == RuntimeException(BadThreadCount)
      ensures r.Ok? ==> && fresh(r.value) && r.value.Valid()
                        && r.value.GetNumOfThreads() == numOfThreads
                        && fresh(r.value.workQueue) && r.value.workQueue.slots == [] && r.value.errors == []
                        && forall w :: w in r.value.workers ==> fresh(w) && !w.started && w.consumed == []
    {
      if numOfThreads <= 0 {
        return Err(RuntimeException(BadThreadCount));
      }
      var s := new Scheduler(numOfThreads);
      r := Ok(s);
    }

    /** addNewWorker: a new worker, bound to this scheduler and its queue, is
        added at the end. */
    method AddNewWorker()
      requires Valid()
      modifies this`workers
      ensures |workers| == |old(workers)| + 1 && workers[..|old(workers)|] == old(workers)
      ensures fresh(workers[|old(workers)|]) && !workers[|old(workers)|].started
      ensures workers[|old(workers)|].consumed == []
      ensures Valid()
    {
      var w := new Worker();
      w.SetScheduler(this);
      w.SetQueue(workQueue);
      workers := workers + [w];
    }

    /** getNumOfThreads. */
    function GetNumOfThreads(): (n: nat)
      reads this`workers
      ensures n == |workers|
    {
      |workers|
    }

    /** signalError(worker, e): the error is recorded, then stop(). */
    method SignalError(worker: Worker, e: Error)
      modifies this`errors, workQueue`slots
      ensures errors == old(errors) + [e]
      ensures workQueue.slots == old(workQueue.slots) + Sentinels(|workers|)
    {
      errors := errors + [e];
      Stop();
    }

    /** start(): start() on each worker in list order; a worker already
        started throws, and the workers after it are not started. */
    method Start() returns (r: Outcome)
      requires Valid()
      modifies workers`started
      ensures r.Pass? <==> forall j :: 0 <= j < |workers| ==> !old(workers[j].started)
      ensures r.Fail? ==> r == Fail(RuntimeException(WorkerAlreadyStarted))
      // a worker is started now if it was, or if every worker before it was not
      ensures forall j :: 0 <= j < |workers| ==>
        workers[j].started == (old(workers[j].started) || forall l :: 0 <= l < j ==> !old(workers[l].started))
    {
      var i := 0;
      while i < |workers|
        invariant 0 <= i <= |workers|
        invariant forall j :: 0 <= j < i ==> workers[j].started && !old(workers[j].started)
        invariant forall j :: i <= j < |workers| ==> workers[j].started == old(workers[j].started)
      {
        r := workers[i].Start();
        if r.Fail? {
          return;
        }
        i := i + 1;
      }
      r := Pass;
    }

    /** stop(): one sentinel per worker at the tail of the queue. */
    method Stop()
      modifies workQueue`slots
      ensures workQueue.slots == old(workQueue.slots) + Sentinels(|workers|)
    {
      var i := 0;
      while i < |workers|
        invariant 0 <= i <= |workers|
        invariant workQueue.slots == old(workQueue.slots) + Sentinels(i)
      {
        workQueue.Put(Sentinel);
        assert Sentinels<SchedulableAgent>(i + 1) == Sentinels(i) + [Sentinel];
        i := i + 1;
      }
    }

    /** schedule(agent): one slot for the agent at the tail of the queue. */
    method Schedule(agent: SchedulableAgent)
      modifies workQueue`slots
      ensures workQueue.slots == old(workQueue.slots) + [Work(agent)]
    {
      workQueue.Put(Work(agent));
    }
  }
}
