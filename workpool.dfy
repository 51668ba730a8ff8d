/** The scheduler's shared work queue and one worker's run over it, as values.
    A slot carries an agent to run one consume cycle of, or is the sentinel
    (a slot with a null agent) that tells the worker taking it to exit. The
    Worker and Scheduler classes in module Pool are proved against these
    functions. The agent type A is left open. */
module WorkPool {
  import opened Types

  /** Slot: Sentinel is `new Slot(null)`. */
  datatype Slot<A> = Sentinel | Work(agent: A)

  /** How a worker's run ends: it took a sentinel, a consume cycle threw, or
      the queue is empty and take() waits for a producer. */
  datatype Exit = Closed | Escaped(error: Error) | Waiting

  /** A run: the agents whose consume cycle it ran, in order, the slots it left
      queued, and how it ended. */
  datatype Drain<A> = Drain(consumed: seq<A>, rest: seq<Slot<A>>, exit: Exit)

  /** The slots that schedule() puts for the agents of xs, in order. */
  function Slots<A>(xs: seq<A>): seq<Slot<A>> {
    seq(|xs|, i requires 0 <= i < |xs| => Work(xs[i]))
  }

  /** The n sentinels that stop() puts for n workers. */
  function Sentinels<A>(n: nat): seq<Slot<A>> {
    seq(n, i => Sentinel)
  }

  /** The number of sentinels in a queue. */
  function SentinelCount<A>(q: seq<Slot<A>>): nat {
    if q == [] then 0 else (if q[0].Sentinel? then 1 else 0) + SentinelCount(q[1..])
  }

  /** The sentinel a Closed run takes, none otherwise. */
  function Taken<A>(exit: Exit): seq<Slot<A>> {
    if exit.Closed? then [Sentinel] else []
  }

  /** WorkerImpl.run on queue q, k consume cycles into the run: escape(j) is
      what the j-th consume cycle of the run throws, if it throws. The worker
      takes slots from the head; a sentinel ends the run, an agent gets one
      consume cycle, and an exception escaping it ends the run after that
      slot. An empty queue ends the model's run where take() would wait.
      - the slots taken are the consumed agents' slots, then the sentinel when
        the run closed, and the rest of the queue stays as it was;
      - no cycle before the last one threw, and an escaped run's last one did;
      - a run that waits has taken the whole queue, and it held no sentinel. */
  function Run<A>(q: seq<Slot<A>>, escape: nat -> Option<Error>, k: nat): (d: Drain<A>)
    ensures q == Slots(d.consumed) + Taken(d.exit) + d.rest
    ensures d.exit.Escaped? ==> |d.consumed| >= 1 && escape(k + |d.consumed| - 1) == Some(d.exit.error)
    ensures forall j :: k <= j < k + |d.consumed| - (if d.exit.Escaped? then 1 else 0) ==> escape(j).None?
    ensures d.exit.Waiting? ==> d.rest == [] && Sentinel !in q
    decreases |q|
  {
    if q == [] then Drain([], [], Waiting)
    else match q[0]
      case Sentinel => Drain([], q[1..], Closed)
      case Work(a) =>
        if escape(k).Some? then Drain([a], q[1..], Escaped(escape(k).value))
        else
          var d := Run(q[1..], escape, k + 1);
          assert Slots([a] + d.consumed) == [Work(a)] + Slots(d.consumed);
          d.(consumed := [a] + d.consumed)
  }

  /** One slot taken: an agent whose cycle does not throw adds itself to the
      front of what the rest of the run consumes. */
  lemma RunStep<A>(q: seq<Slot<A>>, escape: nat -> Option<Error>, k: nat)
    requires q != [] && q[0].Work? && escape(k).None?
    ensures var d := Run(q[1..], escape, k + 1);
      Run(q, escape, k) == d.(consumed := [q[0].agent] + d.consumed)
  {
  }

  /** A run resumed after the agents done: their cycles come first. */
  function Resume<A>(done: seq<A>, d: Drain<A>): Drain<A> {
    d.(consumed := done + d.consumed)
  }

  /** A run that has consumed done and reached queue q, k cycles in, goes on
      with q's tail once the agent at q's head has run without throwing. */
  lemma ResumeStep<A>(d0: Drain<A>, done: seq<A>, q: seq<Slot<A>>, escape: nat -> Option<Error>, k: nat)
    requires d0 == Resume(done, Run(q, escape, k))
    requires q != [] && q[0].Work? && escape(k).None?
    ensures d0 == Resume(done + [q[0].agent], Run(q[1..], escape, k + 1))
  {
    RunStep(q, escape, k);
    var d := Run(q[1..], escape, k + 1);
    assert done + ([q[0].agent] + d.consumed) == (done + [q[0].agent]) + d.consumed;
  }

  /** The slots of agents hold no sentinel. */
  lemma {:induction false} SlotsHaveNoSentinel<A>(xs: seq<A>)
    ensures SentinelCount(Slots(xs)) == 0 && Sentinel !in Slots(xs)
    decreases |xs|
  {
    if xs != [] {
      assert Slots(xs)[1..] == Slots(xs[1..]);
      SlotsHaveNoSentinel(xs[1..]);
    }
  }

  /** Sentinels are counted piecewise over a concatenation. */
  lemma {:induction false} SentinelCountConcat<A>(p: seq<Slot<A>>, q: seq<Slot<A>>)
    ensures SentinelCount(p + q) == SentinelCount(p) + SentinelCount(q)
    decreases |p|
  {
    if p != [] {
      assert (p + q)[0] == p[0] && (p + q)[1..] == p[1..] + q;
      SentinelCountConcat(p[1..], q);
    } else {
      assert p + q == q;
    }
  }

  /** A run consumes exactly one sentinel when it closes and none otherwise:
      every other sentinel stays queued for the other workers. */
  lemma OneSentinelTaken<A>(q: seq<Slot<A>>, escape: nat -> Option<Error>, k: nat)
    ensures var d := Run(q, escape, k);
      SentinelCount(q) == SentinelCount(d.rest) + (if d.exit.Closed? then 1 else 0)
  {
    var d := Run(q, escape, k);
    SentinelCountConcat(Slots(d.consumed) + Taken(d.exit), d.rest);
    SentinelCountConcat(Slots(d.consumed), Taken(d.exit));
    SlotsHaveNoSentinel(d.consumed);
  }

  /** A queue that holds a sentinel never leaves its worker waiting. */
  lemma SentinelEndsRun<A>(q: seq<Slot<A>>, escape: nat -> Option<Error>, k: nat)
    requires Sentinel in q
    ensures !Run(q, escape, k).exit.Waiting?
  {
  }

  /** Work queued before stop() with n >= 1 workers: a worker whose cycles
      do not throw runs every queued agent in order, takes one sentinel and
      leaves the other n - 1 for the other workers. */
  lemma {:induction false} StopAfterWork<A>(xs: seq<A>, n: nat, escape: nat -> Option<Error>, k: nat)
    requires n >= 1
    requires forall j :: k <= j < k + |xs| ==> escape(j).None?
    ensures Run(Slots(xs) + Sentinels(n), escape, k) == Drain(xs, Sentinels(n - 1), Closed)
    decreases |xs|
  {
    var q := Slots(xs) + Sentinels(n);
    if xs == [] {
      assert q == Sentinels(n) && q[0] == Sentinel;
      assert q[1..] == Sentinels(n - 1);
    } else {
      assert q[0] == Work(xs[0]);
      assert q[1..] == Slots(xs[1..]) + Sentinels(n);
      StopAfterWork(xs[1..], n, escape, k + 1);
      RunStep(q, escape, k);
      assert [xs[0]] + xs[1..] == xs;
    }
  }

  /** A queue holding only sentinels: each worker that runs on it takes
      exactly one and leaves the rest. */
  lemma SentinelsClose<A>(n: nat, escape: nat -> Option<Error>, k: nat)
    requires n >= 1
    ensures Run(Sentinels<A>(n), escape, k) == Drain([], Sentinels(n - 1), Closed)
  {
    assert Sentinels<A>(n)[1..] == Sentinels(n - 1);
  }
}
