/** The router's running-count barrier: the number of running agents, the
    up/down flag and the permits of the completion semaphore (waitAllSync).
    A stop signal that brings the count to exactly zero marks the router down
    and releases one permit; nothing else releases. */
module Barrier {

  datatype Counter = Counter(running: int, up: bool, permits: nat)

  /** A fresh router: nothing running, up, no permit. */
  const NewCounter: Counter := Counter(0, true, 0)

  /** signalAgentStart: one more running agent. */
  function SignalStart(c: Counter): (r: Counter)
    ensures r.running == c.running + 1 && r.up == c.up && r.permits == c.permits
  {
    c.(running := c.running + 1)
  }

  /** signalAgentStop: one fewer running agent; reaching exactly zero sets the
      router down and releases the completion signal. */
  function SignalStop(c: Counter): (r: Counter)
    ensures r.running == c.running - 1
    ensures r.permits == c.permits + (if c.running == 1 then 1 else 0)
    ensures r.up == (c.up && c.running != 1)
  {
    if c.running - 1 == 0 then Counter(0, false, c.permits + 1)
    else c.(running := c.running - 1)
  }

  /** n start signals in a row. */
  function Starts(c: Counter, n: nat): Counter
    decreases n
  {
    if n == 0 then c else SignalStart(Starts(c, n - 1))
  }

  /** n stop signals in a row. */
  function Stops(c: Counter, n: nat): Counter
    decreases n
  {
    if n == 0 then c else SignalStop(Stops(c, n - 1))
  }

  /** Whether n stop signals from count r pass through zero. Each signal takes
      exactly one off, so they do exactly when 1 <= r <= n, whatever order the
      agents are stopped in, and then they pass through it once. */
  predicate ReachesZero(running: int, n: nat) {
    1 <= running <= n
  }

  /** Closed form of n start signals. */
  lemma {:induction false} StartsClosedForm(c: Counter, n: nat)
    ensures Starts(c, n) == c.(running := c.running + n)
    decreases n
  {
    if n > 0 {
      StartsClosedForm(c, n - 1);
    }
  }

  /** Closed form of n stop signals: the count drops by n, and the router goes
      down and gains exactly one permit precisely when the count passes zero. */
  lemma {:induction false} StopsClosedForm(c: Counter, n: nat)
    ensures Stops(c, n) == Counter(
      c.running - n,
      c.up && !ReachesZero(c.running, n),
      c.permits + (if ReachesZero(c.running, n) then 1 else 0))
    decreases n
  {
    if n > 0 {
      StopsClosedForm(c, n - 1);
    }
  }

  /** m start signals and then n more are m + n start signals. */
  lemma {:induction false} StartsAdd(c: Counter, m: nat, n: nat)
    ensures Starts(Starts(c, m), n) == Starts(c, m + n)
    decreases n
  {
    if n > 0 {
      StartsAdd(c, m, n - 1);
    }
  }

  /** m stop signals and then n more are m + n stop signals. */
  lemma {:induction false} StopsAdd(c: Counter, m: nat, n: nat)
    ensures Stops(Stops(c, m), n) == Stops(c, m + n)
    decreases n
  {
    if n > 0 {
      StopsAdd(c, m, n - 1);
    }
  }

  /** Stop signals are one step at a time: n + 1 of them are n of them and one more. */
  lemma StopsStep(c: Counter, n: nat)
    ensures Stops(c, n + 1) == SignalStop(Stops(c, n))
  {
  }

  /** Starting k >= 1 agents on a fresh router and stopping all of them
      releases exactly one permit and takes the router down; stopping fewer
      releases nothing and leaves it up. */
  lemma {:induction false} BalancedSignalsRelease(k: nat, stopped: nat)
    requires 1 <= k && stopped <= k
    ensures var c := Stops(Starts(NewCounter, k), stopped);
      && c.running == k - stopped
      && (c.permits == 1 <==> stopped == k)
      && (c.permits == 0 <==> stopped < k)
      && (c.up <==> stopped < k)
  {
    StartsClosedForm(NewCounter, k);
    StopsClosedForm(Starts(NewCounter, k), stopped);
  }
}
