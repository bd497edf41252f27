/**
 * `PollableMixin.wait`: poll a long-running server task until it reports
 * failure or completion, sleeping a fixed interval between probes, and give
 * up once the deadline fixed at the start has passed.
 */
module Polling {
  import opened Json
  import Events

  /** `default_interval` and `default_timeout`, in seconds. */
  const DEFAULT_INTERVAL: int := 15
  const DEFAULT_TIMEOUT: int := 3600

  /** What the task's `has_failed` and `is_finished` properties report. */
  datatype Status = Status(failed: bool, finished: bool)

  /** The error `time.sleep` raises for a negative length. */
  const NEGATIVE_SLEEP: Error := ValueError("sleep length must be non-negative")

  /** An interval or timeout argument: None and 0 are false in Python and fall back to the default. */
  function OrDefault(x: Option<int>, default: int): int
  {
    if x.None? || x.value == 0 then default else x.value
  }

  /** The wall clock `datetime.utcnow()` reads and `time.sleep` advances, in whole seconds. */
  class Clock {
    var now: int

    constructor (start: int)
      ensures now == start
    {
      now := start;
    }

    /** `time.sleep`: a negative length is a ValueError; otherwise exactly that many seconds pass. */
    method Sleep(seconds: int) returns (r: Outcome)
      modifies this
      ensures seconds < 0 ==> r == Fail(NEGATIVE_SLEEP) && now == old(now)
      ensures seconds >= 0 ==> r == Pass && now == old(now) + seconds
    {
      if seconds < 0 {
        return Fail(NEGATIVE_SLEEP);
      }
      now := now + seconds;
      r := Pass;
    }
  }

  /**
   * A pollable model. What the server reports is decided outside the
   * client: the status seen after the n-th refresh, and how the n-th
   * refresh ends.
   */
  class Task {
    const status: nat -> Status
    const refreshed: nat -> Outcome
    var refreshes: nat

    constructor (status: nat -> Status, refreshed: nat -> Outcome)
      ensures this.status == status && this.refreshed == refreshed && refreshes == 0
    {
      this.status := status;
      this.refreshed := refreshed;
      refreshes := 0;
    }

    /** `refresh`: one more round trip to the server. */
    method Refresh() returns (r: Outcome)
      modifies this`refreshes
      ensures refreshes == old(refreshes) + 1
      ensures r == refreshed(old(refreshes))
    {
      r := refreshed(refreshes);
      refreshes := refreshes + 1;
    }
  }

  /** How a wait ends, and how many rounds published PROGRESS. */
  datatype Waited = Waited(outcome: Outcome, rounds: nat)

  /**
   * The polling loop once `left` seconds remain before the deadline and `n`
   * refreshes have been made: out of time is a Timeout; otherwise a failed
   * task raises Failed before a finished one returns; otherwise the round
   * publishes PROGRESS, sleeps (a negative interval raises there) and
   * refreshes (an error there is raised), and the loop goes on.
   */
  function Poll(status: nat -> Status, refreshed: nat -> Outcome, interval: int, timeout: int, left: int, n: nat): (r: Waited)
    requires interval != 0
    ensures left <= 0 ==> r == Waited(Fail(Timeout(timeout)), 0)
    ensures r.rounds > 0 ==> left > 0
    decreases if left > 0 then left else 0
  {
    if left <= 0 then Waited(Fail(Timeout(timeout)), 0)
    else if status(n).failed then Waited(Fail(Failed), 0)
    else if status(n).finished then Waited(Pass, 0)
    else if interval < 0 then Waited(Fail(NEGATIVE_SLEEP), 1)
    else if refreshed(n).Fail? then Waited(refreshed(n), 1)
    else
      var rest := Poll(status, refreshed, interval, timeout, left - interval, n + 1);
      Waited(rest.outcome, rest.rounds + 1)
  }

  /** The time `k` completed sleeps of `interval` seconds take. */
  function Elapsed(k: nat, interval: int): int
  {
    if k == 0 then 0 else Elapsed(k - 1, interval) + interval
  }

  lemma {:induction false} ElapsedIsProduct(k: nat, interval: int)
    ensures Elapsed(k, interval) == k * interval
  {
    if k > 0 {
      ElapsedIsProduct(k - 1, interval);
      assert k * interval == (k - 1) * interval + interval;
    }
  }

  /** One more round that does not end the wait: it adds one to the rounds of the rest. */
  lemma PollContinues(status: nat -> Status, refreshed: nat -> Outcome, interval: int, timeout: int, left: int, n: nat)
    requires interval > 0 && left > 0
    requires !status(n).failed && !status(n).finished && refreshed(n).Pass?
    ensures var rest := Poll(status, refreshed, interval, timeout, left - interval, n + 1);
      Poll(status, refreshed, interval, timeout, left, n) == Waited(rest.outcome, rest.rounds + 1)
  {
  }

  /** `k` copies of `s`, one after the other. */
  function Repeat<T>(s: seq<T>, k: nat): seq<T>
  {
    if k == 0 then [] else Repeat(s, k - 1) + s
  }

  lemma {:induction false} RepeatLength<T>(s: seq<T>, k: nat)
    ensures |Repeat(s, k)| == k * |s|
  {
    if k > 0 {
      RepeatLength(s, k - 1);
      assert k * |s| == (k - 1) * |s| + |s|;
    }
  }

  /** Appending one more copy to a log that ends in `k` copies leaves it ending in `k + 1`. */
  lemma RepeatOnceMore<T>(prefix: seq<T>, s: seq<T>, k: nat)
    ensures prefix + Repeat(s, k) + s == prefix + Repeat(s, k + 1)
  {
  }

  /** The calls one PROGRESS publication of `wait` makes. */
  function ProgressCalls(handlers: map<Events.EventKey, seq<Events.Callback>>, chain: seq<string>, subject: nat): seq<Events.Invocation>
  {
    Events.Invocations(Events.Selected(handlers, chain, "wait", Events.Progress), subject)
  }

  /**
   * One round of the loop for a task neither failed nor finished: publish
   * PROGRESS, sleep the interval (a negative one raises), then refresh
   * (an error there is raised). `stop` is the error that ends the wait.
   */
  method Round(task: Task, clock: Clock, registry: Events.Registry, chain: seq<string>, subject: nat, interval: int)
      returns (stop: Option<Outcome>)
    modifies task`refreshes, clock, registry`log
    ensures registry.log == old(registry.log) + ProgressCalls(registry.handlers, chain, subject)
    ensures interval < 0 ==> stop == Some(Fail(NEGATIVE_SLEEP)) && clock.now == old(clock.now) && task.refreshes == old(task.refreshes)
    ensures interval >= 0 ==>
      && clock.now == old(clock.now) + interval && task.refreshes == old(task.refreshes) + 1
      && stop == (if task.refreshed(old(task.refreshes)).Fail? then Some(task.refreshed(old(task.refreshes))) else None)
  {
    var fired := registry.Publish(chain, subject, "wait", Events.Progress);
    var slept := clock.Sleep(interval);
    if slept.Fail? {
      return Some(slept);
    }
    var refreshed := task.Refresh();
    stop := if refreshed.Fail? then Some(refreshed) else None;
  }

  /**
   * The loop of `wait`, with the interval and timeout already defaulted:
   * the deadline is the clock at the start plus the timeout. The outcome and
   * the number of rounds are those of `Poll`; each round published PROGRESS,
   * and each completed sleep advanced the clock by the interval and was
   * followed by one refresh.
   */
  method Loop(task: Task, clock: Clock, registry: Events.Registry, chain: seq<string>, subject: nat, interval: int, timeout: int)
      returns (r: Outcome, ghost rounds: nat)
    requires interval != 0
    modifies task`refreshes, clock, registry`log
    ensures Waited(r, rounds) == Poll(task.status, task.refreshed, interval, timeout, timeout, old(task.refreshes))
    ensures registry.log == old(registry.log) + Repeat(ProgressCalls(registry.handlers, chain, subject), rounds)
    ensures interval > 0 ==> clock.now == old(clock.now) + Elapsed(rounds, interval) && task.refreshes == old(task.refreshes) + rounds
    ensures interval < 0 ==> clock.now == old(clock.now) && task.refreshes == old(task.refreshes)
  {
    var end := clock.now + timeout;
    ghost var status, refreshed, progress := task.status, task.refreshed, ProgressCalls(registry.handlers, chain, subject);
    ghost var whole := Poll(status, refreshed, interval, timeout, timeout, task.refreshes);
    rounds := 0;
    while clock.now < end
      invariant interval > 0 ==> clock.now == old(clock.now) + Elapsed(rounds, interval) && task.refreshes == old(task.refreshes) + rounds
      invariant interval < 0 ==> rounds == 0 && clock.now == old(clock.now) && task.refreshes == old(task.refreshes)
      invariant registry.log == old(registry.log) + Repeat(progress, rounds)
      invariant var rest := Poll(status, refreshed, interval, timeout, end - clock.now, task.refreshes);
        whole == Waited(rest.outcome, rest.rounds + rounds)
      decreases end - clock.now
    {
      if task.status(task.refreshes).failed {
        return Fail(Failed), rounds;
      } else if task.status(task.refreshes).finished {
        return Pass, rounds;
      }
      ghost var n, left := task.refreshes, end - clock.now;
      var stop := Round(task, clock, registry, chain, subject, interval);
      RepeatOnceMore(old(registry.log), progress, rounds);
      rounds := rounds + 1;
      if stop.Some? {
        return stop.value, rounds;
      }
      assert interval > 0 && end - clock.now == left - interval && task.refreshes == n + 1;
      PollContinues(status, refreshed, interval, timeout, left, n);
    }
    r := Fail(Timeout(timeout));
  }

  /**
   * `wait`, wrapped by `evented`: None or 0 select the default interval and
   * timeout; STARTED is published first, then the loop's PROGRESS rounds,
   * FAILED when the wait raised, and FINISHED in every case.
   */
  method Wait(task: Task, clock: Clock, registry: Events.Registry, chain: seq<string>, subject: nat, interval: Option<int>, timeout: Option<int>)
      returns (r: Outcome, ghost rounds: nat)
    modifies task`refreshes, clock, registry`log
    ensures var i := OrDefault(interval, DEFAULT_INTERVAL);
      var t := OrDefault(timeout, DEFAULT_TIMEOUT);
      Waited(r, rounds) == Poll(task.status, task.refreshed, i, t, t, old(task.refreshes))
    ensures var h := registry.handlers;
      registry.log == old(registry.log)
        + Events.Invocations(Events.Selected(h, chain, "wait", Events.Started), subject)
        + Repeat(ProgressCalls(h, chain, subject), rounds)
        + (if r.Fail? then Events.Invocations(Events.Selected(h, chain, "wait", Events.State.Failed), subject) else [])
        + Events.Invocations(Events.Selected(h, chain, "wait", Events.Finished), subject)
  {
    var i := OrDefault(interval, DEFAULT_INTERVAL);
    var t := OrDefault(timeout, DEFAULT_TIMEOUT);
    var started := registry.Publish(chain, subject, "wait", Events.Started);
    ghost var begun := registry.log;
    r, rounds := Loop(task, clock, registry, chain, subject, i, t);
    ghost var polled := registry.log;
    assert polled == begun + Repeat(ProgressCalls(registry.handlers, chain, subject), rounds);
    if r.Fail? {
      var failed := registry.Publish(chain, subject, "wait", Events.State.Failed);
    }
    ghost var closing := registry.log;
    var finished := registry.Publish(chain, subject, "wait", Events.Finished);
  }

  /** A task already finished (and not failed) is returned at once, without sleeping, whenever there is time left. */
  lemma FinishedAtOnce(status: nat -> Status, refreshed: nat -> Outcome, interval: int, timeout: int, left: int, n: nat)
    requires interval != 0 && left > 0
    requires status(n).finished && !status(n).failed
    ensures Poll(status, refreshed, interval, timeout, left, n) == Waited(Pass, 0)
  {
  }

  /** `has_failed` is asked first: a task reporting both failed and finished raises Failed. */
  lemma FailureWins(status: nat -> Status, refreshed: nat -> Outcome, interval: int, timeout: int, left: int, n: nat)
    requires interval != 0 && left > 0
    requires status(n).failed
    ensures Poll(status, refreshed, interval, timeout, left, n) == Waited(Fail(Failed), 0)
  {
  }

  /**
   * A task that never fails nor finishes, with every refresh succeeding,
   * times out after exactly ceil(left / interval) rounds: the deadline is
   * checked before each round, so a last partial interval still gets a round.
   */
  lemma {:induction false} TimeoutRounds(status: nat -> Status, refreshed: nat -> Outcome, interval: int, timeout: int, left: int, n: nat)
    requires interval > 0 && left > 0
    requires forall k :: n <= k ==> !status(k).failed && !status(k).finished && refreshed(k).Pass?
    ensures var w := Poll(status, refreshed, interval, timeout, left, n);
      && w.outcome == Fail(Timeout(timeout))
      && (w.rounds - 1) * interval < left <= w.rounds * interval
    decreases left
  {
    if left > interval {
      TimeoutRounds(status, refreshed, interval, timeout, left - interval, n + 1);
      var k := Poll(status, refreshed, interval, timeout, left - interval, n + 1).rounds;
      assert (k + 1) * interval == k * interval + interval;
    }
  }

  /** However the task behaves, a wait with a positive interval runs at most ceil(left / interval) rounds. */
  lemma {:induction false} RoundsBounded(status: nat -> Status, refreshed: nat -> Outcome, interval: int, timeout: int, left: int, n: nat)
    requires interval > 0
    ensures var rounds := Poll(status, refreshed, interval, timeout, left, n).rounds;
      rounds == 0 || (rounds - 1) * interval < left
    decreases if left > 0 then left else 0
  {
    if left > interval {
      RoundsBounded(status, refreshed, interval, timeout, left - interval, n + 1);
      var k := Poll(status, refreshed, interval, timeout, left - interval, n + 1).rounds;
      assert k * interval == (k - 1) * interval + interval;
    }
  }

  /**
   * A wait that returns normally saw, before the deadline, a status that is
   * finished and not failed, after as many refreshes as rounds; every status
   * before it was neither failed nor finished.
   */
  lemma {:induction false} PassMeansFinished(status: nat -> Status, refreshed: nat -> Outcome, interval: int, timeout: int, left: int, n: nat)
    requires interval != 0
    requires Poll(status, refreshed, interval, timeout, left, n).outcome.Pass?
    ensures var rounds := Poll(status, refreshed, interval, timeout, left, n).rounds;
      && status(n + rounds).finished && !status(n + rounds).failed
      && rounds * interval < left
      && forall k :: n <= k < n + rounds ==> !status(k).failed && !status(k).finished
    decreases if left > 0 then left else 0
  {
    if !status(n).finished || status(n).failed {
      PassMeansFinished(status, refreshed, interval, timeout, left - interval, n + 1);
      var rest := Poll(status, refreshed, interval, timeout, left - interval, n + 1).rounds;
      assert (rest + 1) * interval == rest * interval + interval;
    }
  }
}
