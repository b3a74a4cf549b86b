/** One pass over the jobs queue (src/jobs.rs:376-432), with its panics, proved against a declarative meaning. */
module RunQueue {
  import opened Wrappers
  import opened JobWatch

  /** A queued job; times are in seconds. */
  datatype Item = Item(job: Key, enqueuedAt: nat, expireAfter: Option<nat>)

  /** The seconds of a `SystemTime` are an `i64`. */
  const CLOCK: int := 0x8000_0000_0000_0000

  function Deadline(item: Item, defaultTimeout: nat): nat {
    item.enqueuedAt + item.expireAfter.GetOr(defaultTimeout)
  }

  predicate IsExpired(item: Item, now: nat, defaultTimeout: nat) {
    now > Deadline(item, defaultTimeout)
  }

  /** The deadline overflows the clock, or the clock has gone back behind the time of enqueueing when the
      waiting time of an item is measured (src/jobs.rs:240-245, 403). */
  predicate ClockPanics(item: Item, now: nat, later: nat, defaultTimeout: nat) {
    Deadline(item, defaultTimeout) >= CLOCK || (!IsExpired(item, now, defaultTimeout) && later < item.enqueuedAt)
  }

  /** The gauges take an `i64` each (src/jobs.rs:151-159). */
  predicate GaugePanics(running: nat, limit: nat) {
    running >= GAUGE || limit >= GAUGE
  }

  datatype Fate = Created | CreateError | Expired

  /** What the environment does while one item is handled: the clock and the configured timeout at the
      expiry test, the clock when the waiting time is measured, the answer of the API to the create request,
      the items that producers append meanwhile, and the counter and the limit for the gauges. */
  datatype Tick = Tick(now: nat, defaultTimeout: nat, later: nat, createOk: bool, arrivals: seq<Item>,
                       running: nat, limit: nat) {
    predicate StopsBefore(item: Item) {
      ClockPanics(item, now, later, defaultTimeout)
    }

    predicate StopsAfter() {
      GaugePanics(running, limit)
    }
  }

  /** How a pass ends. */
  datatype Ending = Finished | ClockPanic | GaugePanic

  function FateOf(item: Item, tick: Tick): Fate {
    if IsExpired(item, tick.now, tick.defaultTimeout) then Expired
    else if tick.createOk then Created
    else CreateError
  }

  /** The fates of the first `n` items. */
  function Fates(items: seq<Item>, env: nat -> Tick, n: nat): (fates: seq<Fate>)
    requires n <= |items|
    ensures |fates| == n
  {
    seq(n, i requires 0 <= i < n => FateOf(items[i], env(i)))
  }

  function Creates(fates: seq<Fate>): nat {
    if fates == [] then 0 else Creates(fates[..|fates| - 1]) + if Last(fates) == Created then 1 else 0
  }

  function Arrivals(env: nat -> Tick, n: nat): seq<Item> {
    if n == 0 then [] else Arrivals(env, n - 1) + env(n - 1).arrivals
  }

  /** A greedy pass over `waiting` items gives fates to all of them, or to just enough of them to use
      the capacity up; and before each of them some capacity was left. */
  ghost predicate GreedyFates(fates: seq<Fate>, waiting: nat, capacity: nat) {
    && |fates| <= waiting
    && (|fates| == waiting || Creates(fates) == capacity)
    && forall m :: 0 <= m < |fates| ==> Creates(fates[..m]) < capacity
  }

  /** The pass has handled `n` items without a panic, and had capacity for each of them. */
  ghost predicate Passed(waiting: seq<Item>, capacity: nat, env: nat -> Tick, n: nat) {
    n <= |waiting| &&
    forall i :: 0 <= i < n ==>
      Creates(Fates(waiting, env, i)) < capacity && !env(i).StopsBefore(waiting[i]) && !env(i).StopsAfter()
  }

  /** The pass gives fates to `n` items of those that are waiting: all that a greedy pass handles, or those
      up to the first panic. */
  ghost predicate Greedy(waiting: seq<Item>, capacity: nat, env: nat -> Tick, n: nat, ending: Ending) {
    match ending
    case Finished =>
      Passed(waiting, capacity, env, n) && (n == |waiting| || Creates(Fates(waiting, env, n)) == capacity)
    case ClockPanic =>
      && Passed(waiting, capacity, env, n) && n < |waiting| && Creates(Fates(waiting, env, n)) < capacity
      && env(n).StopsBefore(waiting[n])
    case GaugePanic =>
      && 0 < n <= |waiting|
      && Passed(waiting, capacity, env, n - 1) && Creates(Fates(waiting, env, n - 1)) < capacity
      && !env(n - 1).StopsBefore(waiting[n - 1]) && env(n - 1).StopsAfter()
  }

  lemma FatesAreNested(items: seq<Item>, env: nat -> Tick, m: nat, n: nat)
    requires m <= n <= |items|
    ensures Fates(items, env, n)[..m] == Fates(items, env, m)
  {
  }

  lemma FatesPrefix(items: seq<Item>, env: nat -> Tick, n: nat)
    requires n < |items|
    ensures Fates(items, env, n + 1) == Fates(items, env, n) + [FateOf(items[n], env(n))]
    ensures Creates(Fates(items, env, n + 1))
         == Creates(Fates(items, env, n)) + if FateOf(items[n], env(n)) == Created then 1 else 0
  {
  }

  /** The meaning has exactly one solution: nothing but the snapshot, the capacity and the
      environment decides how far a pass goes and how it ends. */
  lemma GreedyIsUnique(waiting: seq<Item>, capacity: nat, env: nat -> Tick, n1: nat, e1: Ending, n2: nat, e2: Ending)
    requires Greedy(waiting, capacity, env, n1, e1) && Greedy(waiting, capacity, env, n2, e2)
    ensures n1 == n2 && e1 == e2
  {
  }

  /** Whatever ends the pass, expired items and failed creates use no capacity, and the capacity is never
      exceeded; without a panic the fates are greedy. */
  lemma GreedyWithinCapacity(waiting: seq<Item>, capacity: nat, env: nat -> Tick, n: nat, ending: Ending)
    requires Greedy(waiting, capacity, env, n, ending)
    ensures n <= |waiting|
    ensures Creates(Fates(waiting, env, n)) <= capacity
    ensures forall i :: 0 <= i < n && IsExpired(waiting[i], env(i).now, env(i).defaultTimeout)
                        ==> Fates(waiting, env, n)[i] == Expired
    ensures ending == Finished ==> GreedyFates(Fates(waiting, env, n), |waiting|, capacity)
  {
    if n > 0 {
      FatesPrefix(waiting, env, n - 1);
    }
    forall m | 0 <= m < n ensures Fates(waiting, env, n)[..m] == Fates(waiting, env, m) {
      FatesAreNested(waiting, env, m, n);
    }
  }

  /** What is left in the channel: behind the items that were handled, and one that a panic has lost. */
  ghost predicate Left(before: seq<Item>, env: nat -> Tick, n: nat, ending: Ending, queue: seq<Item>) {
    if ending == ClockPanic then n < |before| && queue == before[n + 1..] + Arrivals(env, n)
    else n <= |before| && queue == before[n..] + Arrivals(env, n)
  }

  /** One item taken from the front and some added to the back of the channel. */
  lemma ChannelStep(before: seq<Item>, env: nat -> Tick, i: nat, item: Item, rest: seq<Item>)
    requires i < |before|
    requires Left(before, env, i, Finished, [item] + rest)
    ensures item == before[i] && Left(before, env, i, ClockPanic, rest)
    ensures Left(before, env, i + 1, Finished, rest + env(i).arrivals)
  {
    var whole := [item] + rest;
    assert item == whole[0] && rest == whole[1..];
    assert rest == before[i + 1..] + Arrivals(env, i);
  }

  lemma PassedStep(waiting: seq<Item>, capacity: nat, env: nat -> Tick, n: nat)
    requires Passed(waiting, capacity, env, n) && n < |waiting| && Creates(Fates(waiting, env, n)) < capacity
    requires !env(n).StopsBefore(waiting[n])
    ensures if env(n).StopsAfter() then Greedy(waiting, capacity, env, n + 1, GaugePanic)
            else Passed(waiting, capacity, env, n + 1)
  {
  }

  /** What a call starts with: the items, the counter, the limit as the pass and as the gauges read it. */
  datatype Call = Call(before: seq<Item>, running: nat, maxRunning: nat, shownLimit: nat)

  /** The meaning of a call: a panic before the loop, an early return, or a greedy pass. */
  ghost predicate Outcome(c: Call, env: nat -> Tick, fates: seq<Fate>, ending: Ending, queue: seq<Item>) {
    && Left(c.before, env, |fates|, ending, queue)
    && fates == Fates(c.before, env, |fates|)
    && if GaugePanics(c.running, c.shownLimit) then fates == [] && ending == GaugePanic
       else if c.running > c.maxRunning then fates == [] && ending == Finished
       else Greedy(c.before, c.maxRunning - c.running, env, |fates|, ending)
  }

  /** Between two items of the loop: what was handled, what is left, and the capacity. */
  ghost predicate Midway(c: Call, env: nat -> Tick, fates: seq<Fate>, queue: seq<Item>, capacity: nat) {
    && !GaugePanics(c.running, c.shownLimit) && c.running <= c.maxRunning
    && |fates| <= |c.before| && fates == Fates(c.before, env, |fates|)
    && Left(c.before, env, |fates|, Finished, queue)
    && c.running + Creates(fates) + capacity == c.maxRunning
    && Passed(c.before, c.maxRunning - c.running, env, |fates|)
  }

  lemma PassFinishes(c: Call, env: nat -> Tick, fates: seq<Fate>, queue: seq<Item>, capacity: nat)
    requires Midway(c, env, fates, queue, capacity) && (|fates| == |c.before| || capacity == 0)
    ensures Outcome(c, env, fates, Finished, queue)
  {
  }

  /** An iteration that a panic at the clock ends. */
  lemma ItemLost(c: Call, env: nat -> Tick, fates: seq<Fate>, item: Item, rest: seq<Item>, capacity: nat)
    requires Midway(c, env, fates, [item] + rest, capacity) && |fates| < |c.before| && capacity > 0
    requires env(|fates|).StopsBefore(item)
    ensures Outcome(c, env, fates, ClockPanic, rest)
  {
    ChannelStep(c.before, env, |fates|, item, rest);
  }

  /** An iteration that gives the item its fate, and may panic at the gauges after that. */
  lemma ItemHandled(c: Call, env: nat -> Tick, fates: seq<Fate>, item: Item, rest: seq<Item>, capacity: nat, fate: Fate)
    requires Midway(c, env, fates, [item] + rest, capacity) && |fates| < |c.before| && capacity > 0
    requires !env(|fates|).StopsBefore(item) && fate == FateOf(item, env(|fates|))
    ensures var (tick, more) := (env(|fates|), fates + [fate]);
      if tick.StopsAfter() then Outcome(c, env, more, GaugePanic, rest + tick.arrivals)
      else Midway(c, env, more, rest + tick.arrivals, capacity - if fate == Created then 1 else 0)
  {
    FatesPrefix(c.before, env, |fates|);
    ChannelStep(c.before, env, |fates|, item, rest);
    PassedStep(c.before, c.maxRunning - c.running, env, |fates|);
  }

  /** The positions of the created jobs. */
  function CreatedAt(fates: seq<Fate>): set<nat> {
    set i: nat | i < |fates| && fates[i] == Created
  }

  lemma {:induction false} CreatesCount(fates: seq<Fate>)
    ensures Creates(fates) == |CreatedAt(fates)|
  {
    if fates == [] {
      assert CreatedAt(fates) == {};
    } else {
      var n := |fates| - 1;
      CreatesCount(fates[..n]);
      assert CreatedAt(fates) == CreatedAt(fates[..n]) + if Last(fates) == Created then {n} else {};
    }
  }

  /** What the fates mean on the clock and the answers of the API: an item is dropped exactly when it is past
      its own timeout, or past the configured one if it has none; otherwise the answer decides. */
  lemma FatesOnTimes(c: Call, env: nat -> Tick, fates: seq<Fate>, ending: Ending, queue: seq<Item>, i: nat)
    requires Outcome(c, env, fates, ending, queue) && i < |fates|
    ensures i < |c.before|
    ensures var (item, tick) := (c.before[i], env(i));
      && (fates[i] == Expired <==>
            tick.now > item.enqueuedAt + if item.expireAfter.Some? then item.expireAfter.value else tick.defaultTimeout)
      && (fates[i] != Expired ==> (fates[i] == Created <==> tick.createOk) && tick.later >= item.enqueuedAt)
  {
  }

  /** A pass ends with a panic exactly where the clock or the gauges cannot take a value. */
  lemma EndingOnTimes(c: Call, env: nat -> Tick, fates: seq<Fate>, ending: Ending, queue: seq<Item>)
    requires Outcome(c, env, fates, ending, queue)
    ensures ending == ClockPanic ==>
      && |fates| < |c.before|
      && var (item, tick) := (c.before[|fates|], env(|fates|));
         var deadline := item.enqueuedAt + if item.expireAfter.Some? then item.expireAfter.value else tick.defaultTimeout;
         deadline >= 0x8000_0000_0000_0000 || (tick.now <= deadline && tick.later < item.enqueuedAt)
    ensures ending == GaugePanic <==>
      var (running, limit) := if fates == [] then (c.running, c.shownLimit)
                              else (env(|fates| - 1).running, env(|fates| - 1).limit);
      running >= 0x8000_0000_0000_0000 || limit >= 0x8000_0000_0000_0000
  {
  }

  /** Only the created jobs use capacity; without a panic the items or the capacity are used up. */
  lemma CapacityUsed(c: Call, env: nat -> Tick, fates: seq<Fate>, ending: Ending, queue: seq<Item>)
    requires Outcome(c, env, fates, ending, queue) && c.running <= c.maxRunning
    ensures c.running + |set i: nat | i < |fates| && fates[i] == Created| <= c.maxRunning
    ensures ending == Finished ==>
      |fates| == |c.before| || c.running + |set i: nat | i < |fates| && fates[i] == Created| == c.maxRunning
  {
    CreatesCount(fates);
    assert CreatedAt(fates) == set i: nat | i < |fates| && fates[i] == Created;
    if !GaugePanics(c.running, c.shownLimit) {
      GreedyWithinCapacity(c.before, c.maxRunning - c.running, env, |fates|, ending);
    }
  }

  class JobsQueue {
    /** The content of the mpsc channel. */
    var queue: seq<Item>

    constructor ()
      ensures queue == []
    {
      queue := [];
    }

    /** The sending half of the channel. */
    method Send(items: seq<Item>)
      modifies this
      ensures queue == old(queue) + items
    {
      queue := queue + items;
    }

    /** The receiving half; it does not block on a channel that holds an item. */
    method Recv() returns (item: Item)
      requires queue != []
      modifies this
      ensures [item] + queue == old(queue)
    {
      item := queue[0];
      queue := queue[1..];
    }

    /** Returns the fates of the popped items, in order; a panic at the clock loses the item in hand. The
        gauges are shown with `running` and `shownLimit` at first. That `Recv` can be called says that the
        pass never waits for an item, whatever the producers do. */
    method RunQueue(running: nat, maxRunning: nat, shownLimit: nat, env: nat -> Tick)
      returns (fates: seq<Fate>, ending: Ending)
      modifies this
      ensures Outcome(Call(old(queue), running, maxRunning, shownLimit), env, fates, ending, queue)
    {
      ghost var c := Call(queue, running, maxRunning, shownLimit);
      fates, ending := [], Finished;
      if GaugePanics(running, shownLimit) {
        return [], GaugePanic;
      }
      if running > maxRunning {
        return;
      }
      var waiting := |queue|;
      var capacity := maxRunning - running;
      while waiting > 0 && capacity > 0
        invariant 0 <= waiting && 0 <= capacity && waiting + |fates| == |c.before|
        invariant Midway(c, env, fates, queue, capacity)
        decreases waiting
      {
        var tick := env(|fates|);
        var item := Recv();
        ghost var rest, found := queue, capacity;
        waiting := waiting - 1;
        if tick.StopsBefore(item) {
          ItemLost(c, env, fates, item, rest, found);
          return fates, ClockPanic;
        }
        var fate;
        if !IsExpired(item, tick.now, tick.defaultTimeout) {
          if tick.createOk {
            capacity := capacity - 1;
            fate := Created;
          } else {
            fate := CreateError;
          }
        } else {
          fate := Expired;
        }
        Send(tick.arrivals);
        ItemHandled(c, env, fates, item, rest, found, fate);
        fates := fates + [fate];
        if tick.StopsAfter() {
          return fates, GaugePanic;
        }
      }
      PassFinishes(c, env, fates, queue, capacity);
    }
  }
}
