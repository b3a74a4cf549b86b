/** The promises of the jobs queue, over every run of the step system. */
module JobsTheorems {
  import opened Wrappers
  import opened JobWatch
  import opened JobsProtocol
  import opened JobsSafety
  import Pass = RunQueue

  ghost predicate Safe(s: State) {
    && Control(s) && Conserved(s) && Tested(s)
    && Awake(s) && ReadCurrent(s) && Caused(s)
    && Mirrored(s.watch, s.cluster) && Capacity(s.pass, s.cluster.jobs)
    && Sourced(s) && InProgress(s)
  }

  lemma InitSafe(limit: nat, timeout: nat)
    ensures Safe(Init(limit, timeout))
  {
  }

  lemma SafeStep(s: State, l: Label)
    requires Safe(s) && Enabled(s, l)
    ensures Safe(Next(s, l))
  {
    CausedStep(s, l);
    match l
    case Outer(o) =>
      ControlOuterStep(s, o);
      ConservedOuterStep(s, o);
      SettledOuterStep(s, o);
      ReadCurrentOuterStep(s, o);
      MirroredOuterStep(s, o);
      CapacityOuterStep(s, o);
      SourcedOuterStep(s, o);
      ProgressOuterStep(s, o);
    case Inner(i) =>
      ControlPassStep(s, i);
      PassItems(s, i);
      ConservedPassStep(s, i);
      SettledPassStep(s, i);
      ReadCurrentPassStep(s, i);
      MirroredPassStep(s, i);
      CapacityPassStep(s, i);
      SourcedPassStep(s, i);
      ProgressPassStep(s, i);
  }

  lemma {:induction false} AlwaysSafe(limit: nat, timeout: nat, labels: seq<Label>)
    requires Run(Init(limit, timeout), labels).Some?
    ensures Safe(Run(Init(limit, timeout), labels).value)
  {
    if labels == [] {
      InitSafe(limit, timeout);
    } else {
      var before := labels[..|labels| - 1];
      AlwaysSafe(limit, timeout, before);
      SafeStep(Run(Init(limit, timeout), before).value, Last(labels));
    }
  }

  // ---------------------------------------------------------------------------
  // Conservation
  // ---------------------------------------------------------------------------

  /** Items leave the queue in the order of sending, each with one fate, and the rest is in the
      hands of the pass or still waiting. No create is attempted for an item that tested as
      expired, and nothing else is dropped as expired. */
  lemma EveryItemHasOnePlace(limit: nat, timeout: nat, labels: seq<Label>, s: State)
    requires Run(Init(limit, timeout), labels) == Some(s)
    ensures |s.items.sent| == |s.items.log| + |InHand(s)| + |s.items.waiting|
    ensures forall i :: 0 <= i < |s.items.log| ==> s.items.log[i].item == s.items.sent[i]
    ensures s.items.sent[|s.items.log|..] == InHand(s) + s.items.waiting
    ensures forall i :: 0 <= i < |s.items.log| ==>
      var e := s.items.log[i];
      e.fate == Pass.Expired <==>
        e.now > e.item.enqueuedAt + if e.item.expireAfter.Some? then e.item.expireAfter.value else e.timeout
    ensures s.pass != NoPass && s.pass.pc.Creating? ==>
      var (item, now, timeout) := (s.pass.pc.item, s.pass.pc.now, s.pass.pc.timeout);
      now <= item.enqueuedAt + if item.expireAfter.Some? then item.expireAfter.value else timeout
  {
    assert Conserved(s) && Tested(s) by {
      AlwaysSafe(limit, timeout, labels);
    }
    TakenInOrder(s.items.sent, ItemsOf(s.items.log), InHand(s), s.items.waiting);
    forall i | 0 <= i < |s.items.log|
      ensures s.items.log[i].item == s.items.sent[i] && ExpiryRespected(s.items.log[i])
    {
      assert ItemsOf(s.items.log)[i] == s.items.sent[i];
    }
  }

  /** The expiry test of a pass, on the times: the deadline of an item comes from its own timeout, or from
      the one that is configured at this moment; a deadline or a waiting time that the clock cannot handle
      ends the task. */
  lemma TestOnTimes(s: State, now: nat, later: nat)
    requires PassEnabled(s, Test(now, later))
    ensures var (item, s') := (s.pass.pc.item, PassNext(s, Test(now, later)));
      var deadline := item.enqueuedAt + if item.expireAfter.Some? then item.expireAfter.value else s.config.timeout;
      if deadline >= 0x8000_0000_0000_0000 || (now <= deadline && later < item.enqueuedAt) then
        s'.task.Panicked? && s'.pass == NoPass && s'.items == s.items
      else
        && s'.task == s.task
        && s'.items.log == s.items.log
             + (if now > deadline then [Entry(item, Pass.Expired, now, s.config.timeout, false)] else [])
        && (PassEnabled(s', Reject) <==> now <= deadline)
  {
  }

  /** The timeout and the limit that count are those of the last change. */
  function LastChange(labels: seq<Label>): Option<OuterLabel> {
    if labels == [] then None
    else if Last(labels).Outer? && Last(labels).outer.ConfigChange? then Some(Last(labels).outer)
    else LastChange(labels[..|labels| - 1])
  }

  lemma {:induction false} ConfigIsLastChange(limit: nat, timeout: nat, labels: seq<Label>, s: State)
    requires Run(Init(limit, timeout), labels) == Some(s)
    ensures match LastChange(labels)
      case None => s.config.limit == limit && s.config.timeout == timeout
      case Some(c) => c.ConfigChange? && s.config.limit == c.limit && s.config.timeout == c.timeout
  {
    if labels != [] {
      ConfigIsLastChange(limit, timeout, labels[..|labels| - 1], Run(Init(limit, timeout), labels[..|labels| - 1]).value);
    }
  }

  lemma TakenInOrder<T>(sent: seq<T>, taken: seq<T>, hand: seq<T>, waiting: seq<T>)
    requires sent == taken + hand + waiting
    ensures |sent| == |taken| + |hand| + |waiting|
    ensures forall i :: 0 <= i < |taken| ==> taken[i] == sent[i]
    ensures sent[|taken|..] == hand + waiting
  {
  }

  /** Every job on the server was created for an item that was taken from the queue and did not test as
      expired; and only a job that exists is reported as created. */
  lemma JobsComeFromItems(limit: nat, timeout: nat, labels: seq<Label>, s: State, k: Key)
    requires Run(Init(limit, timeout), labels) == Some(s)
    ensures k in s.cluster.jobs ==>
      || (exists i :: 0 <= i < |s.items.log| && s.items.log[i].item.job == k && s.items.log[i].fate != Pass.Expired)
      || (s.pass != NoPass && s.pass.pc.Committed? && s.pass.pc.item.job == k)
    ensures forall i :: 0 <= i < |s.items.log| && s.items.log[i].fate == Pass.Created ==> s.items.log[i].onServer
  {
    assert Sourced(s) by {
      AlwaysSafe(limit, timeout, labels);
    }
    if k in s.cluster.jobs {
      assert CameFrom(k, s.items.log, s.pass);
    }
  }

  /** Under any interleaving, a pass that ends has been greedy over the snapshot of waiting items with
      the capacity that it has read, just like a pass that nobody disturbs. */
  lemma PassesAreGreedy(limit: nat, timeout: nat, labels: seq<Label>, s: State)
    requires Run(Init(limit, timeout), labels) == Some(s) && Enabled(s, Inner(End))
    ensures Word(s.pass.snap.counter) <= s.pass.limit
    ensures Pass.GreedyFates(PassFates(s), s.pass.count, s.pass.limit - Word(s.pass.snap.counter))
  {
    assert InProgress(s) by {
      AlwaysSafe(limit, timeout, labels);
    }
  }

  // ---------------------------------------------------------------------------
  // Work conservation
  // ---------------------------------------------------------------------------

  /** The task lives and nothing is under way: no event is unseen, no pass runs or waits for the lock, no
      producer and no watch event is half done, and every created job has been seen. */
  ghost predicate Quiet(s: State) {
    !s.task.Panicked? && s.pass == NoPass && !Pending(s) && Unobserved(s.cluster.stream) == 0
  }

  /** No item waits below the limit that was read last, unless the counter is negative; and negative it
      is only by 2^63 at least, since smaller drift ends the task. */
  ghost predicate LimitReached(s: State) {
    && (s.items.waiting == [] || s.watch.tally.running >= s.config.read || s.watch.tally.running < 0)
    && (s.watch.tally.running < 0 ==> s.watch.tally.running <= -GAUGE)
    && s.watch.tally.running == Active(s.watch.tally.statuses) + s.watch.late - s.watch.rechanged
  }

  lemma LimitReachedBy(s: State)
    requires Safe(s) && Quiet(s)
    ensures LimitReached(s)
  {
    WordOf(s.watch.tally.running);
  }

  lemma WordOf(r: int)
    ensures r >= 0 ==> r >= Word(r)
    ensures -GAUGE < r < 0 ==> Word(r) >= GAUGE
    ensures 0 <= r < GAUGE ==> Word(r) == r
  {
  }

  /** No wake-up is lost: a quiet queue is empty, or the counter has reached the limit that was read last.
      It falls short of the current limit exactly when the limit read last is 0 and no job is counted; then
      the change came before the config loop had subscribed. */
  lemma NoLostWakeup(limit: nat, timeout: nat, labels: seq<Label>, s: State)
    requires Run(Init(limit, timeout), labels) == Some(s)
    requires Quiet(s)
    ensures LimitReached(s)
    ensures s.items.waiting != [] && 0 <= s.watch.tally.running < s.config.limit
       <==> s.items.waiting != [] && s.config.read == 0 == s.watch.tally.running && s.config.limit > 0
    ensures s.config.read != s.config.limit ==> s.config.missed
  {
    AlwaysSafe(limit, timeout, labels);
    LimitReachedBy(s);
    WordOf(s.watch.tally.running);
  }

  /** Steps of this process, as opposed to those of producers, the cluster and its users. */
  predicate Internal(l: Label) {
    l.Inner? || l.outer.Notify? || l.outer.Deliver? || l.outer.WatchNotify? || l.outer.PollStream?
    || l.outer.Subscribe? || l.outer.Wake? || l.outer.Mark? || l.outer.Lock?
  }

  /** Each item of the watch stream, an error item included, is followed by an event for the queue loop before
      the task does anything else. */
  lemma EveryWatchItemWakes(s: State, l: OuterLabel, next: Label)
    requires Control(s) && OuterEnabled(s, l) && (l.Deliver? || l.StreamFault?)
    ensures var s' := OuterNext(s, l);
      && Enabled(s', Outer(WatchNotify)) && Next(s', Outer(WatchNotify)).events.Fresh()
      && (Internal(next) && Enabled(s', next) ==> next == Outer(WatchNotify) || next == Outer(Notify))
  {
  }

  /** Everything that was sent, delivered or announced has been handled. */
  ghost predicate Done(s: State) {
    s.task == AllBranches && s.pass == NoPass && !Pending(s) && s.cluster.stream == []
  }

  /** The task has ended, and no producer is about to find that out. */
  predicate Dead(s: State) {
    s.task.Panicked? && s.items.half == 0
  }

  /** The process never blocks itself: it comes to rest exactly when everything is handled, or when the
      task has ended for a cause. */
  lemma RestsExactlyWhenDoneOrDead(limit: nat, timeout: nat, labels: seq<Label>, s: State)
    requires Run(Init(limit, timeout), labels) == Some(s)
    ensures (forall l: Label :: Internal(l) ==> !Enabled(s, l)) <==> Done(s) || Dead(s)
    ensures Dead(s) ==> Caused(s)
  {
    assert Control(s) && Caused(s) by {
      AlwaysSafe(limit, timeout, labels);
    }
    if Done(s) || Dead(s) {
      forall l: Label | Internal(l) ensures !Enabled(s, l) {
      }
    } else {
      var l := Step(s);
      assert Internal(l) && Enabled(s, l);
    }
  }

  lemma Step(s: State) returns (l: Label)
    requires Control(s) && !Done(s) && !Dead(s)
    ensures Internal(l) && Enabled(s, l)
  {
    if s.watch.half {
      l := Outer(WatchNotify);
    } else if s.items.half > 0 {
      l := Outer(Notify);
    } else if s.task == StreamBranch {
      l := Outer(Subscribe);
    } else if s.pass != NoPass {
      l := Inner(PassStep(s));
    } else if s.task == QueueBranch {
      l := Outer(PollStream);
    } else if s.cluster.stream != [] {
      l := Outer(Deliver);
    } else {
      var id := if s.events.Fresh() || s.queueLoop in {Woken, Waiting} then QueueLoop else ConfigLoop;
      l := Outer(if LoopPcOf(s, id) == Woken then Mark(id) else if LoopPcOf(s, id) == Waiting then Lock(id) else Wake(id));
    }
  }

  function PassStep(s: State): (l: PassLabel)
    requires Control(s) && s.pass != NoPass && s.task != StreamBranch && !s.watch.half
    ensures PassEnabled(s, l)
  {
    match s.pass.pc
    case Locked => ReadRunning
    case HaveRunning(_) => ReadWaiting
    case HaveWaiting(_, _) => ReadLimit
    case HaveLimit(_, _) => Gauges
    case Scan(w, f) => if w == 0 || f == 0 then End else Pop
    case Popped(_, _, _) => Test(0, 0)
    case Creating(_, _, _, _, _) => Reject
    case Committed(_, _, _, _, _) => Respond(true)
    case Reporting(_, _) => Gauges
  }

  /** What the process still has to do by itself. */
  function Rank(s: State): nat {
    15 * |s.items.waiting| + 10 * |s.cluster.stream| + 9 * s.items.half + (if s.watch.half then 9 else 0)
    + (if s.events.Fresh() then 8 else 0)
    + (if s.task == AllBranches && s.config.changes.Fresh() then 8 else 0)
    + (if s.task == QueueBranch then 2 else if s.task == StreamBranch then 1 else 0)
    + LoopRank(s.queueLoop) + LoopRank(s.configLoop) + (if s.pass == NoPass then 0 else PassRank(s.pass.pc))
  }

  function LoopRank(pc: LoopPc): nat {
    match pc
    case Idle => 0
    case Woken => 7
    case Waiting => 6
    case InPass => 0
  }

  function PassRank(pc: PassPc): nat {
    match pc
    case Locked => 5
    case HaveRunning(_) => 4
    case HaveWaiting(_, _) => 3
    case HaveLimit(_, _) => 2
    case Scan(_, _) => 1
    case Popped(_, _, _) => 15
    case Creating(_, _, _, _, _) => 14
    case Committed(_, _, _, _, _) => 3
    case Reporting(_, _) => 2
  }

  lemma InternalPassStep(s: State, l: PassLabel)
    requires Control(s) && PassEnabled(s, l)
    ensures Rank(PassNext(s, l)) < Rank(s)
  {
  }

  lemma InternalOuterStep(s: State, l: OuterLabel)
    requires Control(s) && OuterEnabled(s, l) && Internal(Outer(l))
    ensures Rank(OuterNext(s, l)) < Rank(s)
  {
  }

  lemma {:induction false} RunFrom(start: State, labels: seq<Label>, s: State, more: seq<Label>)
    requires Run(start, labels) == Some(s)
    ensures Run(start, labels + more) == Run(s, more)
  {
    if more == [] {
      assert labels + more == labels;
    } else {
      RunFrom(start, labels, s, more[..|more| - 1]);
      assert (labels + more)[..|labels + more| - 1] == labels + more[..|more| - 1];
    }
  }

  /** Left alone, the process takes no more steps than the rank of the state. */
  lemma {:induction false} InternalRunsAreBounded(limit: nat, timeout: nat, labels: seq<Label>, s: State,
                                                  steps: seq<Label>, t: State)
    requires Run(Init(limit, timeout), labels) == Some(s)
    requires Run(s, steps) == Some(t) && forall l <- steps :: Internal(l)
    ensures |steps| + Rank(t) <= Rank(s)
  {
    if steps != [] {
      var before := steps[..|steps| - 1];
      var u := Run(s, before).value;
      InternalRunsAreBounded(limit, timeout, labels, s, before, u);
      RunFrom(Init(limit, timeout), labels, s, before);
      AlwaysSafe(limit, timeout, labels + before);
      match Last(steps)
      case Outer(o) => InternalOuterStep(u, o);
      case Inner(i) => InternalPassStep(u, i);
    }
  }

  /** Work conservation: left alone, the process comes to rest within this number of steps, whatever
      steps it takes. Then the task has ended for a cause, or it knows every job on the server and no item
      waits below the limit that was read last. */
  lemma WorkIsConserved(limit: nat, timeout: nat, labels: seq<Label>, s: State, steps: seq<Label>, t: State)
    requires Run(Init(limit, timeout), labels) == Some(s)
    requires Run(s, steps) == Some(t) && forall l <- steps :: Internal(l)
    ensures |steps| <= Rank(s)
    ensures |steps| == Rank(s) ==> Done(t) || Dead(t)
    ensures (forall l: Label :: Internal(l) ==> !Enabled(t, l)) <==> Done(t) || Dead(t)
    ensures Done(t) ==> t.watch.tally.statuses == t.cluster.jobs && LimitReached(t)
    ensures Dead(t) ==> Caused(t)
  {
    InternalRunsAreBounded(limit, timeout, labels, s, steps, t);
    RunFrom(Init(limit, timeout), labels, s, steps);
    RestsExactlyWhenDoneOrDead(limit, timeout, labels + steps, t);
    AlwaysSafe(limit, timeout, labels + steps);
    if Done(t) {
      LimitReachedBy(t);
    } else if !Dead(t) {
      var l := Step(t);
      match l
      case Outer(o) => InternalOuterStep(t, o);
      case Inner(i) => InternalPassStep(t, i);
    }
  }

  lemma {:induction false} CounterWithin(limit: nat, timeout: nat, labels: seq<Label>, s: State)
    requires Run(Init(limit, timeout), labels) == Some(s)
    ensures -|labels| <= s.watch.tally.running <= |labels|
  {
    if labels != [] {
      CounterWithin(limit, timeout, labels[..|labels| - 1], Run(Init(limit, timeout), labels[..|labels| - 1]).value);
    }
  }

  /** A live task ends exactly at an update of the gauges that cannot take the counter or the limit of that
      moment, or at an expiry test that the clock cannot handle. */
  lemma PanicsExactly(s: State, l: Label)
    requires Enabled(s, l) && !s.task.Panicked?
    ensures Next(s, l).task.Panicked? <==>
      || (l == Inner(Gauges)
          && (s.watch.tally.running % 0x1_0000_0000_0000_0000 >= 0x8000_0000_0000_0000
              || s.config.limit >= 0x8000_0000_0000_0000))
      || (l.Inner? && l.inner.Test?
          && var item := s.pass.pc.item;
             var deadline := item.enqueuedAt + if item.expireAfter.Some? then item.expireAfter.value else s.config.timeout;
             deadline >= 0x8000_0000_0000_0000 || (l.inner.now <= deadline && l.inner.later < item.enqueuedAt))
  {
  }

  /** At rest, with limits that the gauges can take and a clock that works, the task has ended if and only
      if the status changes after finishing are not covered by unfinished jobs and late arrivals. */
  lemma DeadExactlyOnDrift(limit: nat, timeout: nat, labels: seq<Label>, s: State)
    requires Run(Init(limit, timeout), labels) == Some(s) && |labels| < GAUGE
    requires Done(s) || Dead(s)
    requires Dead(s) ==> s.task.cause.BadGauge? && s.task.cause.limit < GAUGE
    ensures Dead(s) <==> s.watch.rechanged > Active(s.watch.tally.statuses) + s.watch.late
  {
    AlwaysSafe(limit, timeout, labels);
    CounterWithin(limit, timeout, labels, s);
    WordOf(s.watch.tally.running);
  }

  // ---------------------------------------------------------------------------
  // Runs that leave items waiting
  // ---------------------------------------------------------------------------

  lemma Extend(start: State, labels: seq<Label>, s: State, l: Label) returns (longer: seq<Label>, s': State)
    requires Run(start, labels) == Some(s) && Enabled(s, l)
    ensures s' == Next(s, l) && Run(start, longer) == Some(s')
  {
    longer, s' := labels + [l], Next(s, l);
    assert longer[..|longer| - 1] == labels;
  }

  lemma SendAndLock(start: State, before: seq<Label>, s: State, item: Pass.Item)
    returns (labels: seq<Label>, s': State)
    requires Run(start, before) == Some(s) && LoopRuns(s, QueueLoop)
    requires s.queueLoop == Idle && s.pass == NoPass && s.events.seen <= s.events.version
    ensures Run(start, labels) == Some(s')
    ensures s' == s.(items := s.items.(waiting := s.items.waiting + [item], sent := s.items.sent + [item]),
                     events := s'.events, queueLoop := InPass,
                     pass := InQueue(QueueLoop, Locked, NOTHING, 0, 0, 0, 0, 0))
    ensures s'.events == s'.events.Marked()
  {
    labels, s' := Extend(start, before, s, Outer(Send(item)));
    labels, s' := Extend(start, labels, s', Outer(Notify));
    labels, s' := Extend(start, labels, s', Outer(Wake(QueueLoop)));
    labels, s' := Extend(start, labels, s', Outer(Mark(QueueLoop)));
    labels, s' := Extend(start, labels, s', Outer(Lock(QueueLoop)));
  }

  /** An item is sent, and a pass reads everything and is about to update the gauges. */
  lemma SendAndRead(start: State, before: seq<Label>, s: State, item: Pass.Item)
    returns (labels: seq<Label>, s': State)
    requires Run(start, before) == Some(s) && LoopRuns(s, QueueLoop)
    requires s.queueLoop == Idle && s.pass == NoPass && s.events.seen <= s.events.version
    ensures Run(start, labels) == Some(s')
    ensures s'.pass != NoPass && s'.pass.owner == QueueLoop && s'.pass.limit == s.config.limit
    ensures s'.pass.pc == HaveLimit(Word(s.watch.tally.running), |s.items.waiting| + 1)
    ensures s' == s.(items := s.items.(waiting := s.items.waiting + [item], sent := s.items.sent + [item]),
                     config := s.config.(read := s.config.limit, missed := false),
                     events := s'.events, queueLoop := InPass, pass := s'.pass)
    ensures s'.events == s'.events.Marked()
  {
    labels, s' := SendAndLock(start, before, s, item);
    labels, s' := Extend(start, labels, s', Inner(ReadRunning));
    labels, s' := Extend(start, labels, s', Inner(ReadWaiting));
    labels, s' := Extend(start, labels, s', Inner(ReadLimit));
  }

  /** Any raise of the limit 0 can be missed: in its first poll the task finds no capacity for an item, then
      the limit is raised, and only then the config loop subscribes; the item waits. */
  lemma EarlyConfigChangeIsMissed(item: Pass.Item, raised: nat, timeout: nat) returns (labels: seq<Label>, s: State)
    requires raised > 0
    ensures Run(Init(0, timeout), labels) == Some(s)
    ensures Quiet(s) && s.task == AllBranches && s.items.waiting == [item]
    ensures s.config.read == 0 == s.watch.tally.running && s.config.limit == raised
  {
    var start := Init(0, timeout);
    labels, s := SendAndRead(start, [], start, item);
    labels, s := Extend(start, labels, s, Inner(Gauges));
    assert s.pass.pc == Scan(1, 0);
    labels, s := Extend(start, labels, s, Inner(End));
    labels, s := Extend(start, labels, s, Outer(PollStream));
    labels, s := Extend(start, labels, s, Outer(ConfigChange(raised, timeout)));
    labels, s := Extend(start, labels, s, Outer(Subscribe));
  }

  const STARTED := JobStatus(None, None, "")
  const FINISHED := JobStatus(Some(1), None, "")
  const CHANGED := JobStatus(Some(1), None, "completion time")

  /** No pass runs, and no item and no watch event waits. */
  ghost predicate AtWork(s: State, limit: nat, timeout: nat) {
    && s.items.half == 0 && s.task == AllBranches && s.pass == NoPass && s.queueLoop == Idle && !s.watch.half
    && s.items.waiting == [] && s.config.limit == limit && s.config.timeout == timeout
    && s.cluster.stream == [] && s.events.seen <= s.events.version
  }

  /** After the first poll, a pass finds its first item and capacity. */
  lemma FirstScan(limit: nat, timeout: nat, item: Pass.Item) returns (labels: seq<Label>, s: State)
    requires limit < GAUGE
    ensures Run(Init(limit, timeout), labels) == Some(s)
    ensures s.pass != NoPass && s.pass.owner == QueueLoop && s.pass.pc == Scan(1, limit)
    ensures s == Init(limit, timeout).(items := Items([item], 0, [item], []), events := s.events, task := AllBranches,
                                       queueLoop := InPass, pass := s.pass)
    ensures s.events == s.events.Marked()
  {
    var start := Init(limit, timeout);
    labels, s := Extend(start, [], start, Outer(PollStream));
    labels, s := Extend(start, labels, s, Outer(Subscribe));
    assert s == start.(task := AllBranches);
    labels, s := SendAndRead(start, labels, s, item);
    labels, s := Extend(start, labels, s, Inner(Gauges));
  }

  /** A pass creates one job, and the watch handler sees it. */
  lemma CreatedAndSeen(limit: nat, timeout: nat, k: Key) returns (labels: seq<Label>, s: State)
    requires 0 < limit < GAUGE
    ensures Run(Init(limit, timeout), labels) == Some(s) && AtWork(s, limit, timeout)
    ensures s.cluster.jobs == s.watch.tally.statuses == map[k := STARTED] && s.watch.tally.running == 1
  {
    var start := Init(limit, timeout);
    labels, s := FirstScan(limit, timeout, Pass.Item(k, 0, Some(0)));
    labels, s := CreateJob(start, labels, s, k);
    labels, s := Seen(start, labels, s, limit, timeout, k);
  }

  lemma Seen(start: State, before: seq<Label>, s: State, limit: nat, timeout: nat, k: Key)
    returns (labels: seq<Label>, s': State)
    requires Run(start, before) == Some(s) && s.cluster == Cluster(map[k := STARTED], [Appeared(k, STARTED)])
    requires s.watch.tally == EMPTY && AtWork(s.(cluster := Cluster(map[], [])), limit, timeout)
    ensures Run(start, labels) == Some(s') && AtWork(s', limit, timeout)
    ensures s'.cluster.jobs == s'.watch.tally.statuses == map[k := STARTED] && s'.watch.tally.running == 1
  {
    labels, s' := Extend(start, before, s, Outer(Deliver));
    labels, s' := Extend(start, labels, s', Outer(WatchNotify));
  }

  lemma CreateJob(start: State, before: seq<Label>, s: State, k: Key) returns (labels: seq<Label>, s': State)
    requires Run(start, before) == Some(s) && s.task == AllBranches && !s.watch.half
    requires s.cluster == Cluster(map[], []) && s.watch.tally == EMPTY && s.config.limit < GAUGE
    requires s.items.waiting == [Pass.Item(k, 0, Some(0))]
    requires s.pass != NoPass && s.pass.owner == QueueLoop && s.pass.pc == Scan(1, s.config.limit) && s.config.limit > 0
    ensures Run(start, labels) == Some(s') && s'.items.waiting == [] && s'.items.half == s.items.half
    ensures s' == s.(items := s'.items, cluster := Cluster(map[k := STARTED], [Appeared(k, STARTED)]),
                     queueLoop := Idle, pass := NoPass)
  {
    labels, s' := Extend(start, before, s, Inner(Pop));
    assert s'.pass.pc == Popped(0, s.config.limit, Pass.Item(k, 0, Some(0)));
    labels, s' := Extend(start, labels, s', Inner(Test(0, 0)));
    labels, s' := Extend(start, labels, s', Inner(Commit(STARTED)));
    labels, s' := Extend(start, labels, s', Inner(Respond(true)));
    assert s'.pass.pc == Reporting(0, s.config.limit - 1);
    labels, s' := Extend(start, labels, s', Inner(Gauges));
    labels, s' := Extend(start, labels, s', Inner(End));
  }

  /** The status of the only job changes, and the watch handler sees it. */
  lemma ChangedAndSeen(start: State, before: seq<Label>, s: State, limit: nat, timeout: nat, k: Key, st: JobStatus)
    returns (labels: seq<Label>, s': State)
    requires Run(start, before) == Some(s) && AtWork(s, limit, timeout)
    requires s.cluster.jobs == s.watch.tally.statuses && k in s.cluster.jobs
    requires s.cluster.jobs[k] != st && st.Finished()
    ensures Run(start, labels) == Some(s') && AtWork(s', limit, timeout)
    ensures s'.cluster.jobs == s'.watch.tally.statuses == s.cluster.jobs[k := st]
    ensures s'.watch.tally.running == s.watch.tally.running - 1
  {
    labels, s' := Extend(start, before, s, Outer(ServerUpdate(k, st)));
    assert s'.cluster.stream == [Updated(k, st)];
    labels, s' := Extend(start, labels, s', Outer(Deliver));
    labels, s' := Extend(start, labels, s', Outer(WatchNotify));
  }

  /** Drift ends the task: a job finishes and its status changes once more; the next pass finds the counter
      at -1 and panics. The next item waits forever, although no job is active and the limit is above 0. */
  lemma DriftStarves(item: Pass.Item, limit: nat, timeout: nat, k: Key) returns (labels: seq<Label>, s: State)
    requires 0 < limit < GAUGE
    ensures Run(Init(limit, timeout), labels) == Some(s)
    ensures Dead(s) && s.items.waiting == [item]
    ensures Active(s.cluster.jobs) == 0 && s.watch.tally.running == -1 && s.config.limit == limit
  {
    var start := Init(limit, timeout);
    labels, s := CreatedAndSeen(limit, timeout, k);
    labels, s := ChangedAndSeen(start, labels, s, limit, timeout, k, FINISHED);
    labels, s := ChangedAndSeen(start, labels, s, limit, timeout, k, CHANGED);
    labels, s := PassPanics(start, labels, s, limit, timeout, item);
    assert Unfinished(s.cluster.jobs) == {};
  }

  lemma PassPanics(start: State, before: seq<Label>, s: State, limit: nat, timeout: nat, item: Pass.Item)
    returns (labels: seq<Label>, s': State)
    requires Run(start, before) == Some(s) && AtWork(s, limit, timeout)
    requires s.watch.tally.running == -1
    ensures Run(start, labels) == Some(s') && Dead(s') && s'.items.waiting == [item]
    ensures s'.cluster == s.cluster && s'.watch == s.watch && s'.config.limit == limit
  {
    WordOf(-1);
    labels, s' := SendAndRead(start, before, s, item);
    labels, s' := Extend(start, labels, s', Inner(Gauges));
  }

  // ---------------------------------------------------------------------------
  // Bounded overshoot
  // ---------------------------------------------------------------------------

  /** Whatever happens during a pass, the active jobs exceed the limit it has read by no more than
      the jobs unobserved when it read the counter, the drift of the counter at that time, and the
      creates of this pass whose answer was lost. */
  lemma BoundedOvershoot(limit: nat, timeout: nat, labels: seq<Label>, s: State)
    requires Run(Init(limit, timeout), labels) == Some(s)
    requires s.pass != NoPass && s.pass.pc.Committed?
    requires s.pass.snap.counter < WORD
    ensures Active(s.cluster.jobs) <= s.pass.limit + s.pass.snap.unobserved + s.pass.snap.rechanged + s.pass.lost
  {
    assert Control(s) && Capacity(s.pass, s.cluster.jobs) by {
      AlwaysSafe(limit, timeout, labels);
    }
    WordAtLeast(s.pass.snap.counter);
  }

  lemma WordAtLeast(c: int)
    requires c < WORD
    ensures Word(c) >= c
  {
  }

  /** A step of a run in which the limit stays, every create is answered truthfully, and every pass
      finds an exact counter and no unobserved job. */
  predicate CalmStep(s: State, l: Label) {
    match l
    case Outer(o) => !o.ConfigChange?
    case Inner(i) =>
      && i != Respond(false)
      && (i.ReadRunning? ==>
            Unobserved(s.cluster.stream) == 0 && s.watch.rechanged == 0 && s.watch.tally.running < WORD)
  }

  predicate CalmRun(start: State, labels: seq<Label>) {
    labels == [] ||
    var before := labels[..|labels| - 1];
    CalmRun(start, before) && (Run(start, before).Some? ==> CalmStep(Run(start, before).value, Last(labels)))
  }

  ghost predicate WithinLimit(s: State) {
    && Active(s.cluster.jobs) <= s.config.limit
    && (s.pass != NoPass ==>
          var p := s.pass;
          && p.lost == 0
          && (!p.pc.Locked? ==> p.snap.unobserved == p.snap.rechanged == 0 && p.snap.counter < WORD)
          && (p.pc.HaveLimit? || Scanning(p.pc) ==> p.limit == s.config.limit))
  }

  lemma WithinLimitOuterStep(s: State, l: OuterLabel)
    requires WithinLimit(s) && OuterEnabled(s, l) && !l.ConfigChange?
    ensures WithinLimit(OuterNext(s, l))
  {
    ActiveOuterStep(s, l);
  }

  lemma WithinLimitPassStep(s: State, l: PassLabel)
    requires Control(s) && Mirrored(s.watch, s.cluster) && Capacity(s.pass, s.cluster.jobs)
    requires WithinLimit(s) && PassEnabled(s, l) && CalmStep(s, Inner(l))
    ensures WithinLimit(PassNext(s, l))
  {
    if l.Commit? {
      CapacityPassStep(s, l);
      WordAtLeast(s.pass.snap.counter);
    }
  }

  /** In such a run the active jobs never exceed the limit. */
  lemma {:induction false} NeverAboveLimit(limit: nat, timeout: nat, labels: seq<Label>)
    requires Run(Init(limit, timeout), labels).Some?
    requires CalmRun(Init(limit, timeout), labels)
    ensures WithinLimit(Run(Init(limit, timeout), labels).value)
  {
    if labels == [] {
      InitSafe(limit, timeout);
    } else {
      var before := labels[..|labels| - 1];
      NeverAboveLimit(limit, timeout, before);
      AlwaysSafe(limit, timeout, before);
      var s := Run(Init(limit, timeout), before).value;
      match Last(labels)
      case Outer(o) => WithinLimitOuterStep(s, o);
      case Inner(i) => WithinLimitPassStep(s, i);
    }
  }
}
