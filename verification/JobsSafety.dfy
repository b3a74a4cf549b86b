/** What every step of the jobs queue keeps. */
module JobsSafety {
  import opened Wrappers
  import opened JobWatch
  import opened JobsProtocol
  import Pass = RunQueue

  // ---------------------------------------------------------------------------
  // Control: the lock, the loops and the snapshot of waiting items
  // ---------------------------------------------------------------------------

  function Snapshotted(pc: PassPc): nat {
    match pc
    case Locked => 0
    case HaveRunning(_) => 0
    case HaveWaiting(_, w) => w
    case HaveLimit(_, w) => w
    case Scan(w, _) => w
    case Popped(w, _, _) => w
    case Creating(w, _, _, _, _) => w
    case Committed(w, _, _, _, _) => w
    case Reporting(w, _) => w
  }

  predicate HasItem(pc: PassPc) {
    pc.Popped? || pc.Creating? || pc.Committed?
  }

  /** The pass has read the counter, and has not compared it with the limit yet. */
  predicate Reading(pc: PassPc) {
    pc.HaveRunning? || pc.HaveWaiting? || pc.HaveLimit?
  }

  /** The pass has found capacity. */
  predicate Scanning(pc: PassPc) {
    pc.Scan? || pc.Reporting? || HasItem(pc)
  }

  /** Exactly the owner of the lock is inside a pass, and the queue never holds fewer items than the
      pass still expects, so `recv` finds one. Until the second poll, the queue loop has seen no job. */
  ghost predicate Control(s: State) {
    && s.events.seen <= s.events.version && s.config.changes.seen <= s.config.changes.version
    && (s.task.Panicked? ==> s.pass == NoPass)
    && (s.task == QueueBranch ==> s.watch.tally == EMPTY)
    && (s.task == QueueBranch || s.task == StreamBranch ==> s.configLoop == Idle)
    && (s.watch.half ==> StreamRuns(s))
    && (s.queueLoop == InPass <==> s.pass != NoPass && s.pass.owner == QueueLoop)
    && (s.configLoop == InPass <==> s.pass != NoPass && s.pass.owner == ConfigLoop)
    && (s.pass != NoPass ==>
          && Snapshotted(s.pass.pc) <= |s.items.waiting|
          && (HasItem(s.pass.pc) ==> s.pass.pc.f > 0)
          && (!AtAwait(s.pass) ==> s.task != StreamBranch)
          && (Reading(s.pass.pc) ==> s.pass.pc.r == Word(s.watch.tally.running)))
  }

  lemma ControlPassStep(s: State, l: PassLabel)
    requires Control(s) && PassEnabled(s, l)
    ensures Control(PassNext(s, l))
  {
  }

  lemma ControlOuterStep(s: State, l: OuterLabel)
    requires Control(s) && OuterEnabled(s, l)
    ensures Control(OuterNext(s, l))
  {
  }

  // ---------------------------------------------------------------------------
  // Conservation and order of items
  // ---------------------------------------------------------------------------

  function ItemsOf(log: seq<Entry>): seq<Pass.Item> {
    seq(|log|, i requires 0 <= i < |log| => log[i].item)
  }

  function HandOf(pass: Running): seq<Pass.Item> {
    if pass != NoPass && HasItem(pass.pc) then [pass.pc.item] else []
  }

  /** The item in the hands of the pass, or of the pass that has ended the task. */
  function InHand(s: State): seq<Pass.Item> {
    HandOf(s.pass) + if s.task.Panicked? && s.task.cause.BadClock? then [s.task.cause.item] else []
  }

  /** Every item that was sent is in exactly one place, and items are taken in the order of sending. */
  ghost predicate Conserved(s: State) {
    s.items.sent == ItemsOf(s.items.log) + InHand(s) + s.items.waiting
  }

  predicate ExpiryRespected(e: Entry) {
    e.fate == Pass.Expired <==>
      e.now > e.item.enqueuedAt + if e.item.expireAfter.Some? then e.item.expireAfter.value else e.timeout
  }

  /** Exactly the items that tested as expired are dropped as such. */
  ghost predicate Tested(s: State) {
    && (forall i :: 0 <= i < |s.items.log| ==> ExpiryRespected(s.items.log[i]))
    && (s.pass != NoPass && (s.pass.pc.Creating? || s.pass.pc.Committed?) ==>
          !ExpiryRespected(Entry(s.pass.pc.item, Pass.Expired, s.pass.pc.now, s.pass.pc.timeout, false)))
  }

  lemma TestedPassStep(s: State, l: PassLabel)
    requires PassEnabled(s, l) && Tested(s)
    ensures Tested(PassNext(s, l))
  {
  }

  lemma ItemsMove(s: State, l: PassLabel)
    requires Control(s) && PassEnabled(s, l)
    ensures var s' := PassNext(s, l);
      || (s'.items == s.items && InHand(s') == InHand(s))
      || (s'.items.(waiting := s.items.waiting) == s.items
          && InHand(s) == [] && |InHand(s')| == 1 && s.items.waiting == InHand(s') + s'.items.waiting)
      || (s'.items.log != [] && s'.items == s.items.(log := s.items.log + [Last(s'.items.log)])
          && InHand(s) == [Last(s'.items.log).item] && InHand(s') == [])
  {
  }

  /** A step of a pass leaves its items alone, takes one in hand, or gives the one in hand its fate. */
  lemma PassItems(s: State, l: PassLabel)
    requires Control(s) && PassEnabled(s, l) && Tested(s)
    ensures Tested(PassNext(s, l))
    ensures var s' := PassNext(s, l);
      && s'.items.sent == s.items.sent
      && if s'.items.log != s.items.log then
           && s'.items.log != [] && s'.items.log == s.items.log + [Last(s'.items.log)]
           && InHand(s) == [Last(s'.items.log).item] && InHand(s') == []
           && s'.items.waiting == s.items.waiting
         else
           InHand(s) + s.items.waiting == InHand(s') + s'.items.waiting
  {
    TestedPassStep(s, l);
    ItemsMove(s, l);
  }

  lemma Regrouped(log: seq<Entry>, log': seq<Entry>, hand: seq<Pass.Item>, hand': seq<Pass.Item>,
                  waiting: seq<Pass.Item>, waiting': seq<Pass.Item>)
    requires if log' == log then hand + waiting == hand' + waiting'
             else log' != [] && log' == log + [Last(log')] && hand == [Last(log').item] && hand' == [] && waiting' == waiting
    ensures ItemsOf(log) + hand + waiting == ItemsOf(log') + hand' + waiting'
  {
    if log' == log {
      assert ItemsOf(log) + hand + waiting == ItemsOf(log) + (hand + waiting);
      assert ItemsOf(log) + hand' + waiting' == ItemsOf(log) + (hand' + waiting');
    } else {
      assert ItemsOf(log') == ItemsOf(log) + hand;
    }
  }

  lemma ConservedPassStep(s: State, l: PassLabel)
    requires Control(s) && Conserved(s) && Tested(s) && PassEnabled(s, l)
    ensures Conserved(PassNext(s, l))
  {
    var s' := PassNext(s, l);
    PassItems(s, l);
    Regrouped(s.items.log, s'.items.log, InHand(s), InHand(s'), s.items.waiting, s'.items.waiting);
  }

  lemma ConservedOuterStep(s: State, l: OuterLabel)
    requires Conserved(s) && Tested(s) && OuterEnabled(s, l)
    ensures Conserved(OuterNext(s, l)) && Tested(OuterNext(s, l))
  {
  }

  // ---------------------------------------------------------------------------
  // No lost wake-up
  // ---------------------------------------------------------------------------

  /** Something will still lead to a pass, unless the task ends. */
  ghost predicate Pending(s: State) {
    || s.events.Fresh()
    || (s.task == AllBranches && s.config.changes.Fresh())
    || s.queueLoop in {Woken, Waiting}
    || s.configLoop in {Woken, Waiting}
    || s.items.half > 0
    || s.watch.half
  }

  /** Enough jobs run, exist without having been seen, or are about to be created with capacity `f`. */
  ghost predicate Served(s: State, f: nat) {
    Unobserved(s.cluster.stream) > 0 || Word(s.watch.tally.running) + f >= s.config.read
  }

  /** The gauges can take the counter. */
  predicate InRange(s: State) {
    Word(s.watch.tally.running) < GAUGE
  }

  /** What the current pass has read still holds, or the last pass has left nothing to do; and what was
      shown on the gauges last is still so. */
  ghost predicate Settled(s: State) {
    if s.pass == NoPass then (s.items.waiting == [] || Served(s, 0)) && InRange(s)
    else
      var pc := s.pass.pc;
      && (!pc.Locked? && !pc.HaveRunning? ==> pc.w == |s.items.waiting|)
      && (pc.HaveLimit? ==> s.pass.limit == s.config.read)
      && (Scanning(pc) ==> InRange(s))
      && (Scanning(pc) && !pc.Committed? ==> Served(s, pc.f))
      && (pc.Committed? ==> Unobserved(s.cluster.stream) > 0)
  }

  ghost predicate Awake(s: State) {
    s.task.Panicked? || Pending(s) || Settled(s)
  }

  lemma {:induction false} UnobservedAppend(stream: seq<ServerEvent>, e: ServerEvent)
    ensures Unobserved(stream + [e]) == Unobserved(stream) + if e.Appeared? then 1 else 0
  {
    if stream == [] {
      assert stream + [e] == [e];
    } else {
      assert (stream + [e])[1..] == stream[1..] + [e];
      UnobservedAppend(stream[1..], e);
    }
  }

  lemma SettledPassStep(s: State, l: PassLabel)
    requires Control(s) && PassEnabled(s, l)
    requires Awake(s)
    ensures Awake(PassNext(s, l))
  {
    if l.Commit? {
      UnobservedAppend(s.cluster.stream, Appeared(s.pass.pc.item.job, l.status));
    }
  }

  lemma SettledOuterStep(s: State, l: OuterLabel)
    requires Control(s) && OuterEnabled(s, l)
    requires Awake(s)
    ensures Awake(OuterNext(s, l))
  {
    if l.ServerUpdate? {
      UnobservedAppend(s.cluster.stream, Updated(l.key, l.status));
    } else if l.ServerDelete? {
      UnobservedAppend(s.cluster.stream, Removed(l.key));
    }
  }

  predicate BeforeLimit(pass: Running) {
    pass != NoPass && (pass.pc.Locked? || pass.pc.HaveRunning? || pass.pc.HaveWaiting?)
  }

  /** The limit that was read last is the current one, or a change is on its way to a pass, or it was
      missed. And while a change can be missed, no job has been seen that no pass is going to count. */
  ghost predicate ReadCurrent(s: State) {
    && (|| s.task.Panicked?
        || s.config.read == s.config.limit
        || s.config.missed
        || (s.task == AllBranches && s.config.changes.Fresh())
        || s.configLoop in {Woken, Waiting}
        || (s.configLoop == InPass && BeforeLimit(s.pass)))
    && (!s.task.Panicked? && (s.config.missed || s.task != AllBranches) && !Pending(s) && !BeforeLimit(s.pass) ==>
          s.watch.tally.running == 0)
  }

  lemma ReadCurrentPassStep(s: State, l: PassLabel)
    requires Control(s) && ReadCurrent(s) && PassEnabled(s, l)
    ensures ReadCurrent(PassNext(s, l))
  {
  }

  lemma ReadCurrentOuterStep(s: State, l: OuterLabel)
    requires Control(s) && ReadCurrent(s) && OuterEnabled(s, l)
    ensures ReadCurrent(OuterNext(s, l))
  {
  }

  // ---------------------------------------------------------------------------
  // Panics
  // ---------------------------------------------------------------------------

  /** The task ends only for a cause that is there; the counter does not move after that. */
  ghost predicate Caused(s: State) {
    s.task.Panicked? ==>
      match s.task.cause
      case BadGauge(limit) => Pass.GaugePanics(Word(s.watch.tally.running), limit)
      case BadClock(item, now, later, timeout) => Pass.ClockPanics(item, now, later, timeout)
  }

  lemma CausedStep(s: State, l: Label)
    requires Control(s) && Caused(s) && Enabled(s, l)
    ensures Caused(Next(s, l))
    ensures s.task.Panicked? ==> Next(s, l).task == s.task && Next(s, l).watch == s.watch
  {
  }

  // ---------------------------------------------------------------------------
  // The counter against the server
  // ---------------------------------------------------------------------------

  function View(m: map<Key, JobStatus>, stream: seq<ServerEvent>): map<Key, JobStatus>
    decreases |stream|
  {
    if stream == [] then m else Applied(View(m, stream[..|stream| - 1]), Last(stream))
  }

  function Applied(m: map<Key, JobStatus>, e: ServerEvent): map<Key, JobStatus> {
    match e
    case Appeared(k, st) => m[k := st]
    case Updated(k, st) => m[k := st]
    case Removed(k) => m - {k}
  }

  predicate Possible(m: map<Key, JobStatus>, e: ServerEvent) {
    match e
    case Appeared(k, _) => k !in m
    case Updated(k, st) => k in m && (m[k].Finished() ==> st.Finished())
    case Removed(k) => k in m
  }

  ghost predicate PossibleStream(m: map<Key, JobStatus>, stream: seq<ServerEvent>) {
    forall i :: 0 <= i < |stream| ==> Possible(View(m, stream[..i]), stream[i])
  }

  /** The map of the watch handler, brought forward by the undelivered events, is the server; and the
      counter follows the drift law. */
  ghost predicate Mirrored(w: Watch, c: Cluster) {
    && PossibleStream(w.tally.statuses, c.stream)
    && View(w.tally.statuses, c.stream) == c.jobs
    && w.tally.running == Active(w.tally.statuses) + w.late - w.rechanged
  }

  lemma ViewAppend(m: map<Key, JobStatus>, stream: seq<ServerEvent>, e: ServerEvent)
    requires PossibleStream(m, stream) && Possible(View(m, stream), e)
    ensures View(m, stream + [e]) == Applied(View(m, stream), e)
    ensures PossibleStream(m, stream + [e])
  {
    var longer := stream + [e];
    assert longer[..|longer| - 1] == stream;
    forall i | 0 <= i < |longer| ensures Possible(View(m, longer[..i]), longer[i]) {
      assert longer[..i] == stream[..i];
      assert i == |stream| ==> stream[..i] == stream;
    }
  }

  lemma {:induction false} ViewDeliver(m: map<Key, JobStatus>, stream: seq<ServerEvent>)
    requires stream != []
    ensures View(m, stream) == View(Applied(m, stream[0]), stream[1..])
    decreases |stream|
  {
    var before := stream[..|stream| - 1];
    if before == [] {
      assert View(m, before) == m;
    } else {
      ViewDeliver(m, before);
      assert before[1..] == stream[1..][..|stream[1..]| - 1];
    }
  }

  lemma PossibleDeliver(m: map<Key, JobStatus>, stream: seq<ServerEvent>)
    requires stream != [] && PossibleStream(m, stream)
    ensures PossibleStream(Applied(m, stream[0]), stream[1..])
  {
    var rest := stream[1..];
    forall i | 0 <= i < |rest| ensures Possible(View(Applied(m, stream[0]), rest[..i]), rest[i]) {
      ViewDeliver(m, stream[..i + 1]);
      assert stream[..i + 1][1..] == rest[..i];
      assert Possible(View(m, stream[..i + 1]), stream[i + 1]);
    }
  }

  lemma MirroredDeliver(w: Watch, c: Cluster)
    requires Mirrored(w, c) && c.stream != []
    ensures Mirrored(Delivered(w, AsWatchEvent(c.stream[0])), c.(stream := c.stream[1..]))
  {
    ViewDeliver(w.tally.statuses, c.stream);
    PossibleDeliver(w.tally.statuses, c.stream);
    DriftStep(w.tally, AsWatchEvent(c.stream[0]));
    assert Observe(w.tally, AsWatchEvent(c.stream[0])).statuses == Applied(w.tally.statuses, c.stream[0]);
  }

  lemma MirroredOuterStep(s: State, l: OuterLabel)
    requires Mirrored(s.watch, s.cluster) && OuterEnabled(s, l)
    ensures Mirrored(OuterNext(s, l).watch, OuterNext(s, l).cluster)
  {
    if l.ServerUpdate? {
      ViewAppend(s.watch.tally.statuses, s.cluster.stream, Updated(l.key, l.status));
    } else if l.ServerDelete? {
      ViewAppend(s.watch.tally.statuses, s.cluster.stream, Removed(l.key));
    } else if l.Deliver? {
      MirroredDeliver(s.watch, s.cluster);
    }
  }

  lemma MirroredPassStep(s: State, l: PassLabel)
    requires Mirrored(s.watch, s.cluster) && PassEnabled(s, l)
    ensures Mirrored(PassNext(s, l).watch, PassNext(s, l).cluster)
  {
    if l.Commit? {
      ViewAppend(s.watch.tally.statuses, s.cluster.stream, Appeared(s.pass.pc.item.job, l.status));
    }
  }

  /** An event makes a job active only if it announces the job. */
  lemma ActiveApplied(m: map<Key, JobStatus>, e: ServerEvent)
    requires Possible(m, e)
    ensures Active(Applied(m, e)) <= Active(m) + if e.Appeared? then 1 else 0
  {
    match e
    case Appeared(k, st) => UnfinishedAfterInsert(m, k, st);
    case Updated(k, st) => UnfinishedAfterInsert(m, k, st);
    case Removed(k) => UnfinishedAfterRemove(m, k);
  }

  /** The handler may be behind the server, but only by the jobs that it has not seen at all. */
  lemma {:induction false} ActiveBehind(m: map<Key, JobStatus>, stream: seq<ServerEvent>)
    requires PossibleStream(m, stream)
    ensures Active(View(m, stream)) <= Active(m) + Unobserved(stream)
    decreases |stream|
  {
    if stream != [] {
      var before := stream[..|stream| - 1];
      assert stream == before + [Last(stream)];
      forall i | 0 <= i < |before| ensures Possible(View(m, before[..i]), before[i]) {
        assert before[..i] == stream[..i];
      }
      ActiveBehind(m, before);
      ActiveApplied(View(m, before), Last(stream));
      UnobservedAppend(before, Last(stream));
    }
  }

  // ---------------------------------------------------------------------------
  // Capacity
  // ---------------------------------------------------------------------------

  /** The jobs made and the capacity left add up to the capacity found; nobody else makes jobs active. */
  ghost predicate Capacity(p: Running, jobs: map<Key, JobStatus>) {
    p != NoPass ==>
      && (p.pc.Locked? || Reading(p.pc) ==> p.made == p.lost == 0)
      && (Reading(p.pc) ==> p.pc.r == Word(p.snap.counter))
      && (!p.pc.Locked? ==>
            && p.snap.active <= p.snap.counter + p.snap.rechanged + p.snap.unobserved
            && Active(jobs) <= p.snap.active + p.made)
      && (Scanning(p.pc) ==>
            Word(p.snap.counter) + p.made + p.pc.f == p.limit + p.lost + if p.pc.Committed? then 1 else 0)
  }

  lemma ActiveOuterStep(s: State, l: OuterLabel)
    requires OuterEnabled(s, l)
    ensures Active(OuterNext(s, l).cluster.jobs) <= Active(s.cluster.jobs)
  {
    if l.ServerUpdate? {
      ActiveApplied(s.cluster.jobs, Updated(l.key, l.status));
    } else if l.ServerDelete? {
      ActiveApplied(s.cluster.jobs, Removed(l.key));
    }
  }

  lemma CapacityOuterStep(s: State, l: OuterLabel)
    requires Capacity(s.pass, s.cluster.jobs) && OuterEnabled(s, l)
    ensures Capacity(OuterNext(s, l).pass, OuterNext(s, l).cluster.jobs)
  {
    ActiveOuterStep(s, l);
  }

  lemma CapacityPassStep(s: State, l: PassLabel)
    requires Capacity(s.pass, s.cluster.jobs) && Mirrored(s.watch, s.cluster) && PassEnabled(s, l)
    ensures Capacity(PassNext(s, l).pass, PassNext(s, l).cluster.jobs)
  {
    if l.ReadRunning? {
      ActiveBehind(s.watch.tally.statuses, s.cluster.stream);
    } else if l.Commit? {
      ActiveApplied(s.cluster.jobs, Appeared(s.pass.pc.item.job, l.status));
    }
  }

  // ---------------------------------------------------------------------------
  // The jobs on the server
  // ---------------------------------------------------------------------------

  /** An item whose job was created. */
  ghost predicate CameFrom(k: Key, log: seq<Entry>, pass: Running) {
    || (exists i :: 0 <= i < |log| && log[i].onServer && log[i].item.job == k)
    || (pass != NoPass && pass.pc.Committed? && pass.pc.item.job == k)
  }

  ghost predicate Sourced(s: State) {
    && (forall k <- s.cluster.jobs :: CameFrom(k, s.items.log, s.pass))
    && (forall i :: 0 <= i < |s.items.log| && s.items.log[i].onServer ==> s.items.log[i].fate != Pass.Expired)
    && (forall i :: 0 <= i < |s.items.log| && s.items.log[i].fate == Pass.Created ==> s.items.log[i].onServer)
  }

  lemma SourcedOuterStep(s: State, l: OuterLabel)
    requires Sourced(s) && OuterEnabled(s, l)
    ensures Sourced(OuterNext(s, l))
  {
  }

  lemma SourcedPassStep(s: State, l: PassLabel)
    requires Sourced(s) && PassEnabled(s, l)
    ensures Sourced(PassNext(s, l))
  {
    var s' := PassNext(s, l);
    forall k | k in s'.cluster.jobs ensures CameFrom(k, s'.items.log, s'.pass) {
      if k in s.cluster.jobs {
        assert CameFrom(k, s.items.log, s.pass);
        if s.pass.pc.Committed? && s.pass.pc.item.job == k {
          assert s'.items.log[|s.items.log|].item.job == k;
        } else {
          var i :| 0 <= i < |s.items.log| && s.items.log[i].onServer && s.items.log[i].item.job == k;
          assert s'.items.log[i] == s.items.log[i];
        }
      }
    }
  }

  // ---------------------------------------------------------------------------
  // Passes are greedy
  // ---------------------------------------------------------------------------

  /** The fates that the current pass has given. */
  function PassFates(s: State): seq<Pass.Fate> {
    if s.pass == NoPass || s.pass.from > |s.items.log| then [] else FatesOf(s.items.log[s.pass.from..])
  }

  function FatesOf(log: seq<Entry>): seq<Pass.Fate> {
    seq(|log|, i requires 0 <= i < |log| => log[i].fate)
  }

  lemma FatesOfAppend(log: seq<Entry>, from: nat, e: Entry)
    requires from <= |log|
    ensures FatesOf((log + [e])[from..]) == FatesOf(log[from..]) + [e.fate]
  {
    assert (log + [e])[from..] == log[from..] + [e];
  }

  /** Before each of these fates some capacity was left. */
  ghost predicate CapacityLeft(fates: seq<Pass.Fate>, running: nat, limit: nat) {
    forall m :: 0 <= m < |fates| ==> running + Pass.Creates(fates[..m]) < limit
  }

  /** How far the pass is, by its own account. */
  ghost predicate Progress(p: Running, fates: seq<Pass.Fate>, logged: nat) {
    p != NoPass ==>
      && (p.pc.HaveWaiting? || p.pc.HaveLimit? ==> p.count == p.pc.w && p.from == logged)
      && (Reading(p.pc) ==> p.pc.r == Word(p.snap.counter))
      && (Scanning(p.pc) ==>
            && p.from <= logged
            && |fates| + |HandOf(p)| + p.pc.w == p.count
            && Word(p.snap.counter) + Pass.Creates(fates) + p.pc.f == p.limit
            && (HasItem(p.pc) ==> p.pc.f > 0)
            && CapacityLeft(fates, Word(p.snap.counter), p.limit))
  }

  ghost predicate InProgress(s: State) {
    Progress(s.pass, PassFates(s), |s.items.log|)
  }

  lemma ProgressOuterStep(s: State, l: OuterLabel)
    requires InProgress(s) && OuterEnabled(s, l)
    ensures InProgress(OuterNext(s, l))
  {
  }

  lemma MoreFates(fates: seq<Pass.Fate>, fate: Pass.Fate, running: nat, limit: nat)
    requires CapacityLeft(fates, running, limit) && running + Pass.Creates(fates) < limit
    ensures CapacityLeft(fates + [fate], running, limit)
    ensures Pass.Creates(fates + [fate]) == Pass.Creates(fates) + if fate == Pass.Created then 1 else 0
  {
    var longer := fates + [fate];
    assert longer[..|fates|] == fates;
    forall m | 0 <= m < |longer| ensures running + Pass.Creates(longer[..m]) < limit {
      if m < |fates| {
        assert longer[..m] == fates[..m];
      }
    }
  }

  predicate Finishes(s: State, l: PassLabel) {
    || l.Respond? || l.Reject?
    || (l.Test? && s.pass != NoPass && HasItem(s.pass.pc)
        && !Pass.ClockPanics(s.pass.pc.item, l.now, l.later, s.config.timeout)
        && Pass.IsExpired(s.pass.pc.item, l.now, s.config.timeout))
  }

  lemma FatesGrow(s: State, l: PassLabel)
    requires PassEnabled(s, l) && Finishes(s, l) && s.pass.from <= |s.items.log|
    ensures var s' := PassNext(s, l);
      && s'.items.log != [] && |s'.items.log| == |s.items.log| + 1
      && PassFates(s') == PassFates(s) + [Last(s'.items.log).fate]
      && s'.pass == s.pass.(pc := s'.pass.pc, lost := s'.pass.lost)
      && s'.pass.pc == Reporting(s.pass.pc.w, s.pass.pc.f - if Last(s'.items.log).fate == Pass.Created then 1 else 0)
  {
    FatesOfAppend(s.items.log, s.pass.from, Last(PassNext(s, l).items.log));
  }

  lemma ProgressByFate(p: Running, p': Running, fates: seq<Pass.Fate>, fate: Pass.Fate, logged: nat)
    requires Progress(p, fates, logged) && p != NoPass && HasItem(p.pc)
    requires p' != NoPass && p'.pc == Reporting(p.pc.w, p.pc.f - if fate == Pass.Created then 1 else 0)
    requires p'.snap == p.snap && p'.limit == p.limit && p'.count == p.count && p'.from == p.from
    ensures Progress(p', fates + [fate], logged + 1)
  {
    MoreFates(fates, fate, Word(p.snap.counter), p.limit);
  }

  lemma ProgressFinishes(s: State, l: PassLabel)
    requires InProgress(s) && PassEnabled(s, l) && Finishes(s, l)
    ensures InProgress(PassNext(s, l))
  {
    var s' := PassNext(s, l);
    FatesGrow(s, l);
    ProgressByFate(s.pass, s'.pass, PassFates(s), Last(s'.items.log).fate, |s.items.log|);
  }

  lemma ProgressElse(s: State, l: PassLabel)
    requires InProgress(s) && PassEnabled(s, l) && !Finishes(s, l)
    ensures InProgress(PassNext(s, l))
  {
    var s' := PassNext(s, l);
    assert s'.items.log == s.items.log;
    if s'.pass != NoPass {
      if l.Gauges? && s.pass.pc.HaveLimit? {
        assert PassFates(s') == [];
      } else {
        assert s.pass.from == s'.pass.from ==> PassFates(s') == PassFates(s);
      }
    }
  }

  lemma ProgressPassStep(s: State, l: PassLabel)
    requires InProgress(s) && PassEnabled(s, l)
    ensures InProgress(PassNext(s, l))
  {
    if Finishes(s, l) {
      ProgressFinishes(s, l);
    } else {
      ProgressElse(s, l);
    }
  }
}
