/** The jobs queue as a step system (src/jobs.rs:255-474). The two event loops with their passes over the
    queue and the watch-event handler are branches of one task, which changes between them at await points
    only; producers, the API server and the runtime configuration interleave freely with it. A step is an
    action that the others see as atomic. */
module JobsProtocol {
  import opened Wrappers
  import opened JobWatch
  import Pass = RunQueue

  /** A tokio watch channel with its one receiver. */
  datatype Channel = Channel(version: nat, seen: nat) {
    predicate Fresh() {
      version > seen
    }

    function Changed(): Channel {
      this.(version := version + 1)
    }

    function Marked(): Channel {
      this.(seen := version)
    }
  }

  /** An undelivered watch event of a job of this controller. */
  datatype ServerEvent =
    | Appeared(key: Key, status: JobStatus)
    | Updated(key: Key, status: JobStatus)
    | Removed(key: Key)

  /** The jobs of this controller on the API server, and the events that have not been delivered. */
  datatype Cluster = Cluster(jobs: map<Key, JobStatus>, stream: seq<ServerEvent>)

  /** The watch handler; `half`: it has updated the counter, but not sent its event yet. History:
      the jobs first seen finished, and the status changes after finishing. */
  datatype Watch = Watch(tally: Tally, half: bool, late: nat, rechanged: nat)

  /** The fate of an item, with the time and the timeout of its expiry test; `onServer`: the API server
      has created its job. */
  datatype Entry = Entry(item: Pass.Item, fate: Pass.Fate, now: nat, timeout: nat, onServer: bool)

  /** The channel of items; `half` counts the producers that have sent their item, but not their event
      yet. History: everything that was sent, and the fates of the items that were taken. */
  datatype Items = Items(waiting: seq<Pass.Item>, half: nat, sent: seq<Pass.Item>, log: seq<Entry>)

  /** The runtime configuration. History: `read` is the limit that a pass has read last, at first the
      initial one; `missed` says that a change came before the config loop subscribed, and that no pass
      has read the limit since. */
  datatype Config = Config(limit: nat, timeout: nat, changes: Channel, read: nat, missed: bool)

  /** What ends the task: the gauges cannot take the counter or this limit (src/jobs.rs:151-159), or the
      clock cannot handle this item in hand (src/jobs.rs:240-245, 403). */
  datatype Cause = BadGauge(limit: nat) | BadClock(item: Pass.Item, now: nat, later: nat, timeout: nat)

  /** The task polls its branches in a fixed order: the queue loop comes first, then the watch handler,
      and only then the config loop subscribes. From the second time on, any of them may run. */
  datatype Task = QueueBranch | StreamBranch | AllBranches | Panicked(cause: Cause)

  datatype LoopId = QueueLoop | ConfigLoop

  /** `Woken`: `changed` has returned; `Waiting`: the event is marked as seen and `run_queue` waits
      for the receiver lock; `InPass`: the loop holds the lock. */
  datatype LoopPc = Idle | Woken | Waiting | InPass

  /** The program counter of a pass, with its locals: the running counter `r` as it was read, the
      remaining snapshot `w` of waiting items and the remaining free capacity `f`. At `HaveLimit` and at
      `Reporting` it is about to update the gauges. */
  datatype PassPc =
    | Locked
    | HaveRunning(r: nat)
    | HaveWaiting(r: nat, w: nat)
    | HaveLimit(r: nat, w: nat)
    | Scan(w: nat, f: nat)
    | Popped(w: nat, f: nat, item: Pass.Item)
    | Creating(w: nat, f: nat, item: Pass.Item, now: nat, timeout: nat)
    | Committed(w: nat, f: nat, item: Pass.Item, now: nat, timeout: nat)
    | Reporting(w: nat, f: nat)

  /** What a pass found when it read the counter. History only: no step depends on it. */
  datatype Snapshot = Snapshot(counter: int, active: nat, unobserved: nat, rechanged: nat)

  const NOTHING := Snapshot(0, 0, 0, 0)

  /** History of a pass: `limit` is the limit it has read; `made` counts the jobs it has created, and
      `lost` those of them that the API answered with an error although the job exists. It found
      `count` items waiting when the log had `from` entries. */
  datatype Running = NoPass | InQueue(owner: LoopId, pc: PassPc, snap: Snapshot, limit: nat, made: nat, lost: nat,
                                      count: nat, from: nat)

  datatype State = State(items: Items, cluster: Cluster, watch: Watch, config: Config, events: Channel, task: Task,
                         queueLoop: LoopPc, configLoop: LoopPc, pass: Running)

  /** Steps outside of a pass. */
  datatype OuterLabel =
    | Send(item: Pass.Item) | Notify
    | ServerUpdate(key: Key, status: JobStatus) | ServerDelete(key: Key)
    | Deliver | StreamFault | WatchNotify
    | ConfigChange(limit: nat, timeout: nat) | PollStream | Subscribe
    | Wake(id: LoopId) | Mark(id: LoopId) | Lock(id: LoopId)

  /** Steps of the pass that holds the lock. */
  datatype PassLabel =
    | ReadRunning | ReadWaiting | ReadLimit | Gauges | Pop | Test(now: nat, later: nat)
    | Commit(status: JobStatus) | Respond(ok: bool) | Reject | End

  datatype Label = Outer(outer: OuterLabel) | Inner(inner: PassLabel)

  function Init(limit: nat, timeout: nat): State {
    State(Items([], 0, [], []), Cluster(map[], []), Watch(EMPTY, false, 0, 0),
          Config(limit, timeout, Channel(0, 0), limit, false), Channel(0, 0),
          if limit >= GAUGE then Panicked(BadGauge(limit)) else QueueBranch, Idle, Idle, NoPass)
  }

  // ---------------------------------------------------------------------------
  // Steps
  // ---------------------------------------------------------------------------

  function Word(counter: int): nat {
    counter % WORD
  }

  function AsWatchEvent(e: ServerEvent): WatchEvent {
    match e
    case Appeared(k, st) => Touched(k, Some(st))
    case Updated(k, st) => Touched(k, Some(st))
    case Removed(k) => Touched(k, None)
  }

  function Active(m: map<Key, JobStatus>): nat {
    |Unfinished(m)|
  }

  /** Jobs that have been created without having been seen by the watch handler. */
  function Unobserved(stream: seq<ServerEvent>): nat {
    if stream == [] then 0 else (if stream[0].Appeared? then 1 else 0) + Unobserved(stream[1..])
  }

  function LoopPcOf(s: State, id: LoopId): LoopPc {
    if id == QueueLoop then s.queueLoop else s.configLoop
  }

  function SetLoop(s: State, id: LoopId, pc: LoopPc): State {
    if id == QueueLoop then s.(queueLoop := pc) else s.(configLoop := pc)
  }

  predicate Fresh(s: State, id: LoopId) {
    if id == QueueLoop then s.events.Fresh() else s.config.changes.Fresh()
  }

  function MarkSeen(s: State, id: LoopId): State {
    if id == QueueLoop then s.(events := s.events.Marked())
    else s.(config := s.config.(changes := s.config.changes.Marked()))
  }

  /** Where the task may leave a pass for another branch. */
  predicate AtAwait(pass: Running) {
    pass == NoPass || pass.pc.Scan? || pass.pc.Creating? || pass.pc.Committed?
  }

  /** The task can run the watch handler. */
  predicate StreamRuns(s: State) {
    (s.task == StreamBranch || s.task == AllBranches) && AtAwait(s.pass)
  }

  /** The task can run a loop; each time it leaves the watch handler, no event is half handled. */
  predicate LoopRuns(s: State, id: LoopId) {
    (s.task == AllBranches || (s.task == QueueBranch && id == QueueLoop)) && !s.watch.half
  }

  predicate OuterEnabled(s: State, l: OuterLabel) {
    match l
    case Send(_) => true
    case Notify => s.items.half > 0
    case ServerUpdate(k, st) => k in s.cluster.jobs && (s.cluster.jobs[k].Finished() ==> st.Finished())
    case ServerDelete(k) => k in s.cluster.jobs
    case Deliver => StreamRuns(s) && !s.watch.half && s.cluster.stream != []
    case StreamFault => StreamRuns(s) && !s.watch.half
    case WatchNotify => StreamRuns(s) && s.watch.half
    case ConfigChange(_, _) => true
    case PollStream => s.task == QueueBranch && AtAwait(s.pass)
    case Subscribe => s.task == StreamBranch && !s.watch.half
    case Wake(id) => LoopRuns(s, id) && LoopPcOf(s, id) == Idle && Fresh(s, id)
    case Mark(id) => LoopRuns(s, id) && LoopPcOf(s, id) == Woken
    case Lock(id) => LoopRuns(s, id) && LoopPcOf(s, id) == Waiting && s.pass == NoPass
  }

  predicate PassEnabled(s: State, l: PassLabel) {
    s.pass != NoPass && LoopRuns(s, s.pass.owner) &&
    var pc := s.pass.pc;
    match l
    case ReadRunning => pc.Locked?
    case ReadWaiting => pc.HaveRunning?
    case ReadLimit => pc.HaveWaiting?
    case Gauges => pc.HaveLimit? || pc.Reporting?
    case Pop => pc.Scan? && pc.w > 0 && pc.f > 0 && s.items.waiting != []
    case Test(_, _) => pc.Popped?
    case Commit(_) => pc.Creating? && pc.item.job !in s.cluster.jobs
    case Respond(_) => pc.Committed? && pc.f > 0
    case Reject => pc.Creating?
    case End => pc.Scan? && (pc.w == 0 || pc.f == 0)
  }

  predicate Enabled(s: State, l: Label) {
    match l
    case Outer(o) => OuterEnabled(s, o)
    case Inner(i) => PassEnabled(s, i)
  }

  function Next(s: State, l: Label): State
    requires Enabled(s, l)
  {
    match l
    case Outer(o) => OuterNext(s, o)
    case Inner(i) => PassNext(s, i)
  }

  function Delivered(w: Watch, e: WatchEvent): Watch {
    Watch(Observe(w.tally, e), true,
          w.late + (if FirstSeenFinished(w.tally.statuses, e) then 1 else 0),
          w.rechanged + (if ChangedAfterFinish(w.tally.statuses, e) then 1 else 0))
  }

  function OuterNext(s: State, l: OuterLabel): State
    requires OuterEnabled(s, l)
  {
    match l
    // enqueue: the item is sent before the event, which needs the receiver in the task
    case Send(item) =>
      s.(items := s.items.(waiting := s.items.waiting + [item], sent := s.items.sent + [item], half := s.items.half + 1))
    case Notify =>
      s.(items := s.items.(half := s.items.half - 1), events := if s.task.Panicked? then s.events else s.events.Changed())
    // the API server, apart from creates
    case ServerUpdate(k, st) =>
      s.(cluster := Cluster(s.cluster.jobs[k := st], s.cluster.stream + [Updated(k, st)]))
    case ServerDelete(k) =>
      s.(cluster := Cluster(s.cluster.jobs - {k}, s.cluster.stream + [Removed(k)]))
    // the watch handler: the counter is updated before the event is sent
    case Deliver =>
      s.(cluster := s.cluster.(stream := s.cluster.stream[1..]),
         watch := Delivered(s.watch, AsWatchEvent(s.cluster.stream[0])))
    case StreamFault => s.(watch := Delivered(s.watch, StreamError))
    case WatchNotify => s.(watch := s.watch.(half := false), events := s.events.Changed())
    // the runtime configuration
    case ConfigChange(limit, timeout) =>
      s.(config := Config(limit, timeout, s.config.changes.Changed(), s.config.read,
                          s.config.missed || s.task != AllBranches))
    // the first poll of the task
    case PollStream => s.(task := StreamBranch)
    case Subscribe => MarkSeen(s, ConfigLoop).(task := AllBranches)
    // the two event loops
    case Wake(id) => SetLoop(MarkSeen(s, id), id, Woken)
    case Mark(id) => SetLoop(MarkSeen(s, id), id, Waiting)
    case Lock(id) => SetLoop(s, id, InPass).(pass := InQueue(id, Locked, NOTHING, 0, 0, 0, 0, 0))
  }

  function AtPc(s: State, pc: PassPc): State
    requires s.pass != NoPass
  {
    s.(pass := s.pass.(pc := pc))
  }

  /** The item in hand gets its fate, and the pass goes on with the given capacity. */
  function Logged(s: State, fate: Pass.Fate, now: nat, timeout: nat, f: nat): State
    requires s.pass != NoPass && (s.pass.pc.Popped? || s.pass.pc.Creating? || s.pass.pc.Committed?)
  {
    AtPc(s, Reporting(s.pass.pc.w, f)).(items := s.items.(
      log := s.items.log + [Entry(s.pass.pc.item, fate, now, timeout, s.pass.pc.Committed?)]))
  }

  function Unlocked(s: State): State
    requires s.pass != NoPass
  {
    SetLoop(s, s.pass.owner, Idle).(pass := NoPass)
  }

  /** The panic ends the task, and the lock is free again. */
  function Crashed(s: State, cause: Cause): State
    requires s.pass != NoPass
  {
    Unlocked(s).(task := Panicked(cause))
  }

  function PassNext(s: State, l: PassLabel): State
    requires PassEnabled(s, l)
  {
    var pc := s.pass.pc;
    match l
    case ReadRunning =>
      s.(pass := s.pass.(
           pc := HaveRunning(Word(s.watch.tally.running)),
           snap := Snapshot(s.watch.tally.running, Active(s.cluster.jobs), Unobserved(s.cluster.stream), s.watch.rechanged)))
    case ReadWaiting =>
      var w := |s.items.waiting|;
      s.(pass := s.pass.(pc := HaveWaiting(pc.r, w), count := w, from := |s.items.log|))
    case ReadLimit =>
      s.(config := s.config.(read := s.config.limit, missed := false),
         pass := s.pass.(pc := HaveLimit(pc.r, pc.w), limit := s.config.limit))
    case Gauges =>
      if Pass.GaugePanics(Word(s.watch.tally.running), s.config.limit) then Crashed(s, BadGauge(s.config.limit))
      else if pc.Reporting? then AtPc(s, Scan(pc.w, pc.f))
      else if pc.r > s.pass.limit then Unlocked(s)
      else AtPc(s, Scan(pc.w, s.pass.limit - pc.r))
    case Pop =>
      AtPc(s, Popped(pc.w - 1, pc.f, s.items.waiting[0])).(items := s.items.(waiting := s.items.waiting[1..]))
    case Test(now, later) =>
      if Pass.ClockPanics(pc.item, now, later, s.config.timeout) then
        Crashed(s, BadClock(pc.item, now, later, s.config.timeout))
      else if Pass.IsExpired(pc.item, now, s.config.timeout) then Logged(s, Pass.Expired, now, s.config.timeout, pc.f)
      else AtPc(s, Creating(pc.w, pc.f, pc.item, now, s.config.timeout))
    case Commit(st) =>
      var k := pc.item.job;
      s.(cluster := Cluster(s.cluster.jobs[k := st], s.cluster.stream + [Appeared(k, st)]),
         pass := s.pass.(pc := Committed(pc.w, pc.f, pc.item, pc.now, pc.timeout), made := s.pass.made + 1))
    case Respond(ok) =>
      if ok then Logged(s, Pass.Created, pc.now, pc.timeout, pc.f - 1)
      else Logged(s.(pass := s.pass.(lost := s.pass.lost + 1)), Pass.CreateError, pc.now, pc.timeout, pc.f)
    case Reject => Logged(s, Pass.CreateError, pc.now, pc.timeout, pc.f)
    case End => Unlocked(s)
  }

  // ---------------------------------------------------------------------------
  // Runs
  // ---------------------------------------------------------------------------

  /** The state that a sequence of steps leads to; none if a step is not enabled in its turn. */
  function Run(start: State, labels: seq<Label>): Option<State> {
    if labels == [] then Some(start) else
      match Run(start, labels[..|labels| - 1])
      case None => None
      case Some(s) => if Enabled(s, Last(labels)) then Some(Next(s, Last(labels))) else None
  }
}
