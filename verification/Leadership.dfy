/** The main loop (src/bin/git-events-runner.rs:117-171) with the generations of leader controllers
    that it starts and stops (src/controller.rs:209-265). */
module Leadership {
  import opened Wrappers
  import Scheduling
  import Gen = SchedulingRuns

  type GenId = nat

  /** `Watching`: in the select, with the leadership that was read at the top of the loop. */
  datatype Pc = Top | HaveRead(isLeader: bool) | Watching(isLeader: bool) | Stopping | Exited

  /** `alive` holds the generations whose task has not ended, each with its trigger state and its
      scheduler. History: `startedBy` tells for every generation the leadership that was read. */
  datatype State = State(
    pc: Pc,
    shutdown: bool,
    lease: bool,
    leaseClosed: bool,
    leaseHeld: bool,
    controllers: Option<GenId>,
    stopSent: bool,
    alive: map<GenId, Gen.State>,
    startedBy: map<GenId, bool>)

  datatype Label =
    | ReadLease | StartControllers(id: GenId) | Signal | LeaseFlipped | LeaseChannelClosed
    | SendStop | Join | DropLease
    | LeaseChange(isLeader: bool) | LeaseClose
    | GenStep(id: GenId, step: Gen.Label) | GenEnd(id: GenId)

  function Init(lease: bool): State {
    State(Top, false, lease, false, true, None, false, map[], map[])
  }

  predicate Enabled(s: State, l: Label) {
    match l
    case ReadLease => s.pc == Top && !s.shutdown
    case StartControllers(id) => s.pc.HaveRead? && id !in s.startedBy
    case Signal => s.pc.Watching?
    case LeaseFlipped => s.pc.Watching? && s.lease != s.pc.isLeader
    case LeaseChannelClosed => s.pc.Watching? && s.lease == s.pc.isLeader && s.leaseClosed
    case SendStop => s.pc == Stopping && s.controllers.Some? && !s.stopSent
    case Join => s.pc == Stopping && (s.controllers.Some? ==> s.stopSent && s.controllers.value !in s.alive)
    case DropLease => s.pc == Top && s.shutdown
    case LeaseChange(_) => !s.leaseClosed
    case LeaseClose => true
    case GenStep(id, step) => id in s.alive && Gen.Enabled(s.alive[id], step)
    case GenEnd(id) => id in s.alive
  }

  function Next(s: State, l: Label, valid: Scheduling.Schedule -> bool): State
    requires Enabled(s, l)
  {
    match l
    case ReadLease => s.(pc := HaveRead(s.lease))
    case StartControllers(id) =>
      var watching := s.(pc := Watching(s.pc.isLeader), stopSent := false);
      if s.pc.isLeader then
        watching.(controllers := Some(id), alive := s.alive[id := Gen.INIT], startedBy := s.startedBy[id := s.pc.isLeader])
      else watching.(controllers := None)
    case Signal => s.(shutdown := true, pc := Stopping)
    case LeaseFlipped => s.(pc := Stopping)
    case LeaseChannelClosed => s.(shutdown := true)
    case SendStop => s.(stopSent := true)
    case Join => s.(controllers := None, pc := Top)
    case DropLease => s.(leaseHeld := false, pc := Exited)
    case LeaseChange(isLeader) => s.(lease := isLeader)
    case LeaseClose => s.(leaseClosed := true)
    case GenStep(id, step) => s.(alive := s.alive[id := Gen.Next(s.alive[id], step, valid)])
    case GenEnd(id) => s.(alive := s.alive - {id})
  }

  function Run(start: State, labels: seq<Label>, valid: Scheduling.Schedule -> bool): Option<State> {
    if labels == [] then Some(start) else
      match Run(start, labels[..|labels| - 1], valid)
      case None => None
      case Some(s) => if Enabled(s, Last(labels)) then Some(Next(s, Last(labels), valid)) else None
  }

  /** Only the generation that the loop still has to join can be alive, and only between its start
      and the join. */
  ghost predicate Inv(s: State, valid: Scheduling.Schedule -> bool) {
    && (forall id <- s.alive :: s.controllers == Some(id) && Gen.Inv(s.alive[id], valid))
    && (s.controllers.Some? ==> (s.pc.Watching? || s.pc == Stopping) && s.controllers.value in s.startedBy)
    && (s.pc.Watching? ==> (s.pc.isLeader <==> s.controllers.Some?))
    && (forall id <- s.startedBy :: s.startedBy[id])
    && (!s.leaseHeld <==> s.pc == Exited)
    && (s.shutdown ==> !s.pc.HaveRead?) && (s.pc == Exited ==> s.shutdown)
  }

  lemma GenerationStep(s: State, l: Label, valid: Scheduling.Schedule -> bool)
    requires Inv(s, valid) && Enabled(s, l) && (l.StartControllers? || l.GenStep? || l.GenEnd?)
    ensures Inv(Next(s, l, valid), valid)
  {
    match l
    case StartControllers(id) =>
      forall key ensures Gen.InvFor(Gen.INIT, key, valid) {
      }
    case GenStep(id, step) => Gen.InvStep(s.alive[id], step, valid);
    case GenEnd(_) =>
  }

  lemma LoopStep(s: State, l: Label, valid: Scheduling.Schedule -> bool)
    requires Inv(s, valid) && Enabled(s, l) && !l.StartControllers? && !l.GenStep? && !l.GenEnd?
    ensures Inv(Next(s, l, valid), valid)
  {
  }

  lemma {:induction false} AlwaysInv(lease: bool, labels: seq<Label>, valid: Scheduling.Schedule -> bool)
    requires Run(Init(lease), labels, valid).Some?
    ensures Inv(Run(Init(lease), labels, valid).value, valid)
  {
    if labels != [] {
      var before := labels[..|labels| - 1];
      AlwaysInv(lease, before, valid);
      var s := Run(Init(lease), before, valid).value;
      if Last(labels).StartControllers? || Last(labels).GenStep? || Last(labels).GenEnd? {
        GenerationStep(s, Last(labels), valid);
      } else {
        LoopStep(s, Last(labels), valid);
      }
    }
  }

  /** At most one generation is alive, it was started as a leader, and none is alive when another one
      starts or the lease has been dropped; after a shutdown was requested none starts. */
  lemma OneGeneration(lease: bool, labels: seq<Label>, valid: Scheduling.Schedule -> bool, s: State)
    requires Run(Init(lease), labels, valid) == Some(s)
    ensures |s.alive| <= 1
    ensures forall id <- s.alive :: id in s.startedBy && s.startedBy[id]
    ensures !s.leaseHeld || Enabled(s, DropLease) ==> s.alive == map[]
    ensures forall id :: Enabled(s, StartControllers(id)) ==> s.alive == map[] && !s.shutdown
  {
    AlwaysInv(lease, labels, valid);
    if s.alive.Keys != {} {
      assert s.alive.Keys == {s.controllers.value};
      assert |s.alive| == |s.alive.Keys|;
    } else {
      assert |s.alive| == |s.alive.Keys|;
    }
  }

  predicate RequestsShutdown(l: Label) {
    l.Signal? || l.LeaseChannelClosed?
  }

  lemma ShutdownStep(s: State, l: Label, valid: Scheduling.Schedule -> bool)
    requires Enabled(s, l)
    ensures Next(s, l, valid).shutdown <==> s.shutdown || RequestsShutdown(l)
  {
  }

  lemma {:induction false} ShutdownFlag(lease: bool, labels: seq<Label>, valid: Scheduling.Schedule -> bool, s: State)
    requires Run(Init(lease), labels, valid) == Some(s)
    ensures s.shutdown <==> exists l <- labels :: RequestsShutdown(l)
  {
    if labels != [] {
      var before := labels[..|labels| - 1];
      var u := Run(Init(lease), before, valid).value;
      ShutdownFlag(lease, before, valid, u);
      ShutdownStep(u, Last(labels), valid);
      assert forall l <- labels :: l in before || l == Last(labels);
      assert Last(labels) in labels && forall l <- before :: l in labels;
    }
  }

  /** Once a signal has come or the lease channel has failed, no generation starts, and the loop ends at its
      next turn; without that it never ends. */
  lemma ShutdownIsFinal(lease: bool, labels: seq<Label>, valid: Scheduling.Schedule -> bool, s: State)
    requires Run(Init(lease), labels, valid) == Some(s)
    ensures (exists l <- labels :: l.Signal? || l.LeaseChannelClosed?) ==>
      !Enabled(s, ReadLease) && forall id :: !Enabled(s, StartControllers(id))
    ensures (exists l <- labels :: l.Signal? || l.LeaseChannelClosed?) && s.pc == Top ==> Enabled(s, DropLease)
    ensures Enabled(s, DropLease) || !s.leaseHeld ==> exists l <- labels :: l.Signal? || l.LeaseChannelClosed?
  {
    AlwaysInv(lease, labels, valid);
    ShutdownFlag(lease, labels, valid, s);
    if exists l <- labels :: l.Signal? || l.LeaseChannelClosed? {
      var l :| l in labels && (l.Signal? || l.LeaseChannelClosed?);
      assert RequestsShutdown(l);
    }
    if s.shutdown {
      var l :| l in labels && RequestsShutdown(l);
      assert l.Signal? || l.LeaseChannelClosed?;
    }
  }

  /** A stop was sent since the last start. */
  predicate StopSince(labels: seq<Label>) {
    labels != [] && (Last(labels).SendStop? || (!Last(labels).StartControllers? && StopSince(labels[..|labels| - 1])))
  }

  lemma StopStep(s: State, l: Label, valid: Scheduling.Schedule -> bool)
    requires Enabled(s, l)
    ensures Next(s, l, valid).stopSent <==> l.SendStop? || (!l.StartControllers? && s.stopSent)
  {
  }

  /** The loop joins a generation only after it has sent the stop to it. */
  lemma {:induction false} JoinsAfterStop(lease: bool, labels: seq<Label>, valid: Scheduling.Schedule -> bool, s: State)
    requires Run(Init(lease), labels, valid) == Some(s)
    ensures s.stopSent <==> StopSince(labels)
    ensures Enabled(s, Join) && s.controllers.Some? ==> StopSince(labels)
  {
    if labels != [] {
      var before := Run(Init(lease), labels[..|labels| - 1], valid).value;
      JoinsAfterStop(lease, labels[..|labels| - 1], valid, before);
      StopStep(before, Last(labels), valid);
    }
  }

  lemma Extend(start: State, labels: seq<Label>, s: State, l: Label, valid: Scheduling.Schedule -> bool)
    returns (longer: seq<Label>, s': State)
    requires Run(start, labels, valid) == Some(s) && Enabled(s, l)
    ensures s' == Next(s, l, valid) && Run(start, longer, valid) == Some(s')
  {
    longer, s' := labels + [l], Next(s, l, valid);
    assert longer[..|longer| - 1] == labels;
  }

  /** A leader that watches loses the leadership, and stops its generation. */
  lemma LeadershipLost(start: State, before: seq<Label>, s: State, id: GenId, valid: Scheduling.Schedule -> bool)
    returns (labels: seq<Label>, s': State)
    requires Run(start, before, valid) == Some(s) && !s.leaseClosed
    requires s.pc == Watching(true) && s.controllers == Some(id) && !s.stopSent && s.alive.Keys == {id}
    ensures Run(start, labels, valid) == Some(s')
    ensures s' == s.(pc := Top, lease := false, controllers := None, stopSent := true, alive := map[])
  {
    labels, s' := Extend(start, before, s, LeaseChange(false), valid);
    labels, s' := Extend(start, labels, s', LeaseFlipped, valid);
    labels, s' := Extend(start, labels, s', SendStop, valid);
    labels, s' := Extend(start, labels, s', GenEnd(id), valid);
    assert s'.alive == map[];
    labels, s' := Extend(start, labels, s', Join, valid);
  }

  /** Without leadership the loop starts nothing, and goes on when it becomes the leader. */
  lemma LeadershipGained(start: State, before: seq<Label>, s: State, id: GenId, valid: Scheduling.Schedule -> bool)
    returns (labels: seq<Label>, s': State)
    requires Run(start, before, valid) == Some(s) && !s.leaseClosed
    requires s.pc == Top && !s.shutdown && !s.lease && s.controllers.None? && id !in s.startedBy
    ensures Run(start, labels, valid) == Some(s')
    ensures s' == s.(lease := true, stopSent := false)
  {
    labels, s' := Extend(start, before, s, ReadLease, valid);
    labels, s' := Extend(start, labels, s', StartControllers(id), valid);
    assert s' == s.(pc := Watching(false), stopSent := false);
    labels, s' := Extend(start, labels, s', LeaseChange(true), valid);
    labels, s' := Extend(start, labels, s', LeaseFlipped, valid);
    labels, s' := Extend(start, labels, s', Join, valid);
  }

  lemma LeadershipTaken(start: State, before: seq<Label>, s: State, id: GenId, valid: Scheduling.Schedule -> bool)
    returns (labels: seq<Label>, s': State)
    requires Run(start, before, valid) == Some(s) && s.pc == Top && !s.shutdown && s.lease && id !in s.startedBy
    ensures Run(start, labels, valid) == Some(s')
    ensures s' == s.(pc := Watching(true), stopSent := false, controllers := Some(id), alive := s.alive[id := Gen.INIT],
                     startedBy := s.startedBy[id := true])
  {
    labels, s' := Extend(start, before, s, ReadLease, valid);
    labels, s' := Extend(start, labels, s', StartControllers(id), valid);
  }

  /** Leadership that is lost and gained again brings the controllers back, in a new generation. */
  lemma HandOver(first: GenId, second: GenId, valid: Scheduling.Schedule -> bool) returns (labels: seq<Label>, s: State)
    requires first != second
    ensures Run(Init(true), labels, valid) == Some(s)
    ensures s.alive == map[second := Gen.INIT] && s.startedBy == map[first := true, second := true]
  {
    labels, s := LeadershipTaken(Init(true), [], Init(true), first, valid);
    labels, s := LeadershipLost(Init(true), labels, s, first, valid);
    labels, s := LeadershipGained(Init(true), labels, s, second, valid);
    labels, s := LeadershipTaken(Init(true), labels, s, second, valid);
  }

  /** The live tasks of a trigger in the whole process, over all generations (without those that
      were cancelled in vain). */
  function TasksOf(s: State, key: string): set<(GenId, Scheduling.TaskId)> {
    set id, task | id in s.alive && task in Scheduling.RunningFor(s.alive[id].sched, key) :: (id, task)
  }

  /** Each trigger has at most one live schedule task in the process, and none once the lease is
      dropped, whatever fails during reconciliation and however leadership changes. */
  lemma OneTaskPerTrigger(lease: bool, labels: seq<Label>, valid: Scheduling.Schedule -> bool, s: State, key: string)
    requires Run(Init(lease), labels, valid) == Some(s)
    ensures |TasksOf(s, key)| <= 1
    ensures !s.leaseHeld ==> TasksOf(s, key) == {}
  {
    AlwaysInv(lease, labels, valid);
    if s.controllers.Some? && s.controllers.value in s.alive {
      var id := s.controllers.value;
      var sched := s.alive[id].sched;
      Scheduling.AtMostOneTask(sched, key);
      assert TasksOf(s, key) == if key in sched.tasks then {(id, sched.tasks[key])} else {};
    } else {
      assert TasksOf(s, key) == {};
    }
  }
}
