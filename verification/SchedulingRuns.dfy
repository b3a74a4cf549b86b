/** Interleaved reconciles and cleanups of any triggers (src/resources/trigger.rs:439-549,
    src/controller.rs:296-327). A trigger is handled by one operation at a time; operations of
    different triggers interleave between their locked sections. */
module SchedulingRuns {
  import opened Wrappers
  import opened Scheduling

  /** How far an operation is: a changed schedule was found; or a cleanup is about to drop the
      recorded schedule, to look for a task, or to drop the task that it has found. */
  datatype Op = Reconciling(schedule: Schedule) | DroppingSchedule | LookingForTask | DroppingTask

  /** History: `harmed` holds the triggers whose last reconcile has failed and done harm. */
  datatype State = State(sched: Sched, ops: map<string, Op>, harmed: set<string>)

  datatype Label =
    | BeginReconcile(key: string, schedule: Schedule)
    | Body(key: string, id: TaskId, calls: Calls)
    | BeginCleanup(key: string)
    | DropSchedule(key: string)
    | LookForTask(key: string)
    | DropTask(key: string, cancelOk: bool)

  const INIT := State(EMPTY, map[], {})

  predicate Enabled(s: State, l: Label) {
    match l
    case BeginReconcile(key, _) => key !in s.ops
    case Body(key, id, _) => key in s.ops && s.ops[key].Reconciling? && id !in s.sched.used
    case BeginCleanup(key) => key !in s.ops
    case DropSchedule(key) => key in s.ops && s.ops[key].DroppingSchedule?
    case LookForTask(key) => key in s.ops && s.ops[key].LookingForTask?
    case DropTask(key, _) => key in s.ops && s.ops[key].DroppingTask?
  }

  /** What a failed reconcile does: it has added a task for a schedule that it could not record, or it has
      cancelled the task of a recorded schedule. */
  predicate Harms(s: Sched, key: string, schedule: Schedule, calls: Calls, valid: Schedule -> bool) {
    (valid(schedule) && calls.addOk) || (key in s.schedules && valid(s.schedules[key]))
  }

  function Next(s: State, l: Label, valid: Schedule -> bool): State
    requires Enabled(s, l)
  {
    match l
    case BeginReconcile(key, schedule) =>
      if Lookup(s.sched.schedules, key) == Some(schedule) then s
      else s.(ops := s.ops[key := Reconciling(schedule)])
    case Body(key, id, calls) =>
      var schedule := s.ops[key].schedule;
      var (sched, ok) := ReconcileBody(s.sched, key, schedule, valid(schedule), id, calls);
      State(sched, s.ops - {key},
            if !ok && Harms(s.sched, key, schedule, calls, valid) then s.harmed + {key} else s.harmed - {key})
    case BeginCleanup(key) =>
      s.(ops := s.ops[key := if key in s.sched.schedules then DroppingSchedule else LookingForTask])
    case DropSchedule(key) =>
      s.(sched := s.sched.(schedules := s.sched.schedules - {key}), ops := s.ops[key := LookingForTask])
    case LookForTask(key) =>
      if key in s.sched.tasks then s.(ops := s.ops[key := DroppingTask])
      else s.(ops := s.ops - {key}, harmed := s.harmed - {key})
    case DropTask(key, cancelOk) =>
      State(CancelTask(s.sched, key, cancelOk), s.ops - {key}, s.harmed - {key})
  }

  function Run(start: State, labels: seq<Label>, valid: Schedule -> bool): Option<State> {
    if labels == [] then Some(start) else
      match Run(start, labels[..|labels| - 1], valid)
      case None => None
      case Some(s) => if Enabled(s, Last(labels)) then Some(Next(s, Last(labels), valid)) else None
  }

  lemma Extend(start: State, labels: seq<Label>, s: State, l: Label, valid: Schedule -> bool)
    returns (longer: seq<Label>, s': State)
    requires Run(start, labels, valid) == Some(s) && Enabled(s, l)
    ensures s' == Next(s, l, valid) && Run(start, longer, valid) == Some(s')
  {
    longer, s' := labels + [l], Next(s, l, valid);
    assert longer[..|longer| - 1] == labels;
  }

  /** An operation that nobody interrupts does what the controller does: a reconcile, */
  lemma UninterruptedReconcile(s: State, key: string, schedule: Schedule, id: TaskId, calls: Calls, valid: Schedule -> bool)
    returns (labels: seq<Label>, s': State)
    requires key !in s.ops && id !in s.sched.used
    ensures Run(s, labels, valid) == Some(s') && s'.ops == s.ops
    ensures s'.sched == Reconcile(s.sched, key, schedule, valid(schedule), id, calls).0
  {
    labels, s' := Extend(s, [], s, BeginReconcile(key, schedule), valid);
    if key in s'.ops {
      labels, s' := Extend(s, labels, s', Body(key, id, calls), valid);
      assert s.ops[key := Reconciling(schedule)] - {key} == s.ops;
    }
  }

  /** and a cleanup. */
  lemma UninterruptedCleanup(s: State, key: string, cancelOk: bool, valid: Schedule -> bool)
    returns (labels: seq<Label>, s': State)
    requires key !in s.ops
    ensures Run(s, labels, valid) == Some(s') && s'.ops == s.ops
    ensures s'.sched == Cleanup(s.sched, key, cancelOk)
  {
    labels, s' := Extend(s, [], s, BeginCleanup(key), valid);
    if s'.ops[key].DroppingSchedule? {
      labels, s' := Extend(s, labels, s', DropSchedule(key), valid);
    }
    assert s'.sched == s.sched.(schedules := s.sched.schedules - {key}) && s'.ops == s.ops[key := LookingForTask];
    labels, s' := Extend(s, labels, s', LookForTask(key), valid);
    if key in s'.ops {
      labels, s' := Extend(s, labels, s', DropTask(key, cancelOk), valid);
    }
    assert s'.ops == s.ops;
  }

  /** A cleanup that is past the recorded schedule. */
  predicate CleaningUp(s: State, key: string) {
    key in s.ops && (s.ops[key].LookingForTask? || s.ops[key].DroppingTask?)
  }

  /** The recorded schedule is the one that runs. */
  ghost predicate Consistent(s: Sched, key: string, valid: Schedule -> bool) {
    match Lookup(s.schedules, key)
    case None => key !in s.tasks
    case Some(schedule) => InSync(s, key, schedule, valid(schedule))
  }

  /** Everything that the invariant says about a trigger. */
  ghost predicate InvFor(s: State, key: string, valid: Schedule -> bool) {
    && (key in s.ops && s.ops[key].DroppingTask? ==> key in s.sched.tasks)
    && (CleaningUp(s, key) ==> key !in s.sched.schedules)
    && (key in s.ops && s.ops[key].Reconciling? ==> Lookup(s.sched.schedules, key) != Some(s.ops[key].schedule))
    && (!CleaningUp(s, key) ==> (key !in s.harmed <==> Consistent(s.sched, key, valid)))
  }

  ghost predicate Inv(s: State, valid: Schedule -> bool) {
    Agreement(s.sched) && forall key :: InvFor(s, key, valid)
  }

  lemma OthersStayConsistent(s: Sched, s': Sched, key: string, other: string, valid: Schedule -> bool)
    requires key != other && Agreement(s) && Agreement(s')
    requires Lookup(s'.schedules, other) == Lookup(s.schedules, other)
    requires Lookup(s'.tasks, other) == Lookup(s.tasks, other)
    requires other in s.tasks ==> Lookup(s'.live, s.tasks[other]) == Lookup(s.live, s.tasks[other])
    ensures Consistent(s', other, valid) <==> Consistent(s, other, valid)
  {
  }

  lemma BodyFrame(s: Sched, key: string, schedule: Schedule, valid: bool, id: TaskId, calls: Calls, other: string)
    requires Agreement(s) && id !in s.used && other != key
    ensures var s' := ReconcileBody(s, key, schedule, valid, id, calls).0;
      && Lookup(s'.schedules, other) == Lookup(s.schedules, other)
      && Lookup(s'.tasks, other) == Lookup(s.tasks, other)
      && (other in s.tasks ==> Lookup(s'.live, s.tasks[other]) == Lookup(s.live, s.tasks[other]))
  {
    if other in s.tasks && key in s.tasks {
      assert s.live[s.tasks[other]].key == other && s.live[s.tasks[key]].key == key;
    }
  }

  lemma BodySuccess(s: Sched, key: string, schedule: Schedule, id: TaskId, calls: Calls, valid: Schedule -> bool)
    requires Agreement(s) && id !in s.used
    requires ReconcileBody(s, key, schedule, valid(schedule), id, calls).1
    ensures Consistent(ReconcileBody(s, key, schedule, valid(schedule), id, calls).0, key, valid)
  {
  }

  /** A failed reconcile leaves the trigger consistent exactly when it has added no task and no valid schedule
      was recorded before; from a consistent state that is: when the trigger had no task to cancel. */
  lemma FailureHarmsIff(s: Sched, key: string, schedule: Schedule, id: TaskId, calls: Calls, valid: Schedule -> bool)
    requires Agreement(s) && id !in s.used && Lookup(s.schedules, key) != Some(schedule)
    requires !ReconcileBody(s, key, schedule, valid(schedule), id, calls).1
    ensures var s' := ReconcileBody(s, key, schedule, valid(schedule), id, calls).0;
      && (Consistent(s', key, valid) <==> !Harms(s, key, schedule, calls, valid))
      && (Consistent(s, key, valid) ==>
            (Consistent(s', key, valid) <==> key !in s.tasks && !(valid(schedule) && calls.addOk)))
  {
    var s' := ReconcileBody(s, key, schedule, valid(schedule), id, calls).0;
    assert key in s'.tasks <==> valid(schedule) && calls.addOk;
  }

  lemma BodyOfTrigger(s: State, key: string, id: TaskId, calls: Calls, valid: Schedule -> bool)
    requires Inv(s, valid) && Enabled(s, Body(key, id, calls))
    ensures InvFor(Next(s, Body(key, id, calls), valid), key, valid)
  {
    assert InvFor(s, key, valid);
    var schedule := s.ops[key].schedule;
    if ReconcileBody(s.sched, key, schedule, valid(schedule), id, calls).1 {
      BodySuccess(s.sched, key, schedule, id, calls, valid);
    } else {
      FailureHarmsIff(s.sched, key, schedule, id, calls, valid);
    }
  }

  lemma BodyForOthers(s: State, key: string, id: TaskId, calls: Calls, valid: Schedule -> bool, other: string)
    requires Inv(s, valid) && Enabled(s, Body(key, id, calls)) && other != key
    requires Agreement(Next(s, Body(key, id, calls), valid).sched)
    ensures InvFor(Next(s, Body(key, id, calls), valid), other, valid)
  {
    assert InvFor(s, other, valid);
    var s' := Next(s, Body(key, id, calls), valid);
    BodyFrame(s.sched, key, s.ops[key].schedule, valid(s.ops[key].schedule), id, calls, other);
    OthersStayConsistent(s.sched, s'.sched, key, other, valid);
  }

  lemma BodyStep(s: State, key: string, id: TaskId, calls: Calls, valid: Schedule -> bool)
    requires Inv(s, valid) && Enabled(s, Body(key, id, calls))
    ensures Inv(Next(s, Body(key, id, calls), valid), valid)
  {
    BodyKeepsAgreement(s.sched, key, s.ops[key].schedule, valid(s.ops[key].schedule), id, calls);
    forall other ensures InvFor(Next(s, Body(key, id, calls), valid), other, valid) {
      if other == key {
        BodyOfTrigger(s, key, id, calls, valid);
      } else {
        BodyForOthers(s, key, id, calls, valid, other);
      }
    }
  }

  lemma DropTaskStep(s: State, key: string, cancelOk: bool, valid: Schedule -> bool)
    requires Inv(s, valid) && Enabled(s, DropTask(key, cancelOk))
    ensures Inv(Next(s, DropTask(key, cancelOk), valid), valid)
  {
    var s' := Next(s, DropTask(key, cancelOk), valid);
    CancelKeepsAgreement(s.sched, key, cancelOk);
    assert InvFor(s, key, valid);
    forall other ensures InvFor(s', other, valid) {
      assert InvFor(s, other, valid);
      if other != key {
        if other in s.sched.tasks {
          assert s.sched.live[s.sched.tasks[other]].key == other && s.sched.live[s.sched.tasks[key]].key == key;
        }
        OthersStayConsistent(s.sched, s'.sched, key, other, valid);
      }
    }
  }

  lemma InvStep(s: State, l: Label, valid: Schedule -> bool)
    requires Inv(s, valid) && Enabled(s, l)
    ensures Inv(Next(s, l, valid), valid)
  {
    match l
    case Body(key, id, calls) => BodyStep(s, key, id, calls, valid);
    case DropTask(key, cancelOk) => DropTaskStep(s, key, cancelOk, valid);
    case _ =>
      forall key ensures InvFor(Next(s, l, valid), key, valid) {
        assert InvFor(s, key, valid);
      }
  }

  lemma {:induction false} AlwaysInv(labels: seq<Label>, valid: Schedule -> bool)
    requires Run(INIT, labels, valid).Some?
    ensures Inv(Run(INIT, labels, valid).value, valid)
  {
    if labels != [] {
      var before := labels[..|labels| - 1];
      AlwaysInv(before, valid);
      InvStep(Run(INIT, before, valid).value, Last(labels), valid);
    }
  }

  /** For any interleaving and any failing calls: each trigger has at most one running task, the one
      recorded for it; and a task that a cleanup has found is still there to be removed, so the
      `unwrap` of src/resources/trigger.rs:540 does not fail. */
  lemma SchedulerAgrees(labels: seq<Label>, s: State, valid: Schedule -> bool, key: string)
    requires Run(INIT, labels, valid) == Some(s)
    ensures RunningFor(s.sched, key) == if key in s.sched.tasks then {s.sched.tasks[key]} else {}
    ensures forall cancelOk :: Enabled(s, DropTask(key, cancelOk)) ==> key in s.sched.tasks
    ensures forall id :: id in s.sched.live <==> id in s.sched.tasks.Values || id in s.sched.orphans
  {
    AlwaysInv(labels, valid);
    assert InvFor(s, key, valid);
    AtMostOneTask(s.sched, key);
  }

  /** After a cleanup nothing runs for the trigger and nothing is recorded for it. */
  lemma NothingRunsAfterCleanup(labels: seq<Label>, s: State, valid: Schedule -> bool, l: Label)
    requires Run(INIT, labels, valid) == Some(s) && Enabled(s, l)
    requires l.LookForTask? || l.DropTask?
    requires l.key !in Next(s, l, valid).ops
    ensures RunningFor(Next(s, l, valid).sched, l.key) == {}
    ensures l.key !in Next(s, l, valid).sched.schedules
  {
    AlwaysInv(labels, valid);
    InvStep(s, l, valid);
    assert InvFor(s, l.key, valid);
    AtMostOneTask(Next(s, l, valid).sched, l.key);
  }

  /** Success of a reconcile means that the trigger is in sync with its spec, if and only if another schedule
      was recorded, or no reconcile has done harm since the last that succeeded. */
  lemma SuccessMeansSyncIff(labels: seq<Label>, s: State, valid: Schedule -> bool, key: string, schedule: Schedule,
                            id: TaskId, calls: Calls)
    requires Run(INIT, labels, valid) == Some(s) && key !in s.ops && id !in s.sched.used
    requires Reconcile(s.sched, key, schedule, valid(schedule), id, calls).1
    ensures InSync(Reconcile(s.sched, key, schedule, valid(schedule), id, calls).0, key, schedule, valid(schedule))
       <==> Lookup(s.sched.schedules, key) != Some(schedule) || key !in s.harmed
  {
    AlwaysInv(labels, valid);
    assert InvFor(s, key, valid);
    if Lookup(s.sched.schedules, key) != Some(schedule) {
      SuccessMeansSync(s.sched, key, schedule, valid(schedule), id, calls);
    }
  }

  /** What runs is what is recorded, if and only if no reconcile has done harm since: a recorded schedule has
      a running task exactly if it is valid, that task was built from it, and without a recorded schedule
      nothing runs. A reconcile with the recorded schedule changes nothing. */
  lemma StaysConverged(labels: seq<Label>, s: State, valid: Schedule -> bool, key: string)
    requires Run(INIT, labels, valid) == Some(s) && key !in s.ops
    ensures key !in s.harmed <==>
      match Lookup(s.sched.schedules, key)
      case None => RunningFor(s.sched, key) == {}
      case Some(schedule) => (RunningFor(s.sched, key) != {} <==> valid(schedule))
                             && forall id <- RunningFor(s.sched, key) :: s.sched.live[id].schedule == schedule
    ensures forall schedule :: Lookup(s.sched.schedules, key) == Some(schedule) ==>
      Enabled(s, BeginReconcile(key, schedule)) && Next(s, BeginReconcile(key, schedule), valid) == s
  {
    AlwaysInv(labels, valid);
    AtMostOneTask(s.sched, key);
    assert InvFor(s, key, valid);
  }
}
