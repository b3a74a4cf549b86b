/** Reconciliation of schedule triggers (src/resources/trigger.rs:431-587): two maps and an external
    scheduler are kept in agreement although calls may fail halfway. */
module Scheduling {
  import opened Wrappers

  datatype Schedule = Interval(interval: string) | Cron(cron: string)

  type TaskId = nat

  /** A task of the scheduler: the trigger that it runs and the schedule that it was built from. */
  datatype Live = Live(key: string, schedule: Schedule)

  /** `tasks` and `schedules` are the state of the controller, `live` the tasks of the scheduler.
      History: `orphans` holds the tasks whose cancellation failed, `used` all ids given out. */
  datatype Sched = Sched(
    tasks: map<string, TaskId>,
    schedules: map<string, Schedule>,
    live: map<TaskId, Live>,
    orphans: set<TaskId>,
    used: set<TaskId>)

  const EMPTY := Sched(map[], map[], map[], {}, {})

  /** Which of the calls succeed: cancelling the old task, adding the new one, publishing the event
      about an invalid schedule, updating the status. */
  datatype Calls = Calls(cancelOk: bool, addOk: bool, publishOk: bool, statusOk: bool)

  function CancelTask(s: Sched, key: string, cancelOk: bool): Sched {
    if key !in s.tasks then s
    else s.(tasks := s.tasks - {key},
            live := if cancelOk then s.live - {s.tasks[key]} else s.live,
            orphans := if cancelOk then s.orphans else s.orphans + {s.tasks[key]})
  }

  function AddTask(s: Sched, key: string, id: TaskId, schedule: Schedule): Sched {
    s.(tasks := s.tasks[key := id], live := s.live[id := Live(key, schedule)], used := s.used + {id})
  }

  /** The part under the write lock of the trigger state, and whether it succeeds. */
  function ReconcileBody(s: Sched, key: string, schedule: Schedule, valid: bool, id: TaskId, calls: Calls): (Sched, bool) {
    var cancelled := CancelTask(s, key, calls.cancelOk);
    if (valid && !calls.addOk) || (!valid && !calls.publishOk) then (cancelled, false)
    else
      var replaced := if valid then AddTask(cancelled, key, id, schedule) else cancelled;
      if calls.statusOk then (replaced.(schedules := replaced.schedules[key := schedule]), true)
      else (replaced, false)
  }

  function Reconcile(s: Sched, key: string, schedule: Schedule, valid: bool, id: TaskId, calls: Calls): (Sched, bool) {
    if Lookup(s.schedules, key) == Some(schedule) then (s, true)
    else ReconcileBody(s, key, schedule, valid, id, calls)
  }

  function Cleanup(s: Sched, key: string, cancelOk: bool): Sched {
    CancelTask(s.(schedules := s.schedules - {key}), key, cancelOk)
  }

  // ---------------------------------------------------------------------------
  // The imperative controller
  // ---------------------------------------------------------------------------

  class Controller {
    var tasks: map<string, TaskId>
    var schedules: map<string, Schedule>
    var live: map<TaskId, Live>
    ghost var orphans: set<TaskId>
    ghost var used: set<TaskId>

    ghost function Value(): Sched reads this {
      Sched(tasks, schedules, live, orphans, used)
    }

    /** Every generation of leader controllers starts with an empty state (src/controller.rs:228). */
    constructor ()
      ensures Value() == EMPTY
    {
      tasks, schedules, live, orphans, used := map[], map[], map[], {}, {};
    }

    method Cancel(id: TaskId, ok: bool)
      modifies this`live, this`orphans
      ensures live == if ok then old(live) - {id} else old(live)
      ensures orphans == if ok then old(orphans) else old(orphans) + {id}
    {
      if ok {
        live := live - {id};
      } else {
        orphans := orphans + {id};
      }
    }

    method RunReconcile(ns: string, name: string, schedule: Schedule, valid: bool, id: TaskId, calls: Calls)
      returns (ok: bool)
      modifies this
      ensures (Value(), ok) == Reconcile(old(Value()), JoinKey(ns, name), schedule, valid, id, calls)
    {
      var key := JoinKey(ns, name);
      if key in schedules && schedules[key] == schedule {
        return true;
      }
      if key in tasks {
        var taskId := tasks[key];
        tasks := tasks - {key};
        Cancel(taskId, calls.cancelOk);
      }
      if valid {
        if !calls.addOk {
          return false;
        }
        live := live[id := Live(key, schedule)];
        used := used + {id};
        tasks := tasks[key := id];
      } else if !calls.publishOk {
        return false;
      }
      if !calls.statusOk {
        return false;
      }
      schedules := schedules[key := schedule];
      return true;
    }

    method RunCleanup(ns: string, name: string, cancelOk: bool)
      modifies this
      ensures var key := ns + "/" + name;
        && schedules == old(schedules) - {key} && tasks == old(tasks) - {key}
        && live == (if key in old(tasks) && cancelOk then old(live) - {old(tasks)[key]} else old(live))
        && orphans == (if key in old(tasks) && !cancelOk then old(orphans) + {old(tasks)[key]} else old(orphans))
      ensures Value() == Cleanup(old(Value()), JoinKey(ns, name), cancelOk)
    {
      var key := JoinKey(ns, name);
      if key in schedules {
        schedules := schedules - {key};
      }
      assert schedules == old(schedules) - {key};
      if key in tasks {
        var taskId := tasks[key];
        tasks := tasks - {key};
        Cancel(taskId, cancelOk);
      }
    }
  }

  // ---------------------------------------------------------------------------
  // Agreement of the maps with the scheduler
  // ---------------------------------------------------------------------------

  /** The live tasks are exactly the recorded ones and those whose cancellation failed; a recorded
      task runs the trigger it is recorded for, so no two triggers share one. */
  ghost predicate Agreement(s: Sched) {
    && s.live.Keys <= s.used
    && (forall id :: id in s.live <==> id in s.tasks.Values || id in s.orphans)
    && (forall key <- s.tasks ::
          s.tasks[key] in s.live && s.tasks[key] !in s.orphans && s.live[s.tasks[key]].key == key)
  }

  /** The tasks that run a trigger, apart from those that were cancelled in vain. */
  function RunningFor(s: Sched, key: string): set<TaskId> {
    set id | id in s.live && s.live[id].key == key && id !in s.orphans
  }

  lemma AtMostOneTask(s: Sched, key: string)
    requires Agreement(s)
    ensures RunningFor(s, key) == if key in s.tasks then {s.tasks[key]} else {}
    ensures |RunningFor(s, key)| <= 1
  {
  }

  lemma CancelKeepsAgreement(s: Sched, key: string, cancelOk: bool)
    requires Agreement(s)
    ensures Agreement(CancelTask(s, key, cancelOk))
  {
    if key in s.tasks {
      var s' := CancelTask(s, key, cancelOk);
      forall k | k in s'.tasks ensures s'.tasks[k] != s.tasks[key] {
        assert s.live[s.tasks[k]].key == k && s.live[s.tasks[key]].key == key;
      }
      forall id ensures id in s'.live <==> id in s'.tasks.Values || id in s'.orphans {
        ValuesAfterRemove(s.tasks, key, id);
      }
    }
  }

  lemma ValuesAfterRemove(m: map<string, TaskId>, key: string, id: TaskId)
    requires key in m && forall k <- m :: k != key ==> m[k] != m[key]
    ensures id in (m - {key}).Values <==> id in m.Values && id != m[key]
  {
    if id in m.Values && id != m[key] {
      var k :| k in m && m[k] == id;
      assert k in m - {key} && (m - {key})[k] == id;
    }
    if id in (m - {key}).Values {
      var k :| k in m - {key} && (m - {key})[k] == id;
      assert k in m && m[k] == id;
    }
  }

  lemma AddKeepsAgreement(s: Sched, key: string, id: TaskId, schedule: Schedule)
    requires Agreement(s) && key !in s.tasks && id !in s.used && s.orphans <= s.used
    ensures Agreement(AddTask(s, key, id, schedule))
  {
    var s' := AddTask(s, key, id, schedule);
    forall i ensures i in s'.live <==> i in s'.tasks.Values || i in s'.orphans {
      if i in s.tasks.Values {
        var k :| k in s.tasks && s.tasks[k] == i;
        assert k in s'.tasks && s'.tasks[k] == i;
      }
      if i in s'.tasks.Values {
        var k :| k in s'.tasks && s'.tasks[k] == i;
        assert k != key ==> s.tasks[k] in s.tasks.Values;
      }
      assert key in s'.tasks && s'.tasks[key] == id;
    }
  }

  /** Whichever calls fail, agreement is kept. */
  lemma BodyKeepsAgreement(s: Sched, key: string, schedule: Schedule, valid: bool, id: TaskId, calls: Calls)
    requires Agreement(s) && id !in s.used
    ensures Agreement(ReconcileBody(s, key, schedule, valid, id, calls).0)
  {
    CancelKeepsAgreement(s, key, calls.cancelOk);
    var cancelled := CancelTask(s, key, calls.cancelOk);
    assert forall i :: i in cancelled.orphans ==> i in cancelled.live;
    if valid && calls.addOk {
      AddKeepsAgreement(cancelled, key, id, schedule);
    }
  }

  /** What a reconcile does, by the calls that succeed: nothing if the schedule is recorded; else the old task
      goes, a valid schedule gets a new one, and the schedule is recorded only if all the rest succeeds. */
  lemma ReconcileOnCalls(s: Sched, key: string, schedule: Schedule, valid: bool, id: TaskId, calls: Calls)
    ensures var (s', ok) := Reconcile(s, key, schedule, valid, id, calls);
      if key in s.schedules && s.schedules[key] == schedule then ok && s' == s
      else
        var kept := if key in s.tasks && calls.cancelOk then s.live - {s.tasks[key]} else s.live;
        var added := valid && calls.addOk;
        && ok == ((if valid then calls.addOk else calls.publishOk) && calls.statusOk)
        && s'.tasks == (if added then s.tasks[key := id] else s.tasks - {key})
        && s'.live == (if added then kept[id := Live(key, schedule)] else kept)
        && s'.schedules == (if ok then s.schedules[key := schedule] else s.schedules)
        && s'.orphans == (if key in s.tasks && !calls.cancelOk then s.orphans + {s.tasks[key]} else s.orphans)
  {
    assert key !in s.tasks ==> s.tasks - {key} == s.tasks;
    assert (s.tasks - {key})[key := id] == s.tasks[key := id];
  }

  /** A cleanup ends the task of the trigger, forgets its schedule, and leaves all others alone. */
  lemma CleanupForgets(s: Sched, key: string, cancelOk: bool)
    requires Agreement(s)
    ensures var s' := Cleanup(s, key, cancelOk);
      && key !in s'.schedules && key !in s'.tasks && RunningFor(s', key) == {} && Agreement(s')
      && (cancelOk && key in s.tasks ==> s.tasks[key] !in s'.live)
  {
    CancelKeepsAgreement(s.(schedules := s.schedules - {key}), key, cancelOk);
    AtMostOneTask(Cleanup(s, key, cancelOk), key);
  }

  lemma CleanupLeavesOthers(s: Sched, key: string, cancelOk: bool, other: string)
    requires Agreement(s) && other != key
    ensures var s' := Cleanup(s, key, cancelOk);
      && Lookup(s'.schedules, other) == Lookup(s.schedules, other) && Lookup(s'.tasks, other) == Lookup(s.tasks, other)
      && RunningFor(s', other) == RunningFor(s, other)
  {
    CleanupForgets(s, key, cancelOk);
    AtMostOneTask(s, other);
    AtMostOneTask(Cleanup(s, key, cancelOk), other);
  }

  /** After a cleanup a reconcile never takes the early return: if it succeeds, the trigger runs again. */
  lemma ReconcileAfterCleanup(s: Sched, key: string, cancelOk: bool, schedule: Schedule, valid: bool, id: TaskId, calls: Calls)
    requires Agreement(s) && id !in s.used
    ensures var s' := Cleanup(s, key, cancelOk);
      var (s'', ok) := Reconcile(s', key, schedule, valid, id, calls);
      && (ok <==> (if valid then calls.addOk else calls.publishOk) && calls.statusOk)
      && RunningFor(s'', key) == if valid && calls.addOk then {id} else {}
  {
    CleanupForgets(s, key, cancelOk);
    var s' := Cleanup(s, key, cancelOk);
    BodyKeepsAgreement(s', key, schedule, valid, id, calls);
    AtMostOneTask(Reconcile(s', key, schedule, valid, id, calls).0, key);
  }

  // ---------------------------------------------------------------------------
  // Convergence
  // ---------------------------------------------------------------------------

  /** The controller does what the spec says. */
  ghost predicate InSync(s: Sched, key: string, schedule: Schedule, valid: bool) {
    && Lookup(s.schedules, key) == Some(schedule)
    && (key in s.tasks <==> valid)
    && (key in s.tasks ==> s.tasks[key] in s.live && s.live[s.tasks[key]].schedule == schedule)
  }

  /** A reconcile that finds another schedule recorded and reports success has brought the trigger in sync. */
  lemma SuccessMeansSync(s: Sched, key: string, schedule: Schedule, valid: bool, id: TaskId, calls: Calls)
    requires Agreement(s) && id !in s.used && Lookup(s.schedules, key) != Some(schedule)
    requires Reconcile(s, key, schedule, valid, id, calls).1
    ensures InSync(Reconcile(s, key, schedule, valid, id, calls).0, key, schedule, valid)
  {
  }

  /** In sync, the same spec changes nothing, whatever would fail. */
  lemma ReconcileIsIdempotent(s: Sched, key: string, schedule: Schedule, valid: bool, id: TaskId, calls: Calls,
                              id': TaskId, calls': Calls)
    requires Reconcile(s, key, schedule, valid, id, calls).1
    ensures var s' := Reconcile(s, key, schedule, valid, id, calls).0;
      Reconcile(s', key, schedule, valid, id', calls') == (s', true)
  {
  }

  /** If the schedule was recorded already, success may mean nothing: the schedule is changed, the reconcile
      fails at the end, the change is taken back, and the reconcile then succeeds without doing anything.
      The trigger runs on the schedule that nobody wants. */
  lemma RevertAfterFailureIsIgnored(key: string, a: Schedule, b: Schedule)
    requires a != b
    ensures var allOk := Calls(true, true, true, true);
      var s1 := Reconcile(EMPTY, key, a, true, 1, allOk).0;
      var (s2, ok2) := Reconcile(s1, key, b, true, 2, allOk.(statusOk := false));
      var (s3, ok3) := Reconcile(s2, key, a, true, 3, allOk);
      && !ok2 && ok3 && Agreement(s3)
      && RunningFor(s3, key) == {2} && s3.live[2].schedule == b
      && !InSync(s3, key, a, true)
  {
  }
}
