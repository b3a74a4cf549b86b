/** A pass of the step system that nobody disturbs does what the method `RunQueue` does: the same fates, the
    same items left, the same ending. */
module JobsPass {
  import opened Wrappers
  import opened JobWatch
  import opened JobsProtocol
  import opened JobsSafety
  import opened JobsTheorems
  import Pass = RunQueue

  /** Nothing arrives or changes during the pass; the clock and the answers are free. */
  ghost predicate Undisturbed(s: State, env: nat -> Pass.Tick) {
    forall i :: env(i).arrivals == [] && env(i).defaultTimeout == s.config.timeout
                && env(i).running == Word(s.watch.tally.running) && env(i).limit == s.config.limit
  }

  /** The waiting items have jobs of their own, which are not on the server yet. */
  ghost predicate NewJobs(items: seq<Pass.Item>, jobs: map<Key, JobStatus>) {
    && (forall i :: 0 <= i < |items| ==> items[i].job !in jobs)
    && (forall i, j :: 0 <= i < j < |items| ==> items[i].job != items[j].job)
  }

  /** The pass runs, and nobody else changes what it reads. */
  ghost predicate InPassOf(s: State, env: nat -> Pass.Tick) {
    s.pass != NoPass && LoopRuns(s, s.pass.owner) && Undisturbed(s, env)
  }

  /** The same task, with other items, jobs and position in the pass. */
  ghost predicate SameBut(s: State, s': State) {
    s'.config == s.config && s'.watch == s.watch && s'.events == s.events && s'.task == s.task
    && s'.queueLoop == s.queueLoop && s'.configLoop == s.configLoop
    && s'.pass != NoPass && s.pass != NoPass && s'.pass.owner == s.pass.owner && s'.pass.limit == s.pass.limit
    && s'.pass.from == s.pass.from
  }

  ghost predicate AtScan(s: State, c: Pass.Call, env: nat -> Pass.Tick, fates: seq<Pass.Fate>, capacity: nat) {
    && InPassOf(s, env) && s.pass.pc == Scan(|s.items.waiting|, capacity)
    && Pass.Midway(c, env, fates, s.items.waiting, capacity)
    && NewJobs(s.items.waiting, s.cluster.jobs)
    && s.pass.from <= |s.items.log| && PassFates(s) == fates
  }

  lemma {:induction false} NoArrivals(env: nat -> Pass.Tick, n: nat)
    requires forall i :: env(i).arrivals == []
    ensures Pass.Arrivals(env, n) == []
  {
    if n > 0 {
      NoArrivals(env, n - 1);
    }
  }

  lemma WaitingLeft(c: Pass.Call, env: nat -> Pass.Tick, fates: seq<Pass.Fate>, waiting: seq<Pass.Item>, capacity: nat)
    requires Pass.Midway(c, env, fates, waiting, capacity) && forall i :: env(i).arrivals == []
    ensures |fates| + |waiting| == |c.before|
  {
    NoArrivals(env, |fates|);
  }

  /** An item that tests well is created, or the request fails, perhaps after it has reached the server. */
  lemma Created(start: State, before: seq<Label>, s: State, ok: bool, reached: bool) returns (labels: seq<Label>, s': State)
    requires Run(start, before) == Some(s) && s.pass != NoPass && LoopRuns(s, s.pass.owner)
    requires s.pass.pc.Creating? && s.pass.pc.f > 0 && s.pass.pc.item.job !in s.cluster.jobs
    ensures Run(start, labels) == Some(s') && SameBut(s, s')
    ensures s'.pass.pc == Reporting(s.pass.pc.w, if ok then s.pass.pc.f - 1 else s.pass.pc.f)
    ensures s'.items.waiting == s.items.waiting && s'.cluster.jobs.Keys <= s.cluster.jobs.Keys + {s.pass.pc.item.job}
    ensures s'.items.log != [] && s'.items.log == s.items.log + [Last(s'.items.log)]
    ensures Last(s'.items.log).fate == if ok then Pass.Created else Pass.CreateError
  {
    if ok || reached {
      labels, s' := Extend(start, before, s, Inner(Commit(STARTED)));
      labels, s' := Extend(start, labels, s', Inner(Respond(ok)));
    } else {
      labels, s' := Extend(start, before, s, Inner(Reject));
    }
  }

  /** The first item gets its fate, or the clock ends the pass. */
  lemma OneItem(start: State, before: seq<Label>, s: State, tick: Pass.Tick, reached: bool) returns (labels: seq<Label>, s': State)
    requires Run(start, before) == Some(s) && s.pass != NoPass && LoopRuns(s, s.pass.owner)
    requires s.items.waiting != [] && s.pass.pc.Scan? && s.pass.pc.w > 0 && s.pass.pc.f > 0
    requires s.items.waiting[0].job !in s.cluster.jobs && tick.defaultTimeout == s.config.timeout
    ensures Run(start, labels) == Some(s') && s'.items.waiting == s.items.waiting[1..]
    ensures if tick.StopsBefore(s.items.waiting[0]) then
              s'.pass == NoPass && s'.task.Panicked? && s'.items.log == s.items.log
            else
              var fate := Pass.FateOf(s.items.waiting[0], tick);
              && SameBut(s, s') && s'.cluster.jobs.Keys <= s.cluster.jobs.Keys + {s.items.waiting[0].job}
              && s'.pass.pc == Reporting(s.pass.pc.w - 1, s.pass.pc.f - if fate == Pass.Created then 1 else 0)
              && s'.items.log != [] && s'.items.log == s.items.log + [Last(s'.items.log)] && Last(s'.items.log).fate == fate
  {
    labels, s' := Extend(start, before, s, Inner(Pop));
    var popped := s';
    assert popped.pass.pc == Popped(s.pass.pc.w - 1, s.pass.pc.f, s.items.waiting[0]);
    labels, s' := Extend(start, labels, s', Inner(Test(tick.now, tick.later)));
    if s'.pass != NoPass && s'.pass.pc.Creating? {
      labels, s' := Created(start, labels, s', tick.createOk, reached);
    }
  }

  /** From any point of the loop, the rest of the pass. */
  lemma {:induction false} RestOfPass(start: State, before: seq<Label>, s: State, c: Pass.Call, env: nat -> Pass.Tick,
                                      reached: nat -> bool, fates: seq<Pass.Fate>, capacity: nat)
    returns (labels: seq<Label>, s': State, all: seq<Pass.Fate>, ending: Pass.Ending)
    requires Run(start, before) == Some(s) && AtScan(s, c, env, fates, capacity)
    ensures Run(start, labels) == Some(s') && s'.pass == NoPass
    ensures Pass.Outcome(c, env, all, ending, s'.items.waiting)
    ensures s.pass.from <= |s'.items.log| && FatesOf(s'.items.log[s.pass.from..]) == all
    ensures s'.task.Panicked? <==> ending != Pass.Finished
    decreases |s.items.waiting|
  {
    WaitingLeft(c, env, fates, s.items.waiting, capacity);
    if s.items.waiting == [] || capacity == 0 {
      labels, s' := Extend(start, before, s, Inner(End));
      all, ending := fates, Pass.Finished;
      Pass.PassFinishes(c, env, fates, s.items.waiting, capacity);
    } else {
      var tick, item := env(|fates|), s.items.waiting[0];
      assert s.items.waiting == [item] + s.items.waiting[1..];
      labels, s' := OneItem(start, before, s, tick, reached(|fates|));
      if tick.StopsBefore(item) {
        all, ending := fates, Pass.ClockPanic;
        Pass.ItemLost(c, env, fates, item, s'.items.waiting, capacity);
      } else {
        labels, s', all, ending := AfterItem(start, labels, s, s', c, env, reached, fates, capacity);
      }
    }
  }

  lemma NewJobsRest(items: seq<Pass.Item>, jobs: map<Key, JobStatus>, jobs': map<Key, JobStatus>)
    requires items != [] && NewJobs(items, jobs) && jobs'.Keys <= jobs.Keys + {items[0].job}
    ensures NewJobs(items[1..], jobs')
  {
  }

  /** The gauges after an item: a panic, or the loop goes on. */
  lemma GaugesAfterItem(start: State, before: seq<Label>, u: State, env: nat -> Pass.Tick, w: nat, f: nat, i: nat)
    returns (labels: seq<Label>, s': State)
    requires Run(start, before) == Some(u) && InPassOf(u, env) && u.pass.pc == Reporting(w, f)
    ensures Run(start, labels) == Some(s') && s'.items == u.items && s'.cluster == u.cluster
    ensures if env(i).StopsAfter() then s'.pass == NoPass && s'.task.Panicked?
            else SameBut(u, s') && s'.pass.pc == Scan(w, f) && InPassOf(s', env)
  {
    labels, s' := Extend(start, before, u, Inner(Gauges));
  }

  lemma AfterItem(start: State, before: seq<Label>, s: State, u: State, c: Pass.Call, env: nat -> Pass.Tick,
                  reached: nat -> bool, fates: seq<Pass.Fate>, capacity: nat)
    returns (labels: seq<Label>, s': State, all: seq<Pass.Fate>, ending: Pass.Ending)
    requires AtScan(s, c, env, fates, capacity) && s.items.waiting != [] && capacity > 0 && |fates| < |c.before|
    requires Run(start, before) == Some(u) && SameBut(s, u) && u.items.waiting == s.items.waiting[1..]
    requires var (item, tick) := (s.items.waiting[0], env(|fates|));
      && !tick.StopsBefore(item)
      && u.cluster.jobs.Keys <= s.cluster.jobs.Keys + {item.job}
      && u.pass.pc == Reporting(|s.items.waiting| - 1, capacity - if Pass.FateOf(item, tick) == Pass.Created then 1 else 0)
      && u.items.log != [] && u.items.log == s.items.log + [Last(u.items.log)]
      && Last(u.items.log).fate == Pass.FateOf(item, tick)
    ensures Run(start, labels) == Some(s') && s'.pass == NoPass
    ensures Pass.Outcome(c, env, all, ending, s'.items.waiting)
    ensures s.pass.from <= |s'.items.log| && FatesOf(s'.items.log[s.pass.from..]) == all
    ensures s'.task.Panicked? <==> ending != Pass.Finished
    decreases |s.items.waiting|, 0
  {
    var item, tick := s.items.waiting[0], env(|fates|);
    var fate := Pass.FateOf(item, tick);
    var more := fates + [fate];
    assert s.items.waiting == [item] + u.items.waiting && u.items.waiting + tick.arrivals == u.items.waiting;
    Pass.ItemHandled(c, env, fates, item, u.items.waiting, capacity, fate);
    NewJobsRest(s.items.waiting, s.cluster.jobs, u.cluster.jobs);
    assert FatesOf(u.items.log[s.pass.from..]) == more by {
      FatesOfAppend(s.items.log, s.pass.from, Last(u.items.log));
    }
    var left := capacity - if fate == Pass.Created then 1 else 0;
    labels, s' := GaugesAfterItem(start, before, u, env, |u.items.waiting|, left, |fates|);
    if tick.StopsAfter() {
      all, ending := more, Pass.GaugePanic;
    } else {
      assert PassFates(s') == more;
      labels, s', all, ending := RestOfPass(start, labels, s', c, env, reached, more, left);
    }
  }

  lemma PassReads(s: State) returns (labels: seq<Label>, s': State)
    requires s.pass != NoPass && s.pass.pc == Locked && LoopRuns(s, s.pass.owner)
    ensures Run(s, labels) == Some(s') && s'.pass != NoPass && s'.pass.owner == s.pass.owner
    ensures s'.pass.pc == HaveLimit(Word(s.watch.tally.running), |s.items.waiting|)
    ensures s'.pass.limit == s.config.limit && s'.pass.from == |s.items.log|
    ensures s' == s.(config := s.config.(read := s.config.limit, missed := false), pass := s'.pass)
  {
    labels, s' := Extend(s, [], s, Inner(ReadRunning));
    labels, s' := Extend(s, labels, s', Inner(ReadWaiting));
    labels, s' := Extend(s, labels, s', Inner(ReadLimit));
  }

  /** A pass from the moment when it gets the lock; `reached` tells which failing requests have created their
      job all the same. */
  lemma UndisturbedPass(s: State, env: nat -> Pass.Tick, reached: nat -> bool)
    returns (labels: seq<Label>, s': State, fates: seq<Pass.Fate>, ending: Pass.Ending)
    requires InPassOf(s, env) && s.pass.pc == Locked && NewJobs(s.items.waiting, s.cluster.jobs)
    ensures Run(s, labels) == Some(s') && s'.pass == NoPass
    ensures var r := Word(s.watch.tally.running);
      Pass.Outcome(Pass.Call(s.items.waiting, r, s.config.limit, s.config.limit), env, fates, ending, s'.items.waiting)
    ensures |s.items.log| <= |s'.items.log| && FatesOf(s'.items.log[|s.items.log|..]) == fates
    ensures s'.task.Panicked? <==> ending != Pass.Finished
  {
    var r, limit := Word(s.watch.tally.running), s.config.limit;
    var c := Pass.Call(s.items.waiting, r, limit, limit);
    labels, s' := PassReads(s);
    labels, s' := Extend(s, labels, s', Inner(Gauges));
    if Pass.GaugePanics(r, limit) {
      fates, ending := [], Pass.GaugePanic;
    } else if r > limit {
      fates, ending := [], Pass.Finished;
    } else {
      assert Pass.Midway(c, env, [], s.items.waiting, limit - r);
      labels, s', fates, ending := RestOfPass(s, labels, s', c, env, reached, [], limit - r);
    }
  }
}
