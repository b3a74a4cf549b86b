/** Runs of a trigger task one after another, with fresh cache reads and accepted patches
    (src/resources/trigger.rs:734-957): the order of the sources does not matter, and every observed
    change is enqueued exactly once. */
module TriggerRun {
  import opened Wrappers
  import opened TriggerTypes

  /** What a run finds out about a source: nothing, because some step up to the latest commit fails
      (src/resources/trigger.rs:778-850), or a commit and a file hash (none if it could not be
      calculated). `execOk` is the result of an execution and `at` its time, if there is one. */
  datatype Observation = Unavailable | Seen(commit: Hash, file: Option<Hash>, execOk: bool, at: string)

  function FoundBy(spec: Spec, o: Observation): CheckedSource
    requires o.Seen?
  {
    CheckedSource(Some(o.commit), if spec.files then o.file else None, None)
  }

  // ---------------------------------------------------------------------------
  // The meaning of a run, source by source
  // ---------------------------------------------------------------------------

  predicate Executes(spec: Spec, recorded: Option<CheckedSource>, o: Observation) {
    o.Seen? && MustExecute(spec, recorded, FoundBy(spec, o))
  }

  predicate Enqueues(spec: Spec, recorded: Option<CheckedSource>, o: Observation) {
    Executes(spec, recorded, o) && o.execOk
  }

  function RecordedAfter(spec: Spec, recorded: Option<CheckedSource>, o: Observation): Option<CheckedSource> {
    if o.Unavailable? then recorded
    else if !Executes(spec, recorded, o) then Some(FoundBy(spec, o).(changed := recorded.value.changed))
    else if o.execOk then Some(FoundBy(spec, o).(changed := Some(o.at)))
    else recorded
  }

  /** What is recorded for `source` once the sources in `done` have been checked. */
  function RecordedOf(spec: Spec, before: Checked, done: set<string>, obs: string -> Observation, source: string)
    : Option<CheckedSource>
  {
    if source in done then RecordedAfter(spec, Lookup(before, source), obs(source)) else Lookup(before, source)
  }

  function CheckedAfter(spec: Spec, before: Checked, done: set<string>, obs: string -> Observation): Checked {
    map s | s in spec.names && RecordedOf(spec, before, done, obs, s).Some? :: RecordedOf(spec, before, done, obs, s).value
  }

  /** The task works with the recorded sources that the spec still names. */
  function Executed(spec: Spec, before: Checked, done: set<string>, obs: string -> Observation): set<string> {
    set s | s in done && Executes(spec, Lookup(Known(before, spec.names), s), obs(s))
  }

  function Enqueued(spec: Spec, before: Checked, done: set<string>, obs: string -> Observation): set<string> {
    set s | s in done && Enqueues(spec, Lookup(Known(before, spec.names), s), obs(s))
  }

  // ---------------------------------------------------------------------------
  // The loop over the sources
  // ---------------------------------------------------------------------------

  datatype World = World(trigger: Trigger, executed: seq<string>, enqueued: seq<string>)

  function Updated(t: Trigger, state: Option<TriggerState>, checked: Option<Checked>, lastRun: Option<string>): Trigger {
    t.(status := Some(MergeStatus(t, state, checked, lastRun)))
  }

  /** The body of the loop: `local` is the map that the task has read at its start. */
  function CheckSource(w: World, local: Checked, source: string, o: Observation): World {
    var spec := w.trigger.spec;
    if o.Unavailable? then w
    else if MustExecute(spec, Lookup(local, source), FoundBy(spec, o)) then
      var executed := w.executed + [source];
      if o.execOk then
        var found := FoundBy(spec, o).(changed := Some(o.at));
        World(Updated(w.trigger, Some(Running), Some(map[source := found]), Some(o.at)),
              executed, w.enqueued + [source])
      else w.(executed := executed)
    else
      var recorded := Lookup(local, source);
      var found := FoundBy(spec, o).(changed := if recorded.Some? then recorded.value.changed else None);
      w.(trigger := Updated(w.trigger, None, Some(map[source := found]), None))
  }

  function CheckAll(w: World, local: Checked, order: seq<string>, obs: string -> Observation): World {
    if order == [] then w else
      var before := CheckAll(w, local, order[..|order| - 1], obs);
      CheckSource(before, local, Last(order), obs(Last(order)))
  }

  lemma CheckAllStep(w: World, local: Checked, order: seq<string>, obs: string -> Observation, source: string)
    ensures CheckAll(w, local, order + [source], obs) == CheckSource(CheckAll(w, local, order, obs), local, source, obs(source))
    ensures Elements(order + [source]) == Elements(order) + {source}
  {
  }

  function Elements(order: seq<string>): set<string> {
    set s | s in order
  }

  ghost predicate Distinct(order: seq<string>) {
    forall i, j :: 0 <= i < j < |order| ==> order[i] != order[j]
  }

  /** `w` is what the loop makes of `w0` by checking the sources in `done`. */
  ghost predicate Meaning(w0: World, w: World, before: Checked, done: set<string>, obs: string -> Observation) {
    var spec := w0.trigger.spec;
    && w.trigger.spec == spec
    && w.trigger.status.Some?
    && w.trigger.status.value.checked == CheckedAfter(spec, before, done, obs)
    && multiset(w.executed) == multiset(w0.executed) + multiset(Executed(spec, before, done, obs))
    && multiset(w.enqueued) == multiset(w0.enqueued) + multiset(Enqueued(spec, before, done, obs))
  }

  /** What one iteration writes. */
  lemma CheckSourceWrites(w: World, local: Checked, source: string, o: Observation)
    requires w.trigger.status.Some?
    ensures var spec := w.trigger.spec;
      var w' := CheckSource(w, local, source, o);
      var recorded := Lookup(local, source);
      && w'.trigger.spec == spec && w'.trigger.status.Some?
      && w'.executed == w.executed + (if Executes(spec, recorded, o) then [source] else [])
      && w'.enqueued == w.enqueued + (if Enqueues(spec, recorded, o) then [source] else [])
      && CheckedOf(w'.trigger)
         == if o.Unavailable? || (Executes(spec, recorded, o) && !o.execOk) then CheckedOf(w.trigger)
            else Known(CheckedOf(w.trigger)[source := RecordedAfter(spec, recorded, o).value], spec.names)
  {
  }

  lemma CheckedStep(spec: Spec, before: Checked, done: set<string>, obs: string -> Observation, source: string)
    requires source !in done
    ensures var now := CheckedAfter(spec, before, done, obs);
      var recorded := Lookup(Known(before, spec.names), source);
      var o := obs(source);
      CheckedAfter(spec, before, done + {source}, obs)
        == if o.Unavailable? || (Executes(spec, recorded, o) && !o.execOk) then now
           else Known(now[source := RecordedAfter(spec, recorded, o).value], spec.names)
  {
  }

  lemma MultisetStep(log0: seq<string>, log: seq<string>, part: set<string>, source: string, adds: bool)
    requires multiset(log) == multiset(log0) + multiset(part) && source !in part
    ensures multiset(log + if adds then [source] else [])
         == multiset(log0) + multiset(part + if adds then {source} else {})
  {
  }

  lemma CheckSourceMeaning(w0: World, w: World, before: Checked, done: set<string>, obs: string -> Observation, source: string)
    requires Meaning(w0, w, before, done, obs) && source !in done
    ensures Meaning(w0, CheckSource(w, Known(before, w0.trigger.spec.names), source, obs(source)),
                    before, done + {source}, obs)
  {
    var spec := w0.trigger.spec;
    var local := Known(before, spec.names);
    var recorded, o := Lookup(local, source), obs(source);
    CheckSourceWrites(w, local, source, o);
    CheckedStep(spec, before, done, obs, source);
    var x, q := Executes(spec, recorded, o), Enqueues(spec, recorded, o);
    assert Executed(spec, before, done + {source}, obs) == Executed(spec, before, done, obs) + if x then {source} else {};
    assert Enqueued(spec, before, done + {source}, obs) == Enqueued(spec, before, done, obs) + if q then {source} else {};
    MultisetStep(w0.executed, w.executed, Executed(spec, before, done, obs), source, x);
    MultisetStep(w0.enqueued, w.enqueued, Enqueued(spec, before, done, obs), source, q);
  }

  lemma {:induction false} CheckAllMeaning(w: World, before: Checked, order: seq<string>, obs: string -> Observation)
    requires w.trigger.status.Some? && Distinct(order)
    requires w.trigger.status.value.checked == Known(before, w.trigger.spec.names)
    ensures Meaning(w, CheckAll(w, Known(before, w.trigger.spec.names), order, obs), before, Elements(order), obs)
  {
    var spec := w.trigger.spec;
    if order == [] {
      NothingChecked(w, before, obs);
    } else {
      var prefix := order[..|order| - 1];
      CheckAllMeaning(w, before, prefix, obs);
      assert Elements(order) == Elements(prefix) + {Last(order)};
      CheckSourceMeaning(w, CheckAll(w, Known(before, spec.names), prefix, obs), before, Elements(prefix), obs, Last(order));
    }
  }

  /** Any two orders of the same set of sources record the same, and execute and enqueue the same
      actions, each at most once. */
  lemma OrderDoesNotMatter(w: World, before: Checked, order1: seq<string>, order2: seq<string>, obs: string -> Observation)
    requires w.trigger.status.Some? && w.trigger.status.value.checked == Known(before, w.trigger.spec.names)
    requires Distinct(order1) && Distinct(order2) && Elements(order1) == Elements(order2)
    ensures var local := Known(before, w.trigger.spec.names);
      var (w1, w2) := (CheckAll(w, local, order1, obs), CheckAll(w, local, order2, obs));
      && CheckedOf(w1.trigger) == CheckedOf(w2.trigger)
      && multiset(w1.executed) == multiset(w2.executed)
      && multiset(w1.enqueued) == multiset(w2.enqueued)
      && forall s :: multiset(w1.executed)[s] <= multiset(w.executed)[s] + 1
  {
    CheckAllMeaning(w, before, order1, obs);
    CheckAllMeaning(w, before, order2, obs);
  }

  lemma NothingChecked(w: World, before: Checked, obs: string -> Observation)
    requires w.trigger.status.Some? && CheckedOf(w.trigger) == Known(before, w.trigger.spec.names)
    ensures Meaning(w, w, before, {}, obs)
  {
  }

  lemma NamesStay(spec: Spec, before: Checked, done: set<string>, obs: string -> Observation)
    ensures var checked := CheckedAfter(spec, before, done, obs);
      Known(checked + map[], spec.names) == checked
  {
  }

  // ---------------------------------------------------------------------------
  // The task
  // ---------------------------------------------------------------------------

  class TriggerTask {
    var trigger: Trigger
    var executed: seq<string>
    var enqueued: seq<string>

    ghost function Value(): World reads this {
      World(trigger, executed, enqueued)
    }

    constructor (t: Trigger)
      ensures Value() == World(t, [], [])
    {
      trigger, executed, enqueued := t, [], [];
    }

    method UpdateTriggerStatus(state: Option<TriggerState>, checked: Option<Checked>, lastRun: Option<string>)
      modifies this`trigger
      ensures trigger == Updated(old(trigger), state, checked, lastRun)
      ensures trigger.spec == old(trigger.spec) && trigger.status.Some?
      ensures var written := trigger.status.value;
        match old(trigger.status)
        case Some(status) =>
          && written.state == (if state.Some? then state.value else status.state)
          && written.lastRun == (if lastRun.Some? then lastRun else status.lastRun)
          && forall source :: Lookup(written.checked, source)
               == if source !in old(trigger.spec.names) then None
                  else if checked.Some? && source in checked.value then Some(checked.value[source])
                  else Lookup(status.checked, source)
        case None =>
          && written.state == (if state.Some? then state.value else Idle)
          && written.lastRun == (if lastRun.Some? then lastRun else Some("Never"))
          && written.checked == (if checked.Some? then checked.value else map[])
    {
      var newStatus;
      if trigger.status.Some? {
        var status := trigger.status.value;
        var newChecked := status.checked + checked.GetOr(map[]);
        newChecked := map s | s in newChecked && s in trigger.spec.names :: newChecked[s];
        newStatus := Status(state.GetOr(status.state), if lastRun.Some? then lastRun else status.lastRun, newChecked);
      } else {
        newStatus := Status(state.GetOr(Idle), if lastRun.Some? then lastRun else Some(NEVER), checked.GetOr(map[]));
      }
      trigger := trigger.(status := Some(newStatus));
    }

    /** One iteration of the main loop: a source that was seen is recorded, unless its execution fails. */
    method Check(local: Checked, source: string, o: Observation)
      modifies this
      ensures var spec := old(trigger.spec);
        var recorded := if source in local then Some(local[source]) else None;
        if o.Unavailable? then Value() == old(Value())
        else
          var file := if spec.files then o.file else None;
          var acts := recorded.None? || !spec.onChangeOnly
                      || (if spec.files then recorded.value.file != o.file else recorded.value.commit != Some(o.commit));
          if acts then
            && executed == old(executed) + [source]
            && enqueued == old(enqueued) + (if o.execOk then [source] else [])
            && trigger == if !o.execOk then old(trigger) else
                 Updated(old(trigger), Some(Running),
                         Some(map[source := CheckedSource(Some(o.commit), file, Some(o.at))]), Some(o.at))
          else
            && executed == old(executed) && enqueued == old(enqueued)
            && trigger == Updated(old(trigger), None,
                 Some(map[source := CheckedSource(Some(o.commit), file, recorded.value.changed)]), None)
      ensures Value() == CheckSource(old(Value()), local, source, o)
    {
      if o.Unavailable? {
        return;
      }
      var state := CheckedSource(Some(o.commit), None, None);
      if trigger.spec.files {
        state := state.(file := o.file);
      }
      var current := if source in local then Some(local[source]) else None;
      if !state.IsEqual(current, trigger.spec.files) || !trigger.spec.onChangeOnly {
        executed := executed + [source];
        if o.execOk {
          enqueued := enqueued + [source];
          state := state.(changed := Some(o.at));
          UpdateTriggerStatus(Some(Running), Some(map[source := state]), Some(o.at));
        }
      } else {
        if source in local {
          state := state.(changed := local[source].changed);
        }
        UpdateTriggerStatus(None, Some(map[source := state]), None);
      }
    }

    /** The main loop. The set of sources is iterated in some order. */
    method CheckSources(local: Checked, sources: set<string>, obs: string -> Observation) returns (ghost order: seq<string>)
      modifies this
      ensures Distinct(order) && Elements(order) == sources
      ensures Value() == CheckAll(old(Value()), local, order, obs)
    {
      var todo := sources;
      order := [];
      while todo != {}
        invariant Distinct(order) && Elements(order) !! todo && Elements(order) + todo == sources
        invariant Value() == CheckAll(old(Value()), local, order, obs)
      {
        var source :| source in todo;
        CheckAllStep(old(Value()), local, order, obs, source);
        Check(local, source, obs(source));
        todo, order := todo - {source}, order + [source];
      }
    }

    /** A whole run. */
    method RunOnce(single: Option<string>, obs: string -> Observation, finishedAt: string)
      modifies this
      ensures var sources := SourcesOf(old(trigger.spec), single);
        && trigger == Trigger(old(trigger.spec), Some(Status(Idle, Some(finishedAt),
                        CheckedAfter(old(trigger.spec), old(CheckedOf(trigger)), sources, obs))))
        && multiset(executed) == multiset(old(executed))
           + multiset(Executed(old(trigger.spec), old(CheckedOf(trigger)), sources, obs))
        && multiset(enqueued) == multiset(old(enqueued))
           + multiset(Enqueued(old(trigger.spec), old(CheckedOf(trigger)), sources, obs))
      ensures single.None? ==> forall s <- old(trigger.spec.names) :: s !in old(CheckedOf(trigger)) && obs(s).Seen? ==>
        multiset(executed)[s] == multiset(old(executed))[s] + 1
      ensures single.Some? ==> forall s :: s != single.value ==>
        multiset(executed)[s] == multiset(old(executed))[s] && multiset(enqueued)[s] == multiset(old(enqueued))[s]
    {
      ghost var before := CheckedOf(trigger);
      var local := map s | s in CheckedOf(trigger) && s in trigger.spec.names :: CheckedOf(trigger)[s];
      NamesStay(trigger.spec, before, {}, obs);
      UpdateTriggerStatus(Some(Running), None, None);
      assert CheckedOf(trigger) == local == Known(before, trigger.spec.names);
      var sources := SourcesOf(trigger.spec, single);
      ghost var w0 := Value();
      ghost var order := CheckSources(local, sources, obs);
      CheckAllMeaning(w0, before, order, obs);
      NamesStay(trigger.spec, before, sources, obs);
      UpdateTriggerStatus(Some(Idle), None, Some(finishedAt));
      WhichAreChecked(trigger.spec, before, single, obs);
    }
  }

  function SourcesOf(spec: Spec, single: Option<string>): set<string> {
    match single
    case Some(source) => {source}
    case None => set s | s in spec.names
  }

  /** What a run does to a source, on the values that it observes: the compared hash decides about the
      action, and a source that was seen is recorded unless its execution fails. */
  lemma RunOnSource(spec: Spec, before: Checked, single: Option<string>, obs: string -> Observation, s: string)
    ensures var done := SourcesOf(spec, single);
      var o := obs(s);
      var seen := ((single.None? && s in spec.names) || single == Some(s)) && o.Seen?;
      var recorded := if s in spec.names && s in before then Some(before[s]) else None;
      var acts := seen && (recorded.None? || !spec.onChangeOnly
                           || if spec.files then recorded.value.file != o.file else recorded.value.commit != Some(o.commit));
      && (s in Executed(spec, before, done, obs) <==> acts)
      && (s in Enqueued(spec, before, done, obs) <==> acts && o.execOk)
      && Lookup(CheckedAfter(spec, before, done, obs), s)
         == if s !in spec.names then None
            else if !seen || (acts && !o.execOk) then recorded
            else Some(CheckedSource(Some(o.commit), if spec.files then o.file else None,
                                    if acts then Some(o.at) else recorded.value.changed))
  {
  }

  /** A scheduled run checks every source of the spec, a run for one source only this one. */
  lemma WhichAreChecked(spec: Spec, before: Checked, single: Option<string>, obs: string -> Observation)
    ensures var executed := multiset(Executed(spec, before, SourcesOf(spec, single), obs));
      var enqueued := multiset(Enqueued(spec, before, SourcesOf(spec, single), obs));
      && (single.None? ==> forall s <- spec.names :: s !in before && obs(s).Seen? ==> executed[s] == 1)
      && (single.Some? ==> forall s :: s != single.value ==> executed[s] == 0 && enqueued[s] == 0)
  {
    forall s {
      RunOnSource(spec, before, single, obs, s);
    }
  }

  // ---------------------------------------------------------------------------
  // Many runs
  // ---------------------------------------------------------------------------

  datatype RunInput = RunInput(single: Option<string>, obs: string -> Observation)

  function CheckedAfterRuns(spec: Spec, before: Checked, runs: seq<RunInput>): Checked {
    if runs == [] then before else
      var last := Last(runs);
      CheckedAfter(spec, CheckedAfterRuns(spec, before, runs[..|runs| - 1]), SourcesOf(spec, last.single), last.obs)
  }

  /** What the runs observe of one source. */
  function ObservedOf(spec: Spec, runs: seq<RunInput>, source: string): seq<Observation> {
    seq(|runs|, i requires 0 <= i < |runs| =>
      if (runs[i].single.None? && source in spec.names) || runs[i].single == Some(source) then runs[i].obs(source)
      else Unavailable)
  }

  function RecordedAfterAll(spec: Spec, recorded: Option<CheckedSource>, obs: seq<Observation>): Option<CheckedSource> {
    if obs == [] then recorded
    else RecordedAfter(spec, RecordedAfterAll(spec, recorded, obs[..|obs| - 1]), Last(obs))
  }

  function ComparedOf(recorded: Option<CheckedSource>, withFile: bool): seq<Option<Hash>> {
    if recorded.None? then [] else [if withFile then recorded.value.file else recorded.value.commit]
  }

  /** The hash recorded at the beginning, if any, and then the hashes enqueued for a source, in order. */
  function EnqueuedHashes(spec: Spec, recorded: Option<CheckedSource>, obs: seq<Observation>): seq<Option<Hash>> {
    if obs == [] then ComparedOf(recorded, spec.files) else
      var before := obs[..|obs| - 1];
      var hashes := EnqueuedHashes(spec, recorded, before);
      if Enqueues(spec, RecordedAfterAll(spec, recorded, before), Last(obs))
      then hashes + [if spec.files then Last(obs).file else Some(Last(obs).commit)] else hashes
  }

  /** Sources do not influence each other over any number of runs. */
  lemma {:induction false} SourcesAreIndependent(spec: Spec, before: Checked, runs: seq<RunInput>, source: string)
    requires source in spec.names
    ensures Lookup(CheckedAfterRuns(spec, before, runs), source)
         == RecordedAfterAll(spec, Lookup(before, source), ObservedOf(spec, runs, source))
  {
    if runs != [] {
      var prefix := runs[..|runs| - 1];
      SourcesAreIndependent(spec, before, prefix, source);
      var obs := ObservedOf(spec, runs, source);
      assert obs[..|obs| - 1] == ObservedOf(spec, prefix, source);
    }
  }

  /** In every run, the log of the task gets the source if and only if the hashes enqueued for it grow, and
      then by the hash that the run has found. */
  lemma LoggedIffHashesGrow(spec: Spec, before: Checked, runs: seq<RunInput>, source: string)
    requires source in spec.names && runs != []
    ensures var prefix, last := runs[..|runs| - 1], Last(runs);
      var hashes := EnqueuedHashes(spec, Lookup(before, source), ObservedOf(spec, prefix, source));
      var hashes' := EnqueuedHashes(spec, Lookup(before, source), ObservedOf(spec, runs, source));
      if source in Enqueued(spec, CheckedAfterRuns(spec, before, prefix), SourcesOf(spec, last.single), last.obs)
      then last.obs(source).Seen?
           && hashes' == hashes + [if spec.files then last.obs(source).file else Some(last.obs(source).commit)]
      else hashes' == hashes
  {
    var prefix := runs[..|runs| - 1];
    SourcesAreIndependent(spec, before, prefix, source);
    var obs := ObservedOf(spec, runs, source);
    assert obs[..|obs| - 1] == ObservedOf(spec, prefix, source);
  }

  /** What `RunOnce` adds to its log over many runs. */
  function LoggedBy(spec: Spec, before: Checked, runs: seq<RunInput>): multiset<string> {
    if runs == [] then multiset{} else
      var prefix, last := runs[..|runs| - 1], Last(runs);
      LoggedBy(spec, before, prefix)
      + multiset(Enqueued(spec, CheckedAfterRuns(spec, before, prefix), SourcesOf(spec, last.single), last.obs))
  }

  /** So over many runs the log has a source as often as hashes were enqueued for it. */
  lemma {:induction false} LogCountsHashes(spec: Spec, before: Checked, runs: seq<RunInput>, source: string)
    requires source in spec.names
    ensures LoggedBy(spec, before, runs)[source] + |ComparedOf(Lookup(before, source), spec.files)|
         == |EnqueuedHashes(spec, Lookup(before, source), ObservedOf(spec, runs, source))|
  {
    if runs != [] {
      LogCountsHashes(spec, before, runs[..|runs| - 1], source);
      LoggedIffHashesGrow(spec, before, runs, source);
    }
  }

  /** A source that is fetched is acted on exactly when nothing is recorded for it, the compared hash
      differs from the recorded one, or every run is to act. */
  lemma ExecutesIffChanged(spec: Spec, recorded: Option<CheckedSource>, o: Observation)
    requires o.Seen?
    ensures Executes(spec, recorded, o)
       <==> recorded.None? || !spec.onChangeOnly
            || if spec.files then recorded.value.file != o.file else recorded.value.commit != Some(o.commit)
  {
  }

  /** A failed execution leaves the record alone, so the next run that sees such a hash tries again;
      any other checked run leaves recorded what it has observed. */
  lemma FailedIsRetried(spec: Spec, recorded: Option<CheckedSource>, o: Observation, next: Observation)
    requires o.Seen? && next.Seen? && if spec.files then next.file == o.file else next.commit == o.commit
    ensures Executes(spec, recorded, o) && !o.execOk ==> Executes(spec, RecordedAfter(spec, recorded, o), next)
    ensures !(Executes(spec, recorded, o) && !o.execOk) ==>
      && RecordedAfter(spec, recorded, o).Some?
      && (if spec.files then RecordedAfter(spec, recorded, o).value.file == o.file
          else RecordedAfter(spec, recorded, o).value.commit == Some(o.commit))
      && (spec.onChangeOnly ==> !Executes(spec, RecordedAfter(spec, recorded, o), next))
  {
  }

  /** No hash is enqueued twice in a row, nor first the one that was recorded at the beginning; and the
      recorded hash is always the last one of them. */
  lemma {:induction false} EnqueuedOncePerChange(spec: Spec, recorded: Option<CheckedSource>, obs: seq<Observation>)
    requires spec.onChangeOnly
    ensures var hashes := EnqueuedHashes(spec, recorded, obs);
      && (forall i :: 0 <= i < |hashes| - 1 ==> hashes[i] != hashes[i + 1])
      && ComparedOf(RecordedAfterAll(spec, recorded, obs), spec.files) == if hashes == [] then [] else [Last(hashes)]
  {
    if obs != [] {
      var before := obs[..|obs| - 1];
      EnqueuedOncePerChange(spec, recorded, before);
      if Last(obs).Seen? {
        ExecutesIffChanged(spec, RecordedAfterAll(spec, recorded, before), Last(obs));
      }
    }
  }

  /** The values of a sequence without immediate repetitions. */
  function Destuttered(s: seq<Option<Hash>>): seq<Option<Hash>> {
    if |s| <= 1 then s
    else Destuttered(s[..|s| - 1]) + if s[|s| - 1] == s[|s| - 2] then [] else [Last(s)]
  }

  lemma DestutteredStep(s: seq<Option<Hash>>, h: Option<Hash>)
    ensures Destuttered(s + [h]) == if s != [] && Last(s) == h then Destuttered(s) else Destuttered(s) + [h]
  {
  }

  /** The hash recorded at the beginning, if any, and then the observed ones. */
  function SeenHashes(spec: Spec, recorded: Option<CheckedSource>, obs: seq<Observation>): seq<Option<Hash>> {
    if obs == [] then ComparedOf(recorded, spec.files) else
      var hashes := SeenHashes(spec, recorded, obs[..|obs| - 1]);
      if Last(obs).Seen? then hashes + [if spec.files then Last(obs).file else Some(Last(obs).commit)] else hashes
  }

  /** If no execution fails, exactly the changes of the observed hash are enqueued: nothing is missed
      and nothing is repeated. */
  lemma {:induction false} EveryChangeIsEnqueued(spec: Spec, recorded: Option<CheckedSource>, obs: seq<Observation>)
    requires spec.onChangeOnly
    requires forall o <- obs :: o.Seen? ==> o.execOk
    ensures EnqueuedHashes(spec, recorded, obs) == Destuttered(SeenHashes(spec, recorded, obs))
    ensures var seen := SeenHashes(spec, recorded, obs);
      ComparedOf(RecordedAfterAll(spec, recorded, obs), spec.files) == if seen == [] then [] else [Last(seen)]
  {
    if obs != [] {
      var before := obs[..|obs| - 1];
      EveryChangeIsEnqueued(spec, recorded, before);
      if Last(obs).Seen? {
        ExecutesIffChanged(spec, RecordedAfterAll(spec, recorded, before), Last(obs));
        DestutteredStep(SeenHashes(spec, recorded, before), if spec.files then Last(obs).file else Some(Last(obs).commit));
      }
    }
  }
}
