/** Interleaved runs of the tasks of one trigger over stale caches (src/resources/trigger.rs:703-957):
    which hashes can be suppressed without ever having been enqueued. */
module TriggerHistory {
  import opened Wrappers
  import opened TriggerTypes
  import Seq = TriggerRun

  /** A version of the trigger on the server. History: `specs` are the specs it has had so far. */
  datatype Version = Version(trigger: Trigger, specs: seq<Spec>)

  datatype Pc =
    | Starting                                    // the cached trigger is read
    | Looping                                     // between two sources
    | Found(source: string, found: CheckedSource) // a source is fetched and hashed
    | Recording(source: string, found: CheckedSource, state: Option<TriggerState>, lastRun: Option<string>)

  /** `read` is the version that the task works with, `checked` its filtered map of checked sources. */
  datatype Task = Task(read: Version, checked: Checked, todo: set<string>, pc: Pc)

  /** What was enqueued successfully, by source: all the commits, and the file hashes (none if it could not
      be calculated) of the tasks that watch files. */
  datatype Enqueued = Enqueued(commits: set<(string, Hash)>, files: set<(string, Option<Hash>)>)

  /** `history` holds every version of the trigger that the server has had; a cache read returns any
      of them. */
  datatype State = State(history: seq<Version>, tasks: map<nat, Task>, enqueued: Enqueued)

  /** `version` is the cached version that is read, `kept` whether the server accepts the patch. */
  datatype Label =
    | EditSpec(spec: Spec)
    | Recreate(spec: Spec)
    | ReconcileStatus(version: nat, kept: bool)
    | Start(id: nat, version: nat, single: Option<string>)
    | MarkRunning(id: nat, version: nat, kept: bool)
    | SkipSource(id: nat, source: string)
    | Fetch(id: nat, source: string, commit: Hash, file: Option<Hash>)
    | Execute(id: nat, ok: bool, now: string)
    | Suppress(id: nat)
    | Record(id: nat, version: nat, kept: bool)
    | Finish(id: nat, version: nat, kept: bool, now: string)

  function Init(spec: Spec): State {
    State([Version(Trigger(spec, None), [spec])], map[], Enqueued({}, {}))
  }

  function SourcesToCheck(t: Trigger, single: Option<string>): set<string> {
    match single
    case Some(source) => {source}
    case None => set s | s in t.spec.names
  }

  predicate At(s: State, id: nat) {
    id in s.tasks
  }

  predicate Acts(task: Task)
    requires task.pc.Found?
  {
    MustExecute(task.read.trigger.spec, Lookup(task.checked, task.pc.source), task.pc.found)
  }

  predicate Enabled(s: State, l: Label) {
    s.history != [] &&
    match l
    case EditSpec(_) => true
    case Recreate(_) => true
    case ReconcileStatus(version, _) => version < |s.history|
    case Start(id, version, _) => id !in s.tasks && version < |s.history|
    case MarkRunning(id, version, _) => At(s, id) && s.tasks[id].pc.Starting? && version < |s.history|
    case SkipSource(id, source) => At(s, id) && s.tasks[id].pc.Looping? && source in s.tasks[id].todo
    case Fetch(id, source, _, file) =>
      At(s, id) && s.tasks[id].pc.Looping? && source in s.tasks[id].todo
      && (file.Some? ==> s.tasks[id].read.trigger.spec.files)
    case Execute(id, _, _) => At(s, id) && s.tasks[id].pc.Found? && Acts(s.tasks[id])
    case Suppress(id) => At(s, id) && s.tasks[id].pc.Found? && !Acts(s.tasks[id])
    case Record(id, version, _) => At(s, id) && s.tasks[id].pc.Recording? && version < |s.history|
    case Finish(id, version, _, _) =>
      At(s, id) && s.tasks[id].pc.Looping? && s.tasks[id].todo == {} && version < |s.history|
  }

  /** The forced apply of a status computed from the cached version. */
  function Patched(history: seq<Version>, version: nat, kept: bool, state: Option<TriggerState>,
                   checked: Option<Checked>, lastRun: Option<string>): seq<Version>
    requires version < |history|
  {
    if !kept then history
    else
      var status := MergeStatus(history[version].trigger, state, checked, lastRun);
      history + [Last(history).(trigger := Last(history).trigger.(status := Some(status)))]
  }

  /** A successful execution of the action of a task. */
  function Executed(e: Enqueued, spec: Spec, source: string, found: CheckedSource): Enqueued {
    Enqueued(if found.commit.Some? then e.commits + {(source, found.commit.value)} else e.commits,
             if spec.files then e.files + {(source, found.file)} else e.files)
  }

  function Next(s: State, l: Label): State
    requires Enabled(s, l)
  {
    match l
    case EditSpec(spec) =>
      var newest := Last(s.history);
      s.(history := s.history + [Version(newest.trigger.(spec := spec), newest.specs + [spec])])
    case Recreate(spec) =>
      s.(history := s.history + [Version(Trigger(spec, None), Last(s.history).specs + [spec])])
    case ReconcileStatus(version, kept) =>
      s.(history := Patched(s.history, version, kept, None, None, None))
    case Start(id, version, single) =>
      var v := s.history[version];
      s.(tasks := s.tasks[id := Task(v, Known(CheckedOf(v.trigger), v.trigger.spec.names),
                                     SourcesToCheck(v.trigger, single), Starting)])
    case MarkRunning(id, version, kept) =>
      s.(history := Patched(s.history, version, kept, Some(Running), None, None),
         tasks := s.tasks[id := s.tasks[id].(pc := Looping)])
    case SkipSource(id, source) =>
      s.(tasks := s.tasks[id := s.tasks[id].(todo := s.tasks[id].todo - {source})])
    case Fetch(id, source, commit, file) =>
      s.(tasks := s.tasks[id := s.tasks[id].(todo := s.tasks[id].todo - {source},
                                             pc := Found(source, CheckedSource(Some(commit), file, None)))])
    case Execute(id, ok, now) =>
      var task := s.tasks[id];
      if ok then
        var recording := Recording(task.pc.source, task.pc.found.(changed := Some(now)), Some(Running), Some(now));
        s.(enqueued := Executed(s.enqueued, task.read.trigger.spec, task.pc.source, task.pc.found),
           tasks := s.tasks[id := task.(pc := recording)])
      else
        s.(tasks := s.tasks[id := task.(pc := Looping)])
    case Suppress(id) =>
      var task := s.tasks[id];
      var recorded := Lookup(task.checked, task.pc.source);
      var found := task.pc.found.(changed := if recorded.Some? then recorded.value.changed else None);
      s.(tasks := s.tasks[id := task.(pc := Recording(task.pc.source, found, None, None))])
    case Record(id, version, kept) =>
      var pc := s.tasks[id].pc;
      s.(history := Patched(s.history, version, kept, pc.state, Some(map[pc.source := pc.found]), pc.lastRun),
         tasks := s.tasks[id := s.tasks[id].(pc := Looping)])
    case Finish(id, version, kept, now) =>
      s.(history := Patched(s.history, version, kept, Some(Idle), None, Some(now)), tasks := s.tasks - {id})
  }

  function Run(start: State, labels: seq<Label>): Option<State> {
    if labels == [] then Some(start) else
      match Run(start, labels[..|labels| - 1])
      case None => None
      case Some(s) => if Enabled(s, Last(labels)) then Some(Next(s, Last(labels))) else None
  }

  // ---------------------------------------------------------------------------
  // Where recorded hashes come from
  // ---------------------------------------------------------------------------

  /** Under this spec only the files of the source decide, so a commit can be recorded without being enqueued. */
  predicate ComparesFiles(spec: Spec, source: string) {
    spec.files && spec.onChangeOnly && source in spec.names
  }

  /** Under this spec only the commit of the source decides. */
  predicate ComparesCommit(spec: Spec, source: string) {
    !spec.files && spec.onChangeOnly && source in spec.names
  }

  /** A recorded commit was enqueued, or could pass under an earlier spec that compares files; a recorded file
      hash was enqueued, and a missing one too, or it stems from a spec that does not watch files. */
  ghost predicate RecordOk(source: string, found: CheckedSource, specs: seq<Spec>, e: Enqueued) {
    && found.commit.Some?
    && ((source, found.commit.value) in e.commits || exists spec <- specs :: ComparesFiles(spec, source))
    && ((source, found.file) in e.files || (found.file.None? && exists spec <- specs :: !spec.files))
  }

  ghost predicate AllOk(checked: Checked, specs: seq<Spec>, e: Enqueued) {
    forall source <- checked :: RecordOk(source, checked[source], specs, e)
  }

  ghost predicate VersionOk(v: Version, newest: seq<Spec>, e: Enqueued) {
    && v.specs != [] && Last(v.specs) == v.trigger.spec && v.specs <= newest
    && AllOk(CheckedOf(v.trigger), v.specs, e)
  }

  ghost predicate TaskOk(task: Task, newest: seq<Spec>, e: Enqueued) {
    && VersionOk(task.read, newest, e)
    && AllOk(task.checked, task.read.specs, e)
    && (forall source <- task.checked :: source in task.read.trigger.spec.names)
    && (task.pc.Found? ==> task.pc.found.commit.Some? && (task.pc.found.file.Some? ==> task.read.trigger.spec.files))
    && (task.pc.Recording? ==> RecordOk(task.pc.source, task.pc.found, task.read.specs, e))
  }

  ghost predicate Inv(s: State) {
    && s.history != []
    && (forall v <- s.history :: VersionOk(v, Last(s.history).specs, s.enqueued))
    && (forall id <- s.tasks :: TaskOk(s.tasks[id], Last(s.history).specs, s.enqueued))
  }

  lemma MoreIsOk(e: Enqueued, e': Enqueued)
    requires e.commits <= e'.commits && e.files <= e'.files
    ensures forall source, found, specs, specs' ::
      RecordOk(source, found, specs, e) && specs <= specs' ==> RecordOk(source, found, specs', e')
  {
  }

  predicate Patches(l: Label) {
    l.ReconcileStatus? || l.MarkRunning? || l.Record? || l.Finish?
  }

  /** A patch keeps what a cached version has recorded, and adds what a task has found. */
  lemma PatchedOk(s: State, version: nat, state: Option<TriggerState>, checked: Option<Checked>, lastRun: Option<string>)
    requires Inv(s) && version < |s.history|
    requires checked.Some? ==> AllOk(checked.value, Last(s.history).specs, s.enqueued)
    ensures VersionOk(Last(Patched(s.history, version, true, state, checked, lastRun)), Last(s.history).specs, s.enqueued)
  {
    MoreIsOk(s.enqueued, s.enqueued);
    assert VersionOk(s.history[version], Last(s.history).specs, s.enqueued);
    assert VersionOk(Last(s.history), Last(s.history).specs, s.enqueued);
  }

  lemma PatchStep(s: State, l: Label)
    requires Inv(s) && Enabled(s, l) && Patches(l)
    ensures Inv(Next(s, l))
  {
    MoreIsOk(s.enqueued, s.enqueued);
    match l
    case ReconcileStatus(version, _) => PatchedOk(s, version, None, None, None);
    case MarkRunning(_, version, _) => PatchedOk(s, version, Some(Running), None, None);
    case Record(id, version, _) =>
      var pc := s.tasks[id].pc;
      assert TaskOk(s.tasks[id], Last(s.history).specs, s.enqueued);
      PatchedOk(s, version, pc.state, Some(map[pc.source := pc.found]), pc.lastRun);
    case Finish(_, version, _, now) => PatchedOk(s, version, Some(Idle), None, Some(now));
  }

  lemma EditStep(s: State, l: Label)
    requires Inv(s) && Enabled(s, l) && (l.EditSpec? || l.Recreate?)
    ensures Inv(Next(s, l))
  {
    MoreIsOk(s.enqueued, s.enqueued);
    var newest, newest' := Last(s.history), Last(Next(s, l).history);
    assert VersionOk(newest, newest.specs, s.enqueued);
    assert newest.specs <= newest'.specs;
  }

  lemma TaskStep(s: State, l: Label)
    requires Inv(s) && Enabled(s, l) && (l.Start? || l.SkipSource? || l.Fetch? || l.Suppress?)
    ensures Inv(Next(s, l))
  {
    if l.Start? {
      assert VersionOk(s.history[l.version], Last(s.history).specs, s.enqueued);
    } else if l.Suppress? {
      var task := s.tasks[l.id];
      assert TaskOk(task, Last(s.history).specs, s.enqueued);
      assert task.read.trigger.spec in task.read.specs;
    }
  }

  lemma ExecuteStep(s: State, l: Label)
    requires Inv(s) && Enabled(s, l) && l.Execute?
    ensures Inv(Next(s, l))
  {
    var task := s.tasks[l.id];
    assert TaskOk(task, Last(s.history).specs, s.enqueued);
    assert task.read.trigger.spec in task.read.specs;
    MoreIsOk(s.enqueued, Next(s, l).enqueued);
  }

  /** For any number of tasks, any edits of the spec, stale reads, failed actions and lost patches. */
  lemma {:induction false} AlwaysInv(spec: Spec, labels: seq<Label>, s: State)
    requires Run(Init(spec), labels) == Some(s)
    ensures Inv(s)
  {
    if labels != [] {
      var before := Run(Init(spec), labels[..|labels| - 1]).value;
      var l := Last(labels);
      AlwaysInv(spec, labels[..|labels| - 1], before);
      if Patches(l) {
        PatchStep(before, l);
      } else if l.EditSpec? || l.Recreate? {
        EditStep(before, l);
      } else if l.Execute? {
        ExecuteStep(before, l);
      } else {
        TaskStep(before, l);
      }
    }
  }

  /** A found hash that was never enqueued for its source leads to the execution of the action: a file hash
      always; a missing one if the trigger has watched files from the beginning; a commit if no spec so far
      has compared the files of its source instead. */
  lemma NewHashIsNeverSuppressed(spec: Spec, labels: seq<Label>, s: State, id: nat)
    requires Run(Init(spec), labels) == Some(s)
    requires id in s.tasks && s.tasks[id].pc.Found?
    ensures var task := s.tasks[id];
      var (source, found, watches) := (task.pc.source, task.pc.found, task.read.trigger.spec.files);
      && (watches && found.file.Some? && (source, found.file) !in s.enqueued.files ==> Acts(task))
      && (watches && found.file.None? && (source, found.file) !in s.enqueued.files ==>
            Acts(task) || exists sp <- task.read.specs :: !sp.files)
      && (!watches && found.commit.Some? && (source, found.commit.value) !in s.enqueued.commits ==>
            Acts(task) || exists sp <- task.read.specs :: ComparesFiles(sp, source))
  {
    AlwaysInv(spec, labels, s);
    assert TaskOk(s.tasks[id], Last(s.history).specs, s.enqueued);
  }

  // ---------------------------------------------------------------------------
  // An undisturbed task
  // ---------------------------------------------------------------------------

  lemma Extend(start: State, labels: seq<Label>, s: State, l: Label) returns (longer: seq<Label>, s': State)
    requires Run(start, labels) == Some(s) && Enabled(s, l)
    ensures s' == Next(s, l) && Run(start, longer) == Some(s')
  {
    longer, s' := labels + [l], Next(s, l);
    assert longer[..|longer| - 1] == labels;
  }

  /** The task is between two sources, with the spec of the newest version, which shows the trigger `t`. */
  ghost predicate Fresh(s: State, id: nat, local: Checked, todo: set<string>, t: Trigger) {
    && s.history != [] && Last(s.history).trigger == t
    && id in s.tasks && s.tasks[id].pc.Looping? && s.tasks[id].read.trigger.spec == t.spec
    && s.tasks[id].checked == local && s.tasks[id].todo == todo
  }

  /** What the sequential task makes of the trigger with one source. */
  function After(t: Trigger, local: Checked, source: string, o: Seq.Observation): Seq.World {
    Seq.CheckSource(Seq.World(t, [], []), local, source, o)
  }

  /** With fresh cache reads and patches that are kept, the steps for one source are the sequential ones. */
  lemma UndisturbedCheck(start: State, before: seq<Label>, s: State, id: nat, local: Checked, todo: set<string>, t: Trigger,
                         source: string, o: Seq.Observation)
    returns (labels: seq<Label>, s': State)
    requires Run(start, before) == Some(s) && Fresh(s, id, local, todo, t) && source in todo
    ensures Run(start, labels) == Some(s')
    ensures Fresh(s', id, local, todo - {source}, After(t, local, source, o).trigger)
    ensures s'.enqueued == if After(t, local, source, o).enqueued == [] then s.enqueued
                           else Executed(s.enqueued, t.spec, source, Seq.FoundBy(t.spec, o))
  {
    if o.Unavailable? {
      labels, s' := Extend(start, before, s, SkipSource(id, source));
    } else {
      labels, s' := Extend(start, before, s, Fetch(id, source, o.commit, Seq.FoundBy(t.spec, o).file));
      assert s'.tasks[id].pc.found == Seq.FoundBy(t.spec, o) && s'.history == s.history;
      labels, s' := UndisturbedFound(start, labels, s', id, local, t, source, o);
    }
  }

  lemma UndisturbedFound(start: State, before: seq<Label>, s: State, id: nat, local: Checked, t: Trigger,
                         source: string, o: Seq.Observation)
    returns (labels: seq<Label>, s': State)
    requires Run(start, before) == Some(s) && o.Seen? && id in s.tasks
    requires s.tasks[id].pc == Found(source, Seq.FoundBy(t.spec, o))
    requires Fresh(s.(tasks := s.tasks[id := s.tasks[id].(pc := Looping)]), id, local, s.tasks[id].todo, t)
    ensures Run(start, labels) == Some(s')
    ensures Fresh(s', id, local, s.tasks[id].todo, After(t, local, source, o).trigger)
    ensures s'.enqueued == if After(t, local, source, o).enqueued == [] then s.enqueued
                           else Executed(s.enqueued, t.spec, source, Seq.FoundBy(t.spec, o))
  {
    var newest := |s.history| - 1;
    if Acts(s.tasks[id]) {
      labels, s' := Extend(start, before, s, Execute(id, o.execOk, o.at));
      if o.execOk {
        labels, s' := Extend(start, labels, s', Record(id, newest, true));
      }
    } else {
      labels, s' := Extend(start, before, s, Suppress(id));
      labels, s' := Extend(start, labels, s', Record(id, newest, true));
    }
  }

  /** The whole loop of an undisturbed task, in some order of the sources. */
  lemma {:induction false} UndisturbedChecks(start: State, before: seq<Label>, s: State, id: nat, local: Checked,
                                             todo: set<string>, w: Seq.World, obs: string -> Seq.Observation,
                                             order: seq<string>)
    returns (labels: seq<Label>, s': State)
    requires Run(start, before) == Some(s) && Fresh(s, id, local, todo, w.trigger)
    requires Seq.Distinct(order) && Seq.Elements(order) <= todo
    ensures Run(start, labels) == Some(s')
    ensures Fresh(s', id, local, todo - Seq.Elements(order), Seq.CheckAll(w, local, order, obs).trigger)
  {
    if order == [] {
      labels, s' := before, s;
    } else {
      var prefix := order[..|order| - 1];
      labels, s' := UndisturbedChecks(start, before, s, id, local, todo, w, obs, prefix);
      assert Seq.Elements(order) == Seq.Elements(prefix) + {Last(order)} && Last(order) !in Seq.Elements(prefix);
      var t := Seq.CheckAll(w, local, prefix, obs).trigger;
      labels, s' := UndisturbedCheck(start, labels, s', id, local, todo - Seq.Elements(prefix), t, Last(order), obs(Last(order)));
      assert todo - Seq.Elements(prefix) - {Last(order)} == todo - Seq.Elements(order);
    }
  }

  lemma Enumerated(todo: set<string>) returns (order: seq<string>)
    ensures Seq.Distinct(order) && Seq.Elements(order) == todo
  {
    if todo == {} {
      order := [];
    } else {
      var source :| source in todo;
      var rest := Enumerated(todo - {source});
      order := rest + [source];
      assert Seq.Elements(order) == Seq.Elements(rest) + {source};
    }
  }

  lemma PatchedNewest(history: seq<Version>, state: Option<TriggerState>, checked: Option<Checked>, lastRun: Option<string>)
    requires history != []
    ensures var history' := Patched(history, |history| - 1, true, state, checked, lastRun);
      history' != [] && Last(history').trigger == Seq.Updated(Last(history).trigger, state, checked, lastRun)
  {
  }

  lemma UndisturbedStart(s: State, id: nat, single: Option<string>) returns (labels: seq<Label>, s': State)
    requires s.history != [] && id !in s.tasks
    ensures Run(s, labels) == Some(s')
    ensures var t := Last(s.history).trigger;
      Fresh(s', id, Known(CheckedOf(t), t.spec.names), Seq.SourcesOf(t.spec, single), Seq.Updated(t, Some(Running), None, None))
  {
    var v := Last(s.history);
    labels, s' := Extend(s, [], s, Start(id, |s.history| - 1, single));
    assert s'.history == s.history && s'.tasks[id].read == v && s'.tasks[id].pc == Starting;
    PatchedNewest(s.history, Some(Running), None, None);
    labels, s' := Extend(s, labels, s', MarkRunning(id, |s.history| - 1, true));
  }

  lemma UndisturbedFinish(start: State, before: seq<Label>, s: State, id: nat, local: Checked, t: Trigger, finishedAt: string)
    returns (labels: seq<Label>, s': State)
    requires Run(start, before) == Some(s) && Fresh(s, id, local, {}, t)
    ensures Run(start, labels) == Some(s') && s'.history != []
    ensures Last(s'.history).trigger == Seq.Updated(t, Some(Idle), None, Some(finishedAt))
  {
    PatchedNewest(s.history, Some(Idle), None, Some(finishedAt));
    labels, s' := Extend(start, before, s, Finish(id, |s.history| - 1, true, finishedAt));
  }

  /** A task that nobody disturbs leaves the trigger just as a run of the sequential task does: whatever the
      sources show, there is a run of its steps to that status. */
  lemma UndisturbedRun(s: State, id: nat, single: Option<string>, obs: string -> Seq.Observation, finishedAt: string)
    returns (labels: seq<Label>, s': State)
    requires s.history != [] && id !in s.tasks
    ensures Run(s, labels) == Some(s') && s'.history != []
    ensures var t := Last(s.history).trigger;
      Last(s'.history).trigger
        == Trigger(t.spec, Some(Status(Idle, Some(finishedAt),
                     Seq.CheckedAfter(t.spec, CheckedOf(t), Seq.SourcesOf(t.spec, single), obs))))
  {
    var t := Last(s.history).trigger;
    var local, sources := Known(CheckedOf(t), t.spec.names), Seq.SourcesOf(t.spec, single);
    labels, s' := UndisturbedStart(s, id, single);
    var order := Enumerated(sources);
    var w := Seq.World(Seq.Updated(t, Some(Running), None, None), [], []);
    labels, s' := UndisturbedChecks(s, labels, s', id, local, sources, w, obs, order);
    assert sources - Seq.Elements(order) == {};
    labels, s' := UndisturbedFinish(s, labels, s', id, local, Seq.CheckAll(w, local, order, obs).trigger, finishedAt);
    FinalStatus(t, order, obs, finishedAt);
  }

  lemma FinalStatus(t: Trigger, order: seq<string>, obs: string -> Seq.Observation, finishedAt: string)
    requires Seq.Distinct(order)
    ensures var w := Seq.World(Seq.Updated(t, Some(Running), None, None), [], []);
      var w' := Seq.CheckAll(w, Known(CheckedOf(t), t.spec.names), order, obs);
      Seq.Updated(w'.trigger, Some(Idle), None, Some(finishedAt))
        == Trigger(t.spec, Some(Status(Idle, Some(finishedAt), Seq.CheckedAfter(t.spec, CheckedOf(t), Seq.Elements(order), obs))))
  {
    FirstUpdate(t);
    Seq.CheckAllMeaning(Seq.World(Seq.Updated(t, Some(Running), None, None), [], []), CheckedOf(t), order, obs);
    Seq.NamesStay(t.spec, CheckedOf(t), Seq.Elements(order), obs);
  }

  lemma FirstUpdate(t: Trigger)
    ensures var t1 := Seq.Updated(t, Some(Running), None, None);
      t1.spec == t.spec && t1.status.Some? && CheckedOf(t1) == Known(CheckedOf(t), t.spec.names)
  {
    assert CheckedOf(t) + map[] == CheckedOf(t);
  }

  // ---------------------------------------------------------------------------
  // Exactly when a hash is lost
  // ---------------------------------------------------------------------------

  /** A task is about to suppress a commit, or a missing file hash, that was never enqueued for `source`. */
  ghost predicate LosesCommit(s: State, id: nat, source: string) {
    && Enabled(s, Suppress(id))
    && s.tasks[id].pc.source == source && !s.tasks[id].read.trigger.spec.files
    && s.tasks[id].pc.found.commit.Some? && (source, s.tasks[id].pc.found.commit.value) !in s.enqueued.commits
  }

  ghost predicate LosesMissingHash(s: State, id: nat, source: string) {
    && Enabled(s, Suppress(id))
    && s.tasks[id].pc.source == source && s.tasks[id].read.trigger.spec.files
    && s.tasks[id].pc.found.file.None? && (source, None) !in s.enqueued.files
  }

  /** A run over exactly these specs, in this order. */
  ghost predicate RunOver(specs: seq<Spec>, labels: seq<Label>, s: State) {
    specs != [] && Run(Init(specs[0]), labels) == Some(s) && s.history != [] && Last(s.history).specs == specs
  }

  ghost predicate CommitSwitch(specs: seq<Spec>, source: string) {
    exists i, j :: 0 <= i < j < |specs| && ComparesFiles(specs[i], source) && ComparesCommit(specs[j], source)
  }

  ghost predicate MissingHashSwitch(specs: seq<Spec>, source: string) {
    exists i, j :: 0 <= i < j < |specs| && !specs[i].files && ComparesFiles(specs[j], source)
  }

  /** Over given specs, a commit can be lost if and only if one of them compares the files of the source and
      a later one its commit. */
  lemma CommitLostIff(specs: seq<Spec>, source: string)
    requires specs != []
    ensures (exists labels, s, id :: RunOver(specs, labels, s) && LosesCommit(s, id, source))
       <==> CommitSwitch(specs, source)
  {
    forall labels, s, id | RunOver(specs, labels, s) && LosesCommit(s, id, source) ensures CommitSwitch(specs, source) {
      LossNeedsSwitch(specs, labels, s, id, source);
    }
    if CommitSwitch(specs, source) {
      var i, j :| 0 <= i < j < |specs| && ComparesFiles(specs[i], source) && ComparesCommit(specs[j], source);
      var labels, s := LoseCommit(specs, i, j, source);
    }
  }

  /** Over given specs, a missing file hash can be lost if and only if one of them does not watch files and a
      later one compares the files of the source. */
  lemma MissingHashLostIff(specs: seq<Spec>, source: string)
    requires specs != []
    ensures (exists labels, s, id :: RunOver(specs, labels, s) && LosesMissingHash(s, id, source))
       <==> MissingHashSwitch(specs, source)
  {
    forall labels, s, id | RunOver(specs, labels, s) && LosesMissingHash(s, id, source)
      ensures MissingHashSwitch(specs, source)
    {
      LossNeedsSwitch(specs, labels, s, id, source);
    }
    if MissingHashSwitch(specs, source) {
      var i, j :| 0 <= i < j < |specs| && !specs[i].files && ComparesFiles(specs[j], source);
      var labels, s := LoseMissingHash(specs, i, j, source);
    }
  }

  lemma LossNeedsSwitch(specs: seq<Spec>, labels: seq<Label>, s: State, id: nat, source: string)
    requires RunOver(specs, labels, s)
    ensures LosesCommit(s, id, source) ==> CommitSwitch(specs, source)
    ensures LosesMissingHash(s, id, source) ==> MissingHashSwitch(specs, source)
  {
    if Enabled(s, Suppress(id)) {
      NewHashIsNeverSuppressed(specs[0], labels, s, id);
      SuppressedUnder(specs, labels, s, id);
      var j := |s.tasks[id].read.specs| - 1;
      if LosesCommit(s, id, source) {
        var i :| 0 <= i <= j && ComparesFiles(specs[i], source);
      } else if LosesMissingHash(s, id, source) {
        var i :| 0 <= i <= j && !specs[i].files;
      }
    }
  }

  /** A task suppresses under the last of the specs that it has read, and only a source that this spec names. */
  lemma SuppressedUnder(specs: seq<Spec>, labels: seq<Label>, s: State, id: nat)
    requires RunOver(specs, labels, s) && Enabled(s, Suppress(id))
    ensures var task := s.tasks[id];
      && task.read.specs != [] && task.read.specs <= specs && specs[|task.read.specs| - 1] == task.read.trigger.spec
      && task.read.trigger.spec.onChangeOnly && task.pc.source in task.read.trigger.spec.names
  {
    AlwaysInv(specs[0], labels, s);
    assert TaskOk(s.tasks[id], specs, s.enqueued);
  }

  // ---------------------------------------------------------------------------
  // Runs that lose a hash
  // ---------------------------------------------------------------------------

  /** The newest version has had these specs, and has this status. */
  ghost predicate NewestIs(s: State, specs: seq<Spec>, status: Option<Status>) {
    s.history != [] && specs != [] && Last(s.history) == Version(Trigger(Last(specs), status), specs)
  }

  /** The spec is edited up to the first `n` specs. */
  lemma {:induction false} EditTo(start: State, labels: seq<Label>, s: State, specs: seq<Spec>, m: nat, n: nat,
                                  status: Option<Status>)
    returns (longer: seq<Label>, s': State)
    requires 0 < m <= n <= |specs| && Run(start, labels) == Some(s) && NewestIs(s, specs[..m], status)
    ensures Run(start, longer) == Some(s') && NewestIs(s', specs[..n], status)
    ensures s'.tasks == s.tasks && s'.enqueued == s.enqueued
  {
    if m == n {
      longer, s' := labels, s;
    } else {
      longer, s' := EditTo(start, labels, s, specs, m, n - 1, status);
      longer, s' := Extend(start, longer, s', EditSpec(specs[n - 1]));
      assert specs[..n] == specs[..n - 1] + [specs[n - 1]];
    }
  }

  /** A fresh task over the newest version fetches one source. */
  lemma FetchedBy(start: State, labels: seq<Label>, s: State, specs: seq<Spec>, status: Option<Status>,
                  id: nat, source: string, commit: Hash, file: Option<Hash>)
    returns (longer: seq<Label>, s': State)
    requires Run(start, labels) == Some(s) && NewestIs(s, specs, status) && id !in s.tasks
    requires file.Some? ==> Last(specs).files
    ensures Run(start, longer) == Some(s')
    ensures s'.history == s.history && s'.enqueued == s.enqueued && s'.tasks.Keys == s.tasks.Keys + {id}
    ensures var t := Trigger(Last(specs), status);
      s'.tasks[id] == Task(Version(t, specs), Known(CheckedOf(t), t.spec.names), {},
                           Found(source, CheckedSource(Some(commit), file, None)))
  {
    var newest := |s.history| - 1;
    var t := Trigger(Last(specs), status);
    var task := Task(Version(t, specs), Known(CheckedOf(t), t.spec.names), {source}, Starting);
    longer, s' := Extend(start, labels, s, Start(id, newest, Some(source)));
    assert s' == s.(tasks := s.tasks[id := task]);
    longer, s' := Extend(start, longer, s', MarkRunning(id, newest, false));
    assert s' == s.(tasks := s.tasks[id := task.(pc := Looping)]);
    longer, s' := Extend(start, longer, s', Fetch(id, source, commit, file));
    assert {source} - {source} == {};
  }

  /** What the first status of a trigger shows after one source was acted on. */
  function FirstStatus(source: string, commit: Hash, file: Option<Hash>): Status {
    Status(Running, Some("t"), map[source := CheckedSource(Some(commit), file, Some("t"))])
  }

  /** The first task of a trigger acts on a source and records it. */
  lemma FirstRecorded(start: State, labels: seq<Label>, s: State, specs: seq<Spec>, source: string, file: Option<Hash>)
    returns (longer: seq<Label>, s': State)
    requires Run(start, labels) == Some(s) && NewestIs(s, specs, None)
    requires s.tasks == map[] && s.enqueued == Enqueued({}, {}) && (file.Some? ==> Last(specs).files)
    ensures Run(start, longer) == Some(s') && s'.tasks.Keys == {0}
    ensures NewestIs(s', specs, Some(FirstStatus(source, "a", file)))
    ensures s'.enqueued == Enqueued({(source, "a")}, if Last(specs).files then {(source, file)} else {})
  {
    longer, s' := FetchedBy(start, labels, s, specs, None, 0, source, "a", file);
    longer, s' := Extend(start, longer, s', Execute(0, true, "t"));
    longer, s' := FirstStatusWritten(start, longer, s', specs, source, file);
  }

  lemma FirstStatusWritten(start: State, labels: seq<Label>, s: State, specs: seq<Spec>, source: string, file: Option<Hash>)
    returns (longer: seq<Label>, s': State)
    requires Run(start, labels) == Some(s) && NewestIs(s, specs, None) && 0 in s.tasks
    requires s.tasks[0].pc == Recording(source, CheckedSource(Some("a"), file, Some("t")), Some(Running), Some("t"))
    ensures Run(start, longer) == Some(s') && s'.tasks.Keys == s.tasks.Keys && s'.enqueued == s.enqueued
    ensures NewestIs(s', specs, Some(FirstStatus(source, "a", file)))
  {
    longer, s' := Extend(start, labels, s, Record(0, |s.history| - 1, true));
  }

  /** Another task finds a new commit with the same files: it is recorded without being enqueued. */
  lemma SecondRecorded(start: State, labels: seq<Label>, s: State, specs: seq<Spec>, source: string)
    returns (longer: seq<Label>, s': State)
    requires Run(start, labels) == Some(s) && NewestIs(s, specs, Some(FirstStatus(source, "a", Some("f"))))
    requires s.tasks.Keys == {0} && ComparesFiles(Last(specs), source)
    ensures Run(start, longer) == Some(s') && s'.tasks.Keys == {0, 1} && s'.enqueued == s.enqueued
    ensures NewestIs(s', specs, Some(FirstStatus(source, "b", Some("f"))))
  {
    var status := Some(FirstStatus(source, "a", Some("f")));
    longer, s' := FetchedBy(start, labels, s, specs, status, 1, source, "b", Some("f"));
    assert Lookup(s'.tasks[1].checked, source) == Some(CheckedSource(Some("a"), Some("f"), Some("t")));
    longer, s' := Extend(start, longer, s', Suppress(1));
    longer, s' := RecordedBy(start, longer, s', specs, status, 1);
    var found := CheckedSource(Some("b"), Some("f"), Some("t"));
    assert Known(status.value.checked[source := found], Last(specs).names) == map[source := found];
  }

  /** A suppressing task records what it has found, over a status that is there. */
  lemma RecordedBy(start: State, labels: seq<Label>, s: State, specs: seq<Spec>, status: Option<Status>, id: nat)
    returns (longer: seq<Label>, s': State)
    requires Run(start, labels) == Some(s) && NewestIs(s, specs, status) && status.Some?
    requires id in s.tasks && s.tasks[id].pc.Recording? && s.tasks[id].pc.state.None? && s.tasks[id].pc.lastRun.None?
    ensures Run(start, longer) == Some(s') && s'.tasks.Keys == s.tasks.Keys && s'.enqueued == s.enqueued
    ensures var pc := s.tasks[id].pc;
      NewestIs(s', specs, Some(status.value.(checked := Known(status.value.checked[pc.source := pc.found], Last(specs).names))))
  {
    var pc := s.tasks[id].pc;
    longer, s' := Extend(start, labels, s, Record(id, |s.history| - 1, true));
    assert status.value.checked + map[pc.source := pc.found] == status.value.checked[pc.source := pc.found];
  }

  /** The spec is edited up to `specs[j]`, a task fetches one source, and the remaining edits follow. */
  lemma FetchedUnder(start: State, labels: seq<Label>, s: State, specs: seq<Spec>, m: nat, j: nat, status: Status,
                     id: nat, source: string, commit: Hash)
    returns (longer: seq<Label>, s': State)
    requires 0 < m <= j < |specs| && Run(start, labels) == Some(s) && NewestIs(s, specs[..m], Some(status))
    requires id !in s.tasks && source in specs[j].names && source in status.checked
    ensures Run(start, longer) == Some(s') && s'.history != [] && Last(s'.history).specs == specs
    ensures s'.enqueued == s.enqueued && id in s'.tasks
    ensures s'.tasks[id].read.trigger.spec == specs[j]
    ensures s'.tasks[id].pc == Found(source, CheckedSource(Some(commit), None, None))
    ensures Lookup(s'.tasks[id].checked, source) == Some(status.checked[source])
  {
    longer, s' := EditTo(start, labels, s, specs, m, j + 1, Some(status));
    var read := specs[..j + 1];
    assert Last(read) == specs[j];
    longer, s' := FetchedBy(start, longer, s', read, Some(status), id, source, commit, None);
    longer, s' := EditTo(start, longer, s', specs, j + 1, |specs|, Some(status));
    assert specs[..|specs|] == specs;
  }

  lemma RecordedUnder(specs: seq<Spec>, i: nat, source: string, file: Option<Hash>) returns (labels: seq<Label>, s: State)
    requires i < |specs| && (file.Some? ==> specs[i].files)
    ensures Run(Init(specs[0]), labels) == Some(s) && s.tasks.Keys == {0}
    ensures NewestIs(s, specs[..i + 1], Some(FirstStatus(source, "a", file)))
    ensures s.enqueued == Enqueued({(source, "a")}, if specs[i].files then {(source, file)} else {})
  {
    var start := Init(specs[0]);
    labels, s := EditTo(start, [], start, specs, 1, i + 1, None);
    var read := specs[..i + 1];
    assert Last(read) == specs[i];
    labels, s := FirstRecorded(start, labels, s, read, source, file);
  }

  /** Two commits with the same files are recorded under the spec `i`; under the spec `j` the second one is
      found again, and is not enqueued now either. */
  lemma LoseCommit(specs: seq<Spec>, i: nat, j: nat, source: string) returns (labels: seq<Label>, s: State)
    requires i < j < |specs| && ComparesFiles(specs[i], source) && ComparesCommit(specs[j], source)
    ensures RunOver(specs, labels, s) && LosesCommit(s, 2, source)
  {
    var start := Init(specs[0]);
    labels, s := RecordedUnder(specs, i, source, Some("f"));
    var read := specs[..i + 1];
    assert Last(read) == specs[i];
    labels, s := SecondRecorded(start, labels, s, read, source);
    labels, s := FetchedUnder(start, labels, s, specs, i + 1, j, FirstStatus(source, "b", Some("f")), 2, source, "b");
  }

  /** A commit is recorded under the spec `i`, without a file hash; under the spec `j` the file hash cannot be
      calculated, and this is taken for no change although the commit is new. */
  lemma LoseMissingHash(specs: seq<Spec>, i: nat, j: nat, source: string) returns (labels: seq<Label>, s: State)
    requires i < j < |specs| && !specs[i].files && ComparesFiles(specs[j], source)
    ensures RunOver(specs, labels, s) && LosesMissingHash(s, 1, source)
  {
    var start := Init(specs[0]);
    labels, s := RecordedUnder(specs, i, source, None);
    labels, s := FetchedUnder(start, labels, s, specs, i + 1, j, FirstStatus(source, "a", None), 1, source, "b");
  }
}
