/** The parts of a trigger that change detection uses (src/resources/trigger.rs:152-253) and the
    computation of a merged status (src/resources/trigger.rs:644-685). */
module TriggerTypes {
  import opened Wrappers

  type Hash = string

  datatype CheckedSource = CheckedSource(commit: Option<Hash>, file: Option<Hash>, changed: Option<string>) {
    predicate IsEqual(other: Option<CheckedSource>, withFile: bool) {
      match other
      case Some(o) => if !withFile then commit == o.commit else file == o.file
      case None => commit.None? && file.None?
    }
  }

  type Checked = map<string, CheckedSource>

  datatype TriggerState = Idle | Running | WrongConfig

  datatype Status = Status(state: TriggerState, lastRun: Option<string>, checked: Checked)

  /** `files`: whether `watch_on.files` is set. */
  datatype Spec = Spec(names: seq<string>, files: bool, onChangeOnly: bool)

  datatype Trigger = Trigger(spec: Spec, status: Option<Status>)

  const NEVER := "Never"

  function Known(checked: Checked, names: seq<string>): Checked {
    map s | s in checked && s in names :: checked[s]
  }

  function CheckedOf(t: Trigger): Checked {
    if t.status.Some? then t.status.value.checked else map[]
  }

  /** The status that an update writes, given the cached trigger. The first status keeps the given
      sources whatever the names are. */
  function MergeStatus(cached: Trigger, state: Option<TriggerState>, checked: Option<Checked>,
                       lastRun: Option<string>): Status
  {
    match cached.status
    case Some(status) =>
      Status(state.GetOr(status.state),
             if lastRun.Some? then lastRun else status.lastRun,
             Known(status.checked + checked.GetOr(map[]), cached.spec.names))
    case None =>
      Status(state.GetOr(Idle),
             if lastRun.Some? then lastRun else Some(NEVER),
             checked.GetOr(map[]))
  }

  /** With a status present, the parts that are not given are kept, the given sources win over the
      recorded ones, and sources that the spec does not name disappear. */
  lemma MergeKeepsTheRest(cached: Trigger, state: Option<TriggerState>, checked: Option<Checked>,
                          lastRun: Option<string>, source: string)
    requires cached.status.Some?
    ensures var merged := MergeStatus(cached, state, checked, lastRun);
      && (state.None? ==> merged.state == cached.status.value.state)
      && (lastRun.None? ==> merged.lastRun == cached.status.value.lastRun)
      && (state.Some? ==> merged.state == state.value)
      && (lastRun.Some? ==> merged.lastRun == lastRun)
      && Lookup(merged.checked, source)
         == if source !in cached.spec.names then None
            else if source in checked.GetOr(map[]) then Lookup(checked.GetOr(map[]), source)
            else Lookup(cached.status.value.checked, source)
  {
  }

  /** Whether the action is executed for a source (src/resources/trigger.rs:854-858). */
  predicate MustExecute(spec: Spec, recorded: Option<CheckedSource>, found: CheckedSource) {
    !found.IsEqual(recorded, spec.files) || !spec.onChangeOnly
  }
}
