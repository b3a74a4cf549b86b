/** The labels of a job: put together for the job spec (src/resources/action.rs:239-251), completed by
    `enqueue` (src/jobs.rs:441-453), and used when the job has finished (src/jobs.rs:161-183). */
module JobLabels {
  import opened Wrappers

  /** The names of the labels that the controller sets (src/resources/action.rs:28-39, src/jobs.rs:37),
      and all other names. */
  datatype Name = Identity | ActionKind | ActionName | SourceKind | SourceName | TriggerKind | TriggerName
                | OtherName(text: string)

  type Labels = map<Name, string>

  /** What the labels of a job tell about the run that has started it. */
  datatype Facts = Facts(actionKind: string, actionName: string, sourceKind: string, sourceName: string,
                         triggerKind: string, triggerName: string)

  function FactLabels(f: Facts): Labels {
    map[ActionKind := f.actionKind, ActionName := f.actionName, SourceKind := f.sourceKind,
        SourceName := f.sourceName, TriggerKind := f.triggerKind, TriggerName := f.triggerName]
  }

  /** Who decides on a label of an enqueued job: the controller on the identity, then the additional
      labels of the user, then the facts. */
  ghost predicate Labelled(labels: Labels, f: Facts, additional: Labels, identity: string) {
    forall k :: Lookup(labels, k) == if k == Identity then Some(identity)
                                     else if k in additional then Some(additional[k])
                                     else Lookup(FactLabels(f), k)
  }

  method LabelJob(f: Facts, additional: Option<Labels>, identity: string) returns (labels: Labels)
    ensures Labelled(labels, f, if additional.Some? then additional.value else map[], identity)
    ensures forall k :: k in labels <==> !k.OtherName? || (additional.Some? && k in additional.value)
    ensures labels[Identity] == identity
    ensures additional.Some? ==> forall k <- additional.value :: k != Identity ==> labels[k] == additional.value[k]
    ensures var own := if additional.Some? then additional.value.Keys else {};
      && (ActionKind !in own ==> labels[ActionKind] == f.actionKind)
      && (ActionName !in own ==> labels[ActionName] == f.actionName)
      && (SourceKind !in own ==> labels[SourceKind] == f.sourceKind)
      && (SourceName !in own ==> labels[SourceName] == f.sourceName)
      && (TriggerKind !in own ==> labels[TriggerKind] == f.triggerKind)
      && (TriggerName !in own ==> labels[TriggerName] == f.triggerName)
  {
    labels := map[];
    labels := labels[ActionKind := f.actionKind];
    labels := labels[ActionName := f.actionName];
    labels := labels[SourceKind := f.sourceKind];
    labels := labels[SourceName := f.sourceName];
    labels := labels[TriggerKind := f.triggerKind];
    labels := labels[TriggerName := f.triggerName];
    if additional.Some? {
      labels := labels + additional.value;
    }
    labels := labels[Identity := identity];
  }

  /** The metric labels of a finished job; none stands for the panic of an `unwrap`. */
  function MetricLabels(ns: string, labels: Labels, status: string): Option<seq<string>> {
    if ActionKind in labels && ActionName in labels && SourceKind in labels && SourceName in labels
       && TriggerKind in labels && TriggerName in labels then
      Some([ns, labels[TriggerKind], labels[TriggerName], labels[SourceKind], labels[SourceName],
            labels[ActionKind], labels[ActionName], status])
    else None
  }

  /** Whatever labels a user adds, an enqueued job carries the identity of this controller and can be
      counted without a panic; it is counted under the true facts exactly when the additional labels
      do not give one of the six labels another value. */
  lemma EnqueuedJobsAreCounted(labels: Labels, f: Facts, additional: Labels, identity: string, ns: string, status: string)
    requires Labelled(labels, f, additional, identity)
    ensures Lookup(labels, Identity) == Some(identity)
    ensures MetricLabels(ns, labels, status).Some?
    ensures MetricLabels(ns, labels, status)
              == Some([ns, f.triggerKind, f.triggerName, f.sourceKind, f.sourceName, f.actionKind, f.actionName, status])
       <==> forall k <- FactLabels(f) :: k in additional ==> additional[k] == FactLabels(f)[k]
  {
    FactLabelKept(labels, f, additional, identity, ActionKind);
    FactLabelKept(labels, f, additional, identity, ActionName);
    FactLabelKept(labels, f, additional, identity, SourceKind);
    FactLabelKept(labels, f, additional, identity, SourceName);
    FactLabelKept(labels, f, additional, identity, TriggerKind);
    FactLabelKept(labels, f, additional, identity, TriggerName);
    var truth := [ns, f.triggerKind, f.triggerName, f.sourceKind, f.sourceName, f.actionKind, f.actionName, status];
    var shown := MetricLabels(ns, labels, status).value;
    assert shown == truth <==> shown[1] == truth[1] && shown[2] == truth[2] && shown[3] == truth[3]
                               && shown[4] == truth[4] && shown[5] == truth[5] && shown[6] == truth[6];
  }

  lemma FactLabelKept(labels: Labels, f: Facts, additional: Labels, identity: string, k: Name)
    requires Labelled(labels, f, additional, identity) && k in FactLabels(f)
    ensures k in labels
    ensures labels[k] == FactLabels(f)[k] <==> k in additional ==> additional[k] == FactLabels(f)[k]
  {
    assert Lookup(labels, k) == if k in additional then Some(additional[k]) else Lookup(FactLabels(f), k);
  }
}
