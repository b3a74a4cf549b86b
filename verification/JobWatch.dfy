/** The handler of job watch events (src/jobs.rs:278-328): it keeps the last status of every job
    and maintains the counter of running jobs by differences. */
module JobWatch {
  import opened Wrappers

  /** `AtomicUsize` wraps around at 2^64; the metrics gauge takes an `i64`. */
  const WORD: int := 0x1_0000_0000_0000_0000
  const GAUGE: int := 0x8000_0000_0000_0000

  datatype Key = Key(ns: string, name: string)

  /** `rest` stands for the other fields, which only take part in the comparison of statuses. */
  datatype JobStatus = JobStatus(succeeded: Option<int>, failed: Option<int>, rest: string) {
    predicate Finished() {
      succeeded.Some? || failed.Some?
    }
  }

  /** A touched object, with the status that the store holds for it after the event
      (none if the job is gone or has no status), or an error item of the stream. */
  datatype WatchEvent = Touched(key: Key, status: Option<JobStatus>) | StreamError

  /** The map of statuses and the counter, without wrap-around. */
  datatype Tally = Tally(statuses: map<Key, JobStatus>, running: int)

  const EMPTY: Tally := Tally(map[], 0)

  function Observe(t: Tally, e: WatchEvent): Tally {
    match e
    case StreamError => t
    case Touched(key, Some(status)) =>
      var stopped := key in t.statuses && t.statuses[key] != status && (status.succeeded.Some? || status.failed.Some?);
      var appeared := key !in t.statuses;
      Tally(t.statuses[key := status],
            t.running - (if stopped then 1 else 0) + (if appeared then 1 else 0))
    case Touched(key, None) =>
      var unfinished := key in t.statuses && t.statuses[key].succeeded.None? && t.statuses[key].failed.None?;
      Tally(t.statuses - {key}, t.running - (if unfinished then 1 else 0))
  }

  /** The imperative handler, with the counter as a machine word. */
  class Watcher {
    var statuses: map<Key, JobStatus>
    var running: nat

    ghost predicate Valid() reads this {
      running < WORD
    }

    constructor ()
      ensures Valid() && statuses == EMPTY.statuses && running == EMPTY.running
    {
      statuses, running := map[], 0;
    }

    method FetchAdd()
      requires Valid()
      modifies this`running
      ensures Valid() && running == (old(running) + 1) % WORD
    {
      running := if running + 1 == WORD then 0 else running + 1;
    }

    method FetchSub()
      requires Valid()
      modifies this`running
      ensures Valid() && running == (old(running) - 1) % WORD
      ensures old(running) == 0 ==> running == 0xFFFF_FFFF_FFFF_FFFF
    {
      running := if running == 0 then WORD - 1 else running - 1;
    }

    /** A job that ends, and an unfinished one that goes away, are counted off; a new one is counted on. */
    method HandleEvent(e: WatchEvent)
      requires Valid()
      modifies this
      ensures Valid()
      ensures match e
        case StreamError => statuses == old(statuses) && running == old(running)
        case Touched(key, Some(status)) =>
          && statuses == old(statuses)[key := status]
          && running == (old(running) + (if key in old(statuses) then 0 else 1)
                         - (if key in old(statuses) && old(statuses)[key] != status
                               && (status.succeeded.Some? || status.failed.Some?) then 1 else 0)) % WORD
        case Touched(key, None) =>
          && statuses == old(statuses) - {key}
          && running == (old(running)
                         - (if key in old(statuses) && old(statuses)[key].succeeded.None?
                               && old(statuses)[key].failed.None? then 1 else 0)) % WORD
      ensures statuses == Observe(Tally(old(statuses), old(running)), e).statuses
      ensures running == Observe(Tally(old(statuses), old(running)), e).running % WORD
    {
      match e {
        case StreamError =>
        case Touched(key, Some(status)) =>
          if key in statuses && status != statuses[key] {
            if status.succeeded.Some? {
              FetchSub();
            } else if status.failed.Some? {
              FetchSub();
            }
          }
          var first := key !in statuses;
          statuses := statuses[key := status];
          if first {
            FetchAdd();
          }
        case Touched(key, None) =>
          if key in statuses {
            var status := statuses[key];
            statuses := statuses - {key};
            if status.succeeded.None? && status.failed.None? {
              FetchSub();
            }
          } else {
            assert statuses - {key} == statuses;
          }
      }
    }

    /** The loop over the stream: in the end the word is the counter without wrap-around, wrapped. */
    method HandleStream(events: seq<WatchEvent>)
      requires Valid() && statuses == EMPTY.statuses && running == EMPTY.running
      modifies this
      ensures Valid() && statuses == Replay(events).statuses
      ensures running == Replay(events).running % WORD
    {
      for i := 0 to |events|
        invariant Valid() && statuses == Replay(events[..i]).statuses
        invariant running == Replay(events[..i]).running % WORD
      {
        assert events[..i + 1][..i] == events[..i];
        WrapCommutes(statuses, Replay(events[..i]).running, events[i]);
        HandleEvent(events[i]);
      }
      assert events[..|events|] == events;
    }
  }

  /** Wrapping at each event or only at the end makes no difference. */
  lemma WrapCommutes(m: map<Key, JobStatus>, running: int, e: WatchEvent)
    ensures Observe(Tally(m, running % WORD), e).running % WORD == Observe(Tally(m, running), e).running % WORD
    ensures Observe(Tally(m, running % WORD), e).statuses == Observe(Tally(m, running), e).statuses
  {
  }

  // ---------------------------------------------------------------------------
  // The drift law
  // ---------------------------------------------------------------------------

  /** The jobs that the map shows as not finished yet. */
  function Unfinished(m: map<Key, JobStatus>): set<Key> {
    set k | k in m && m[k].succeeded.None? && m[k].failed.None?
  }

  /** A job that is already finished when it is seen for the first time. */
  predicate FirstSeenFinished(m: map<Key, JobStatus>, e: WatchEvent) {
    e.Touched? && e.status.Some? && e.key !in m && (e.status.value.succeeded.Some? || e.status.value.failed.Some?)
  }

  /** A change of the status of a job that had finished before. */
  predicate ChangedAfterFinish(m: map<Key, JobStatus>, e: WatchEvent) {
    e.Touched? && e.status.Some? && e.key in m && m[e.key] != e.status.value
    && (m[e.key].succeeded.Some? || m[e.key].failed.Some?)
  }

  function Replay(events: seq<WatchEvent>): Tally {
    if events == [] then EMPTY else Observe(Replay(events[..|events| - 1]), Last(events))
  }

  function LateCount(events: seq<WatchEvent>): nat {
    if events == [] then 0 else
      var before := events[..|events| - 1];
      LateCount(before) + if FirstSeenFinished(Replay(before).statuses, Last(events)) then 1 else 0
  }

  function RechangeCount(events: seq<WatchEvent>): nat {
    if events == [] then 0 else
      var before := events[..|events| - 1];
      RechangeCount(before) + if ChangedAfterFinish(Replay(before).statuses, Last(events)) then 1 else 0
  }

  lemma UnfinishedAfterInsert(m: map<Key, JobStatus>, k: Key, status: JobStatus)
    ensures |Unfinished(m[k := status])|
         == |Unfinished(m)| - (if k in Unfinished(m) then 1 else 0)
            + (if status.succeeded.Some? || status.failed.Some? then 0 else 1)
  {
    var others := Unfinished(m) - {k};
    assert Unfinished(m[k := status]) == if status.Finished() then others else others + {k};
    assert k in Unfinished(m) ==> Unfinished(m) == others + {k};
    assert k !in Unfinished(m) ==> Unfinished(m) == others;
  }

  lemma UnfinishedAfterRemove(m: map<Key, JobStatus>, k: Key)
    ensures |Unfinished(m - {k})| == |Unfinished(m)| - (if k in Unfinished(m) then 1 else 0)
  {
    var others := Unfinished(m) - {k};
    assert Unfinished(m - {k}) == others;
    assert k in Unfinished(m) ==> Unfinished(m) == others + {k};
    assert k !in Unfinished(m) ==> Unfinished(m) == others;
  }

  /** One event moves the counter and the number of unfinished entries by the same amount,
      except for the two kinds of drifting events. */
  lemma DriftStep(t: Tally, e: WatchEvent)
    ensures Observe(t, e).running - |Unfinished(Observe(t, e).statuses)|
         == t.running - |Unfinished(t.statuses)|
            + (if FirstSeenFinished(t.statuses, e) then 1 else 0)
            - (if ChangedAfterFinish(t.statuses, e) then 1 else 0)
  {
    match e
    case StreamError =>
    case Touched(key, Some(status)) => UnfinishedAfterInsert(t.statuses, key, status);
    case Touched(key, None) => UnfinishedAfterRemove(t.statuses, key);
  }

  /** For every stream of events over any keys. */
  lemma {:induction false} DriftLaw(events: seq<WatchEvent>)
    ensures Replay(events).running
         == |Unfinished(Replay(events).statuses)| + LateCount(events) - RechangeCount(events)
  {
    if events == [] {
      assert Unfinished(EMPTY.statuses) == {};
    } else {
      var before := events[..|events| - 1];
      DriftLaw(before);
      DriftStep(Replay(before), Last(events));
    }
  }

  lemma {:induction false} CounterBounds(events: seq<WatchEvent>)
    ensures -|events| <= Replay(events).running <= |events|
  {
    if events != [] {
      CounterBounds(events[..|events| - 1]);
    }
  }

  /** The conversion of the counter for the gauge (src/jobs.rs:151-154) succeeds exactly when the
      status changes after finishing are covered by unfinished jobs and late arrivals. */
  lemma GaugeConversionIffCovered(events: seq<WatchEvent>)
    requires |events| < GAUGE
    ensures Replay(events).running % WORD < GAUGE
       <==> RechangeCount(events) <= |Unfinished(Replay(events).statuses)| + LateCount(events)
  {
    DriftLaw(events);
    CounterBounds(events);
    GaugeRange(Replay(events).running);
  }

  lemma GaugeRange(r: int)
    requires -GAUGE < r < GAUGE
    ensures r % WORD < GAUGE <==> r >= 0
  {
  }

  /** Without drifting events the counter is exact, so it never wraps. */
  lemma ExactWithoutDrift(events: seq<WatchEvent>)
    requires LateCount(events) == 0 && RechangeCount(events) == 0
    ensures Replay(events).running == |Unfinished(Replay(events).statuses)|
  {
    DriftLaw(events);
  }

  /** A job whose status changes twice after it started takes the counter below zero. */
  lemma DriftWitness(k: Key)
    ensures var done := JobStatus(Some(1), None, "");
            var events := [Touched(k, Some(JobStatus(None, None, ""))), Touched(k, Some(done)),
                           Touched(k, Some(done.(rest := "completion time")))];
            Replay(events).running == -1 && Replay(events).running % WORD == 0xFFFF_FFFF_FFFF_FFFF >= GAUGE == 0x8000_0000_0000_0000
  {
    var done := JobStatus(Some(1), None, "");
    var e0 := Touched(k, Some(JobStatus(None, None, "")));
    var e1 := Touched(k, Some(done));
    var e2 := Touched(k, Some(done.(rest := "completion time")));
    assert [e0][..0] == [] && [e0, e1][..1] == [e0] && [e0, e1, e2][..2] == [e0, e1];
    assert Replay([e0]).running == 1;
    assert Replay([e0, e1]).running == 0;
    GaugeRange(-1);
  }
}
