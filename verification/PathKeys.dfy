/** Keys of the request rate limits (src/web.rs:172-264): extraction from paths and display. */
module PathKeys {
  import opened Wrappers

  datatype Key = Key(ns: Option<string>, trigger: Option<string>, source: Option<string>, stripSource: bool)

  const DEFAULT := Key(None, None, None, false)

  datatype Limiter = Global | Trigger | Source

  datatype Result = Ok(key: Key) | UnableToExtractKey

  /** `path.split("/")`: the parts between the slashes. */
  function Split(path: string): (parts: seq<string>)
    ensures |parts| >= 1
  {
    if path == "" then [""]
    else
      var rest := Split(path[1..]);
      if path[0] == '/' then [""] + rest
      else [[path[0]] + rest[0]] + rest[1..]
  }

  function Join(parts: seq<string>): string
    requires |parts| >= 1
  {
    if |parts| == 1 then parts[0] else parts[0] + "/" + Join(parts[1..])
  }

  /** `uuid` is the random source of a key without an explicit one. */
  function Extract(limiter: Limiter, path: string, uuid: string): Result {
    var parts := Split(path);
    match limiter
    case Global => Ok(DEFAULT)
    case Trigger =>
      if |parts| < 3 || parts[1] == "" || parts[2] == "" then UnableToExtractKey
      else Ok(Key(Some(parts[1]), Some(parts[2]), None, false))
    case Source =>
      if |parts| >= 4 && !(parts[1] == "" || parts[2] == "" || parts[3] == "") then
        Ok(Key(Some(parts[1]), Some(parts[2]), Some(parts[3]), false))
      else if |parts| < 3 || parts[1] == "" || parts[2] == "" then UnableToExtractKey
      else Ok(Key(Some(parts[1]), Some(parts[2]), Some(uuid), true))
  }

  function Display(key: Key): string {
    (if key.ns.Some? then key.ns.value + "/" else "")
    + (if key.trigger.Some? then key.trigger.value + "/" else "")
    + (if !key.stripSource && key.source.Some? then key.source.value else "")
  }

  method Format(k: Key) returns (key: string)
    ensures key == Display(k)
    ensures key == (if k.ns.Some? then k.ns.value + "/" else "") + (if k.trigger.Some? then k.trigger.value + "/" else "")
                   + (if k.source.Some? && !k.stripSource then k.source.value else "")
  {
    key := "";
    if k.ns.Some? {
      key := key + k.ns.value;
      key := key + ['/'];
    }
    if k.trigger.Some? {
      key := key + k.trigger.value;
      key := key + ['/'];
    }
    if !k.stripSource && k.source.Some? {
      key := key + k.source.value;
    }
  }

  // ---------------------------------------------------------------------------
  // Split and join
  // ---------------------------------------------------------------------------

  lemma {:induction false} SplitPrefix(part: string, path: string)
    requires '/' !in part
    ensures Split(part + "/" + path) == [part] + Split(path)
  {
    var whole := part + "/" + path;
    if part == "" {
      assert whole[0] == '/' && whole[1..] == path;
    } else {
      SplitPrefix(part[1..], path);
      assert whole[1..] == part[1..] + "/" + path;
      assert [part[0]] + part[1..] == part;
    }
  }

  lemma {:induction false} SplitWhole(part: string)
    requires '/' !in part
    ensures Split(part) == [part]
  {
    if part != "" {
      SplitWhole(part[1..]);
      assert [part[0]] + part[1..] == part;
    }
  }

  /** Splitting loses nothing, and leaves no slash in a part. */
  lemma {:induction false} SplitThenJoin(path: string)
    ensures Join(Split(path)) == path
    ensures forall part <- Split(path) :: '/' !in part
  {
    if path != "" {
      SplitThenJoin(path[1..]);
      var rest := Split(path[1..]);
      var parts := Split(path);
      if path[0] == '/' {
        assert parts[1..] == rest;
        assert path == "" + "/" + path[1..];
      } else {
        assert parts[1..] == rest[1..];
        assert path == [path[0]] + path[1..];
        if |rest| > 1 {
          assert Join(parts) == [path[0]] + rest[0] + "/" + Join(rest[1..]);
        }
        forall part | part in parts ensures '/' !in part {
          assert part == [path[0]] + rest[0] || part in rest[1..];
        }
      }
    }
  }

  // ---------------------------------------------------------------------------
  // Extraction and display
  // ---------------------------------------------------------------------------

  predicate Named(s: Option<string>) {
    s.Some? && s.value != "" && '/' !in s.value
  }

  predicate IsTriggerKey(k: Key) {
    Named(k.ns) && Named(k.trigger) && k.source.None? && !k.stripSource
  }

  predicate IsExplicitSourceKey(k: Key) {
    Named(k.ns) && Named(k.trigger) && Named(k.source) && !k.stripSource
  }

  /** A key with a random source, which is not displayed. */
  predicate IsStrippedKey(k: Key, uuid: string) {
    Named(k.ns) && Named(k.trigger) && k.source == Some(uuid) && k.stripSource
  }

  /** Both extractors accept the same paths, and agree on the trigger; the global limit has one key. */
  lemma ExtractorsAgree(path: string, uuid: string)
    ensures var (t, s) := (Extract(Trigger, path, uuid), Extract(Source, path, uuid));
      && (t.Ok? <==> s.Ok?)
      && (t.Ok? ==> t.key.ns == s.key.ns && t.key.trigger == s.key.trigger)
      && Extract(Global, path, uuid) == Ok(Key(None, None, None, false))
      && (t.Ok? ==> IsTriggerKey(t.key))
      && (s.Ok? ==> IsExplicitSourceKey(s.key) || IsStrippedKey(s.key, uuid))
  {
    SplitThenJoin(path);
  }

  /** What may follow a part of a path. */
  predicate EndsPart(tail: string) {
    tail == "" || tail[0] == '/'
  }

  /** `path` is `first`, then the given parts, each after a slash, and then something more. */
  ghost predicate Reads(path: string, first: string, parts: seq<string>, tail: string) {
    '/' !in first && EndsPart(tail) && path == first + Slashed(parts) + tail
    && forall part <- parts :: part != "" && '/' !in part
  }

  function Slashed(parts: seq<string>): string {
    if parts == [] then "" else "/" + parts[0] + Slashed(parts[1..])
  }

  lemma {:induction false} SplitSlashed(first: string, parts: seq<string>, tail: string)
    requires '/' !in first && EndsPart(tail) && forall part <- parts :: '/' !in part
    ensures var split := Split(first + Slashed(parts) + tail);
      |split| >= 1 + |parts| && split[..1 + |parts|] == [first] + parts
    decreases |parts|
  {
    if parts == [] {
      assert first + Slashed(parts) + tail == first + tail;
      if tail == "" {
        assert first + tail == first;
        SplitWhole(first);
      } else {
        assert first + tail == first + "/" + tail[1..];
        SplitPrefix(first, tail[1..]);
      }
    } else {
      var rest := parts[0] + Slashed(parts[1..]) + tail;
      assert first + Slashed(parts) + tail == first + "/" + rest;
      SplitPrefix(first, rest);
      SplitSlashed(parts[0], parts[1..], tail);
      assert [parts[0]] + parts[1..] == parts;
      assert Split(first + "/" + rest)[..1 + |parts|] == [first] + Split(rest)[..|parts|];
    }
  }

  lemma {:induction false} JoinSlashed(parts: seq<string>, n: nat) returns (tail: string)
    requires n < |parts|
    ensures EndsPart(tail) && Join(parts) == parts[0] + Slashed(parts[1..n + 1]) + tail
    decreases n
  {
    if n == 0 {
      tail := if |parts| == 1 then "" else "/" + Join(parts[1..]);
      assert parts[1..1] == [];
      assert parts[0] + Slashed([]) + tail == parts[0] + tail;
      assert |parts| > 1 ==> Join(parts) == parts[0] + ("/" + Join(parts[1..]));
    } else {
      var rest := parts[1..];
      tail := JoinSlashed(rest, n - 1);
      var middle := Slashed(rest[1..n]);
      assert parts[1..n + 1][1..] == rest[1..n];
      assert Slashed(parts[1..n + 1]) == "/" + rest[0] + middle;
      assert parts[0] + "/" + (rest[0] + middle + tail) == parts[0] + ("/" + rest[0] + middle) + tail;
    }
  }

  /** The trigger extractor reads `first/namespace/trigger`, with anything after another slash: it
      succeeds exactly on these paths, and gives these names. */
  lemma TriggerPaths(path: string, uuid: string, ns: string, trigger: string)
    ensures Extract(Trigger, path, uuid) == Ok(Key(Some(ns), Some(trigger), None, false))
       <==> exists first, tail :: Reads(path, first, [ns, trigger], tail)
  {
    var parts := Split(path);
    if Extract(Trigger, path, uuid) == Ok(Key(Some(ns), Some(trigger), None, false)) {
      SplitThenJoin(path);
      var tail := JoinSlashed(parts, 2);
      assert parts[1..3] == [ns, trigger];
      assert Reads(path, parts[0], [ns, trigger], tail);
    }
    if exists first, tail :: Reads(path, first, [ns, trigger], tail) {
      var first, tail :| Reads(path, first, [ns, trigger], tail);
      SplitSlashed(first, [ns, trigger], tail);
      var names := [ns, trigger];
      assert names[0] in names && names[1] in names;
      assert parts[1] == parts[..3][1] == names[0] && parts[2] == parts[..3][2] == names[1];
    }
  }

  /** The source extractor gives an explicit source exactly on paths with a third part. */
  lemma SourcePaths(path: string, uuid: string, ns: string, trigger: string, source: string)
    ensures Extract(Source, path, uuid) == Ok(Key(Some(ns), Some(trigger), Some(source), false))
       <==> exists first, tail :: Reads(path, first, [ns, trigger, source], tail)
  {
    var parts := Split(path);
    if Extract(Source, path, uuid) == Ok(Key(Some(ns), Some(trigger), Some(source), false)) {
      SplitThenJoin(path);
      var tail := JoinSlashed(parts, 3);
      assert parts[1..4] == [ns, trigger, source];
      assert Reads(path, parts[0], [ns, trigger, source], tail);
    }
    if exists first, tail :: Reads(path, first, [ns, trigger, source], tail) {
      var first, tail :| Reads(path, first, [ns, trigger, source], tail);
      SplitSlashed(first, [ns, trigger, source], tail);
      var names := [ns, trigger, source];
      assert names[0] in names && names[1] in names && names[2] in names;
      assert parts[1] == parts[..4][1] == names[0] && parts[2] == parts[..4][2] == names[1];
      assert parts[3] == parts[..4][3] == names[2];
    }
  }

  /** Exactly the keys that an extractor can produce come back from their displayed form. */
  lemma TriggerKeyRoundTrip(k: Key, uuid: string)
    ensures Extract(Trigger, "/" + Display(k), uuid) == Ok(k) <==> IsTriggerKey(k)
  {
    if IsTriggerKey(k) {
      SplitTriggerKey(k);
    } else {
      ExtractorsAgree("/" + Display(k), uuid);
    }
  }

  lemma SplitTriggerKey(k: Key)
    requires Named(k.ns) && Named(k.trigger) && (k.source.None? || k.stripSource)
    ensures Split("/" + Display(k)) == ["", k.ns.value, k.trigger.value, ""]
  {
    var path := "/" + Display(k);
    var tail := k.trigger.value + "/" + "";
    assert path == "" + "/" + (k.ns.value + "/" + tail);
    SplitPrefix("", k.ns.value + "/" + tail);
    SplitPrefix(k.ns.value, tail);
    SplitPrefix(k.trigger.value, "");
  }

  lemma SourceKeyRoundTrip(k: Key, uuid: string)
    ensures Extract(Source, "/" + Display(k), uuid) == Ok(k) <==> IsExplicitSourceKey(k) || IsStrippedKey(k, uuid)
  {
    if IsExplicitSourceKey(k) {
      SplitSourceKey(k);
    } else if IsStrippedKey(k, uuid) {
      SplitTriggerKey(k);
    } else {
      ExtractorsAgree("/" + Display(k), uuid);
    }
  }

  lemma SplitSourceKey(k: Key)
    requires IsExplicitSourceKey(k)
    ensures Split("/" + Display(k)) == ["", k.ns.value, k.trigger.value, k.source.value]
  {
    var path := "/" + Display(k);
    var tail := k.trigger.value + "/" + k.source.value;
    assert path == "" + "/" + (k.ns.value + "/" + tail);
    SplitPrefix("", k.ns.value + "/" + tail);
    SplitPrefix(k.ns.value, tail);
    SplitPrefix(k.trigger.value, k.source.value);
    SplitWhole(k.source.value);
  }

  /** Different keys are displayed differently, also a trigger key and a source key. */
  lemma DisplayIsInjective(k1: Key, k2: Key)
    requires IsTriggerKey(k1) || IsExplicitSourceKey(k1)
    requires IsTriggerKey(k2) || IsExplicitSourceKey(k2)
    ensures Display(k1) == Display(k2) <==> k1 == k2
  {
    if Display(k1) == Display(k2) {
      forall k | k in {k1, k2}
        ensures Split("/" + Display(k)) == ["", k.ns.value, k.trigger.value, if k.source.Some? then k.source.value else ""]
      {
        if IsTriggerKey(k) {
          SplitTriggerKey(k);
        } else {
          SplitSourceKey(k);
        }
      }
    }
  }
}
