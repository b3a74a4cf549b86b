/** Any number of callers of the secret cache, over an API that changes underneath
    (src/cache.rs:353-398): bounded staleness and monotone reads. */
module SecretsCacheRuns {
  import opened Wrappers
  import opened SecretsCache

  datatype Id = Id(ns: string, name: string)

  /** The secrets of the cluster at one time. */
  type Cluster = map<Id, Option<Data>>

  /** A version of the cluster, with the time at which it became current. */
  datatype Version = Version(cluster: Cluster, since: nat)

  datatype Request = Request(id: Id, key: string)

  /** `Asking`: about to take the read lock; `Missed`: waits for the write lock; `Writing`: holds it
      and has not asked the API yet; `Fetched`: holds it, with the reply read at API version `at` at the time `readAt`. */
  datatype Pc = Asking | Missed | Writing | Fetched(reply: Reply, at: nat, readAt: nat)

  datatype Caller = Caller(request: Request, pc: Pc)

  /** A finished call, in the order of the critical sections: at which API version the answer was
      read, and when it was read, stored and given. */
  datatype Answer = Answer(request: Request, result: Result, at: nat, readAt: nat, storedAt: nat, givenAt: nat,
                           fromCache: bool)

  /** History: where the entry of a secret comes from. */
  datatype Origin = Origin(at: nat, readAt: nat, storedAt: nat)

  datatype State = State(
    now: nat,
    api: seq<Version>,       // every version of the cluster so far
    cache: map<string, Entry>,
    callers: map<nat, Caller>,
    writer: Option<nat>,     // the holder of the write lock
    origins: map<Id, Origin>,
    answers: seq<Answer>)

  datatype Label =
    | Tick(now: nat)
    | ApiChange(cluster: Cluster)
    | Call(caller: nat, request: Request)
    | ReadSection(caller: nat)
    | TakeWriteLock(caller: nat)
    | AskApi(caller: nat, fails: bool)
    | WriteSection(caller: nat)

  datatype Params = Params(timeout: nat, decode: Bytes -> Option<string>)

  function Init(now: nat, cluster: Cluster): State {
    State(now, [Version(cluster, now)], map[], map[], None, map[], [])
  }

  predicate PcIs(s: State, caller: nat, pc: Pc) {
    caller in s.callers && s.callers[caller].pc == pc
  }

  predicate Enabled(s: State, l: Label) {
    s.api != [] &&
    match l
    case Tick(now) => now >= s.now
    case ApiChange(_) => true
    case Call(c, request) => c !in s.callers && '/' !in request.id.ns
    case ReadSection(c) => PcIs(s, c, Asking) && s.writer.None?
    case TakeWriteLock(c) => PcIs(s, c, Missed) && s.writer.None?
    case AskApi(c, _) => PcIs(s, c, Writing)
    case WriteSection(c) => c in s.callers && s.callers[c].pc.Fetched?
  }

  function HashKey(id: Id): string {
    JoinKey(id.ns, id.name)
  }

  function ReplyOf(cluster: Cluster, id: Id): Reply {
    if id in cluster then Secret(cluster[id]) else Failure
  }

  function OriginOf(s: State, id: Id): Origin {
    Lookup(s.origins, id).GetOr(Origin(0, 0, 0))
  }

  function Next(s: State, l: Label, p: Params): State
    requires Enabled(s, l)
  {
    match l
    case Tick(now) => s.(now := now)
    case ApiChange(cluster) => s.(api := s.api + [Version(cluster, s.now)])
    case Call(c, request) => s.(callers := s.callers[c := Caller(request, Asking)])
    case ReadSection(c) =>
      var r := s.callers[c].request;
      (match FromCache(s.cache, HashKey(r.id), r.key, s.now, p.decode)
       case Some(result) =>
         var origin := OriginOf(s, r.id);
         s.(callers := s.callers - {c},
            answers := s.answers + [Answer(r, result, origin.at, origin.readAt, origin.storedAt, s.now, true)])
       case None => s.(callers := s.callers[c := Caller(r, Missed)]))
    case TakeWriteLock(c) =>
      s.(writer := Some(c), callers := s.callers[c := s.callers[c].(pc := Writing)])
    case AskApi(c, fails) =>
      var r := s.callers[c].request;
      var reply := if fails then Failure else ReplyOf(Last(s.api).cluster, r.id);
      s.(callers := s.callers[c := Caller(r, Fetched(reply, |s.api| - 1, s.now))])
    case WriteSection(c) =>
      var r := s.callers[c].request;
      var pc := s.callers[c].pc;
      var result := FromReply(pc.reply, r.key, p.decode);
      State(s.now, s.api,
            Stored(s.cache, HashKey(r.id), r.key, pc.reply, s.now, p.timeout, p.decode),
            s.callers - {c}, None,
            if result.Ok? then s.origins[r.id := Origin(pc.at, pc.readAt, s.now)] else s.origins,
            s.answers + [Answer(r, result, pc.at, pc.readAt, s.now, s.now, false)])
  }

  function Run(start: State, labels: seq<Label>, p: Params): Option<State> {
    if labels == [] then Some(start) else
      match Run(start, labels[..|labels| - 1], p)
      case None => None
      case Some(s) => if Enabled(s, Last(labels)) then Some(Next(s, Last(labels), p)) else None
  }

  // ---------------------------------------------------------------------------
  // Where entries and answers come from
  // ---------------------------------------------------------------------------

  /** `data` is the data of the secret at version `at`. */
  ghost predicate DataAt(api: seq<Version>, at: nat, id: Id, data: Data) {
    at < |api| && id in api[at].cluster && api[at].cluster[id] == Some(data)
  }

  /** The version `at` was the current one at this time. */
  ghost predicate CurrentAt(api: seq<Version>, at: nat, time: nat) {
    at < |api| && api[at].since <= time && (at + 1 < |api| ==> time <= api[at + 1].since)
  }

  /** An entry is the data of its secret at an earlier version of the API, fetched before it was stored. */
  ghost predicate EntryOk(api: seq<Version>, now: nat, entry: Entry, id: Id, origin: Origin, p: Params) {
    && DataAt(api, origin.at, id, entry.data) && CurrentAt(api, origin.at, origin.readAt)
    && origin.readAt <= origin.storedAt <= now && entry.expiresAt == origin.storedAt + p.timeout
  }

  ghost predicate CallerOk(s: State, c: nat)
    requires c in s.callers
  {
    var caller := s.callers[c];
    && '/' !in caller.request.id.ns
    && (caller.pc.Writing? || caller.pc.Fetched? <==> s.writer == Some(c))
    && (caller.pc.Fetched? ==>
          && CurrentAt(s.api, caller.pc.at, caller.pc.readAt) && caller.pc.readAt <= s.now
          && caller.pc.reply in {Failure, ReplyOf(s.api[caller.pc.at].cluster, caller.request.id)}
          && OriginOf(s, caller.request.id).at <= caller.pc.at)
  }

  /** What an answer promises: the value of exactly this key of exactly this secret at an API version
      of the past, and fresh enough if it was served from the cache. */
  ghost predicate AnswerOk(api: seq<Version>, now: nat, a: Answer, p: Params) {
    && CurrentAt(api, a.at, a.readAt) && a.readAt <= a.storedAt <= a.givenAt <= now
    && (a.result.Ok? || a.fromCache ==>
          exists data :: DataAt(api, a.at, a.request.id, data)
                         && a.request.key in data && a.result == Decoded(p.decode, data[a.request.key]))
    && (if a.fromCache then a.givenAt < a.storedAt + p.timeout else a.givenAt == a.storedAt)
  }

  ghost predicate Callers(s: State) {
    && (forall c <- s.callers :: CallerOk(s, c))
    && (s.writer.Some? ==> s.writer.value in s.callers)
    && (forall id <- s.origins :: s.origins[id].at < |s.api|)
    && (s.api != [] ==> Last(s.api).since <= s.now)
  }

  ghost predicate OfSecret(key: string, origins: map<Id, Origin>) {
    exists id <- origins :: HashKey(id) == key
  }

  /** Every entry belongs to a secret, and every fetched secret has its entry. */
  ghost predicate Entries(cache: map<string, Entry>, origins: map<Id, Origin>, api: seq<Version>, now: nat, p: Params) {
    && (forall id <- origins :: '/' !in id.ns && HashKey(id) in cache)
    && (forall id <- origins :: EntryOk(api, now, cache[HashKey(id)], id, origins[id], p))
    && (forall k <- cache :: OfSecret(k, origins))
  }

  ghost predicate Answers(s: State, p: Params) {
    forall a <- s.answers :: AnswerOk(s.api, s.now, a, p)
  }

  ghost predicate Inv(s: State, p: Params) {
    && s.api != []
    && Callers(s)
    && Entries(s.cache, s.origins, s.api, s.now, p)
    && Answers(s, p)
  }

  lemma CallersStep(s: State, l: Label, p: Params)
    requires Callers(s) && Enabled(s, l)
    ensures Callers(Next(s, l, p))
  {
  }

  lemma OlderStaysOk(api: seq<Version>, api': seq<Version>, now: nat, now': nat, p: Params)
    requires api <= api' && now <= now' && forall i :: |api| <= i < |api'| ==> now <= api'[i].since
    ensures forall entry, id, origin :: EntryOk(api, now, entry, id, origin, p) ==> EntryOk(api', now', entry, id, origin, p)
    ensures forall a :: AnswerOk(api, now, a, p) ==> AnswerOk(api', now', a, p)
  {
  }

  /** The string key of a secret leads to the entry of this secret. */
  lemma EntryOfSecret(cache: map<string, Entry>, origins: map<Id, Origin>, api: seq<Version>, now: nat, p: Params, id: Id)
    requires Entries(cache, origins, api, now, p) && '/' !in id.ns && HashKey(id) in cache
    ensures id in origins && EntryOk(api, now, cache[HashKey(id)], id, origins[id], p)
  {
    assert OfSecret(HashKey(id), origins);
    var other :| other in origins && HashKey(other) == HashKey(id);
    JoinKeyIdentifies(other.ns, other.name, id.ns, id.name);
  }

  /** A new entry replaces the entry of its secret and leaves the others alone. */
  lemma EntriesInsert(cache: map<string, Entry>, origins: map<Id, Origin>, api: seq<Version>, now: nat, p: Params,
                      id: Id, entry: Entry, origin: Origin)
    requires Entries(cache, origins, api, now, p) && '/' !in id.ns && EntryOk(api, now, entry, id, origin, p)
    ensures Entries(cache[HashKey(id) := entry], origins[id := origin], api, now, p)
  {
    var cache', origins' := cache[HashKey(id) := entry], origins[id := origin];
    forall other | other in origins'
      ensures '/' !in other.ns && HashKey(other) in cache'
      ensures EntryOk(api, now, cache'[HashKey(other)], other, origins'[other], p)
    {
      JoinKeyIdentifies(other.ns, other.name, id.ns, id.name);
    }
    forall k | k in cache' ensures OfSecret(k, origins') {
      if k in cache {
        assert OfSecret(k, origins);
        var other :| other in origins && HashKey(other) == k;
        assert other in origins';
      } else {
        assert id in origins';
      }
    }
  }

  lemma CacheAnswerOk(s: State, r: Request, p: Params)
    requires Inv(s, p) && '/' !in r.id.ns
    requires FromCache(s.cache, HashKey(r.id), r.key, s.now, p.decode).Some?
    ensures r.id in s.origins
    ensures var result := FromCache(s.cache, HashKey(r.id), r.key, s.now, p.decode).value;
      var origin := s.origins[r.id];
      AnswerOk(s.api, s.now, Answer(r, result, origin.at, origin.readAt, origin.storedAt, s.now, true), p)
  {
    EntryOfSecret(s.cache, s.origins, s.api, s.now, p, r.id);
    assert DataAt(s.api, s.origins[r.id].at, r.id, s.cache[HashKey(r.id)].data);
  }

  lemma ReadStep(s: State, c: nat, p: Params)
    requires Inv(s, p) && Enabled(s, ReadSection(c))
    ensures Inv(Next(s, ReadSection(c), p), p)
  {
    CallersStep(s, ReadSection(c), p);
    var r := s.callers[c].request;
    assert CallerOk(s, c);
    if FromCache(s.cache, HashKey(r.id), r.key, s.now, p.decode).Some? {
      CacheAnswerOk(s, r, p);
    }
  }

  lemma ApiAnswerOk(s: State, c: nat, p: Params)
    requires Inv(s, p) && Enabled(s, WriteSection(c))
    ensures var r, pc := s.callers[c].request, s.callers[c].pc;
      var result := FromReply(pc.reply, r.key, p.decode);
      && AnswerOk(s.api, s.now, Answer(r, result, pc.at, pc.readAt, s.now, s.now, false), p)
      && (result.Ok? ==> DataAt(s.api, pc.at, r.id, pc.reply.data.value))
  {
  }

  /** What is stored is the data of the secret at the version that was read. */
  lemma StoredData(s: State, c: nat, p: Params)
    requires Callers(s) && Enabled(s, WriteSection(c))
    ensures var r, pc := s.callers[c].request, s.callers[c].pc;
      && '/' !in r.id.ns
      && (FromReply(pc.reply, r.key, p.decode).Ok? ==>
            EntryOk(s.api, s.now, Entry(pc.reply.data.value, s.now + p.timeout), r.id, Origin(pc.at, pc.readAt, s.now), p))
  {
    assert CallerOk(s, c);
  }

  lemma EntriesStored(cache: map<string, Entry>, origins: map<Id, Origin>, api: seq<Version>, now: nat, p: Params,
                      r: Request, reply: Reply, origin: Origin)
    requires Entries(cache, origins, api, now, p) && '/' !in r.id.ns
    requires FromReply(reply, r.key, p.decode).Ok? ==>
      EntryOk(api, now, Entry(reply.data.value, now + p.timeout), r.id, origin, p)
    ensures Entries(Stored(cache, HashKey(r.id), r.key, reply, now, p.timeout, p.decode),
                    if FromReply(reply, r.key, p.decode).Ok? then origins[r.id := origin] else origins, api, now, p)
  {
    if FromReply(reply, r.key, p.decode).Ok? {
      EntriesInsert(cache, origins, api, now, p, r.id, Entry(reply.data.value, now + p.timeout), origin);
    }
  }

  lemma WriteStep(s: State, c: nat, p: Params)
    requires Inv(s, p) && Enabled(s, WriteSection(c))
    ensures Inv(Next(s, WriteSection(c), p), p)
  {
    CallersStep(s, WriteSection(c), p);
    StoredData(s, c, p);
    var pc := s.callers[c].pc;
    EntriesStored(s.cache, s.origins, s.api, s.now, p, s.callers[c].request, pc.reply, Origin(pc.at, pc.readAt, s.now));
    ApiAnswerOk(s, c, p);
  }

  lemma OtherStep(s: State, l: Label, p: Params)
    requires Inv(s, p) && Enabled(s, l) && !l.ReadSection? && !l.WriteSection?
    ensures Inv(Next(s, l, p), p)
  {
    CallersStep(s, l, p);
    var s' := Next(s, l, p);
    OlderStaysOk(s.api, s'.api, s.now, s'.now, p);
    assert s'.cache == s.cache && s'.origins == s.origins && s'.answers == s.answers;
  }

  lemma {:induction false} AlwaysInv(now: nat, cluster: Cluster, labels: seq<Label>, p: Params)
    requires Run(Init(now, cluster), labels, p).Some?
    ensures Inv(Run(Init(now, cluster), labels, p).value, p)
  {
    if labels != [] {
      var before := labels[..|labels| - 1];
      AlwaysInv(now, cluster, before, p);
      var s := Run(Init(now, cluster), before, p).value;
      match Last(labels)
      case ReadSection(c) => ReadStep(s, c, p);
      case WriteSection(c) => WriteStep(s, c, p);
      case l => OtherStep(s, l, p);
    }
  }

  /** Every value given out is the decoded value of exactly the requested key of exactly the requested
      secret, at a version of the API that was current when it was read. A fetched answer is given out when
      it is stored; a cached one later, but its age is less than the timeout plus the time that this fetch
      has taken from the read to the store. */
  lemma BoundedStaleness(now: nat, cluster: Cluster, labels: seq<Label>, p: Params, s: State, i: nat)
    requires Run(Init(now, cluster), labels, p) == Some(s) && i < |s.answers|
    ensures var a := s.answers[i];
      && CurrentAt(s.api, a.at, a.readAt)
      && (a.result.Ok? ==>
            exists data :: DataAt(s.api, a.at, a.request.id, data)
                           && a.request.key in data && p.decode(data[a.request.key]) == Some(a.result.value))
      && var (age, fetch) := (a.givenAt - a.readAt, a.storedAt - a.readAt);
         0 <= fetch <= age && if a.fromCache then age < p.timeout + fetch else age == fetch
  {
    AlwaysInv(now, cluster, labels, p);
    var a := s.answers[i];
    assert AnswerOk(s.api, s.now, a, p);
    if a.result.Ok? {
      var data :| DataAt(s.api, a.at, a.request.id, data)
                  && a.request.key in data && a.result == Decoded(p.decode, data[a.request.key]);
    }
  }

  // ---------------------------------------------------------------------------
  // Monotone reads
  // ---------------------------------------------------------------------------

  /** The answer comes from the cache, or from a reply that was stored there. */
  predicate Usable(a: Answer) {
    a.fromCache || a.result.Ok?
  }

  /** An answer never goes back behind an earlier one about the same secret if that one is usable, or if
      it was fetched itself. */
  ghost predicate Ordered(answers: seq<Answer>) {
    forall i, j ::
      (0 <= i < j < |answers| && answers[i].request.id == answers[j].request.id
       && (Usable(answers[i]) || !answers[j].fromCache))
      ==> answers[i].at <= answers[j].at
  }

  ghost predicate NotAhead(answers: seq<Answer>, origins: map<Id, Origin>) {
    forall i :: 0 <= i < |answers| && Usable(answers[i]) ==>
      answers[i].request.id in origins && answers[i].at <= origins[answers[i].request.id].at
  }

  /** Under the write lock, no answer so far has seen a newer version than the one fetched. */
  ghost predicate Newest(s: State) {
    forall c <- s.callers :: s.callers[c].pc.Fetched? ==> forall a <- s.answers :: a.at <= s.callers[c].pc.at
  }

  predicate Stores(a: Answer, id: Id) {
    a.request.id == id && !a.fromCache && a.result.Ok?
  }

  /** The last call that has stored a reply about the secret. */
  function LastStored(answers: seq<Answer>, id: Id): (k: Option<nat>)
    ensures k.Some? ==> k.value < |answers| && Stores(answers[k.value], id)
    ensures k.None? ==> forall a <- answers :: !Stores(a, id)
    ensures k.Some? ==> forall i :: k.value < i < |answers| ==> !Stores(answers[i], id)
  {
    if answers == [] then None
    else if Stores(Last(answers), id) then Some(|answers| - 1)
    else LastStored(answers[..|answers| - 1], id)
  }

  ghost predicate ServedFrom(answers: seq<Answer>, j: nat)
    requires j < |answers|
  {
    var k := LastStored(answers[..j], answers[j].request.id);
    && k.Some? && answers[k.value].at == answers[j].at
    && answers[k.value].readAt == answers[j].readAt && answers[k.value].storedAt == answers[j].storedAt
  }

  /** The entry of a secret, and each answer from the cache, is the reply that was stored last. */
  ghost predicate Serving(answers: seq<Answer>, origins: map<Id, Origin>) {
    && (forall id ::
          match LastStored(answers, id)
          case None => id !in origins
          case Some(k) => Lookup(origins, id) == Some(Origin(answers[k].at, answers[k].readAt, answers[k].storedAt)))
    && (forall j :: 0 <= j < |answers| && answers[j].fromCache ==> ServedFrom(answers, j))
  }

  ghost predicate Reads(s: State) {
    Ordered(s.answers) && NotAhead(s.answers, s.origins) && Newest(s) && Serving(s.answers, s.origins)
  }

  lemma OriginsGrow(s: State, l: Label, p: Params)
    requires Callers(s) && Enabled(s, l)
    ensures forall id <- s.origins :: id in Next(s, l, p).origins && s.origins[id].at <= Next(s, l, p).origins[id].at
  {
  }

  lemma NewestStep(s: State, l: Label, p: Params)
    requires Callers(s) && Enabled(s, l) && Newest(s) && forall a <- s.answers :: a.at < |s.api|
    ensures Newest(Next(s, l, p))
  {
  }

  /** A usable new answer is or becomes the entry of its secret, and a fetched one is ahead of all others. */
  ghost predicate NewAnswer(s: State, a: Answer, origins: map<Id, Origin>) {
    && (a.fromCache ==> origins == s.origins)
    && (!a.fromCache ==>
          origins == if a.result.Ok? then s.origins[a.request.id := Origin(a.at, a.readAt, a.storedAt)] else s.origins)
    && (Usable(a) ==> Lookup(origins, a.request.id) == Some(Origin(a.at, a.readAt, a.storedAt)))
    && (!a.fromCache ==> forall b <- s.answers :: b.at <= a.at)
  }

  lemma NewAnswerOf(s: State, l: Label, p: Params)
    requires Inv(s, p) && Enabled(s, l) && Newest(s)
    ensures var s' := Next(s, l, p);
      || (s'.answers == s.answers && s'.origins == s.origins)
      || (s'.answers != [] && s'.answers == s.answers + [Last(s'.answers)] && NewAnswer(s, Last(s'.answers), s'.origins))
  {
    if l.ReadSection? {
      var r := s.callers[l.caller].request;
      assert CallerOk(s, l.caller);
      if FromCache(s.cache, HashKey(r.id), r.key, s.now, p.decode).Some? {
        CacheAnswerOk(s, r, p);
      }
    }
  }

  lemma OrderedAppend(s: State, a: Answer, origins: map<Id, Origin>)
    requires Ordered(s.answers) && NotAhead(s.answers, s.origins) && NewAnswer(s, a, origins)
    requires forall id <- s.origins :: id in origins && s.origins[id].at <= origins[id].at
    ensures Ordered(s.answers + [a]) && NotAhead(s.answers + [a], origins)
  {
  }

  lemma LastStoredAppend(answers: seq<Answer>, a: Answer, id: Id)
    ensures LastStored(answers + [a], id) == if Stores(a, id) then Some(|answers|) else LastStored(answers, id)
  {
    assert (answers + [a])[..|answers|] == answers;
  }

  lemma ServedFromAppend(answers: seq<Answer>, a: Answer, j: nat)
    requires j < |answers| && ServedFrom(answers, j)
    ensures ServedFrom(answers + [a], j)
  {
    assert (answers + [a])[..j] == answers[..j];
  }

  lemma ServingAppend(s: State, a: Answer, origins: map<Id, Origin>)
    requires Serving(s.answers, s.origins) && NewAnswer(s, a, origins)
    ensures Serving(s.answers + [a], origins)
  {
    var longer := s.answers + [a];
    forall id ensures LastStored(longer, id) == if Stores(a, id) then Some(|s.answers|) else LastStored(s.answers, id) {
      LastStoredAppend(s.answers, a, id);
    }
    forall j | 0 <= j < |longer| && longer[j].fromCache ensures ServedFrom(longer, j) {
      if j < |s.answers| {
        ServedFromAppend(s.answers, a, j);
      } else {
        assert longer[..j] == s.answers;
      }
    }
  }

  lemma {:induction false} AlwaysReads(now: nat, cluster: Cluster, labels: seq<Label>, p: Params)
    requires Run(Init(now, cluster), labels, p).Some?
    ensures Reads(Run(Init(now, cluster), labels, p).value)
  {
    if labels != [] {
      var before := labels[..|labels| - 1];
      AlwaysReads(now, cluster, before, p);
      AlwaysInv(now, cluster, before, p);
      var s, l := Run(Init(now, cluster), before, p).value, Last(labels);
      var s' := Next(s, l, p);
      OriginsGrow(s, l, p);
      assert forall a <- s.answers :: AnswerOk(s.api, s.now, a, p);
      NewestStep(s, l, p);
      NewAnswerOf(s, l, p);
      if s'.answers != s.answers {
        OrderedAppend(s, Last(s'.answers), s'.origins);
        ServingAppend(s, Last(s'.answers), s'.origins);
      }
    }
  }

  /** For any interleaving of callers and changes of the API, the later of two answers about one secret is
      older only if the earlier one is a failed fetch and the later one comes from the cache; and that pair
      goes back exactly when nothing was stored for the secret in between, and the reply that is served was
      read before the failed fetch. */
  lemma MonotoneReads(now: nat, cluster: Cluster, labels: seq<Label>, p: Params, s: State, i: nat, j: nat)
    requires Run(Init(now, cluster), labels, p) == Some(s)
    requires i < j < |s.answers| && s.answers[i].request.id == s.answers[j].request.id
    ensures Usable(s.answers[i]) || !s.answers[j].fromCache ==> s.answers[i].at <= s.answers[j].at
    ensures !Usable(s.answers[i]) && s.answers[j].fromCache ==>
      var k := LastStored(s.answers[..j], s.answers[j].request.id);
      k.Some? && (s.answers[j].at < s.answers[i].at <==> k.value < i && s.answers[k.value].at < s.answers[i].at)
  {
    AlwaysReads(now, cluster, labels, p);
    if s.answers[j].fromCache {
      ServedByStored(s, j);
    }
  }

  lemma ServedByStored(s: State, j: nat)
    requires Reads(s) && j < |s.answers| && s.answers[j].fromCache
    ensures var k := LastStored(s.answers[..j], s.answers[j].request.id);
      && k.Some? && k.value < j && Stores(s.answers[k.value], s.answers[j].request.id)
      && s.answers[k.value].at == s.answers[j].at
  {
    assert ServedFrom(s.answers, j);
  }

  /** A call of a caller that does not find its answer in the cache, without interruption. */
  lemma FetchedBy(start: State, labels: seq<Label>, s: State, p: Params, c: nat, r: Request)
    returns (longer: seq<Label>, s': State)
    requires Run(start, labels, p) == Some(s) && s.api != []
    requires s.callers == map[] && s.writer == None && '/' !in r.id.ns
    requires FromCache(s.cache, HashKey(r.id), r.key, s.now, p.decode) == None
    ensures Run(start, longer, p) == Some(s')
    ensures var reply := ReplyOf(Last(s.api).cluster, r.id);
      var result := FromReply(reply, r.key, p.decode);
      var at := |s.api| - 1;
      s' == s.(cache := Stored(s.cache, HashKey(r.id), r.key, reply, s.now, p.timeout, p.decode),
               origins := if result.Ok? then s.origins[r.id := Origin(at, s.now, s.now)] else s.origins,
               answers := s.answers + [Answer(r, result, at, s.now, s.now, s.now, false)])
  {
    longer, s' := MissedBy(start, labels, s, p, c, r);
    longer, s' := Extend(start, longer, s', p, AskApi(c, false));
    longer, s' := WrittenBy(start, longer, s', p, c, r, ReplyOf(Last(s.api).cluster, r.id), |s.api| - 1, s.now);
  }

  lemma WrittenBy(start: State, labels: seq<Label>, s: State, p: Params, c: nat, r: Request, reply: Reply, at: nat, readAt: nat)
    returns (longer: seq<Label>, s': State)
    requires Run(start, labels, p) == Some(s) && s.api != []
    requires s.callers == map[c := Caller(r, Fetched(reply, at, readAt))]
    ensures Run(start, longer, p) == Some(s')
    ensures var result := FromReply(reply, r.key, p.decode);
      s' == s.(cache := Stored(s.cache, HashKey(r.id), r.key, reply, s.now, p.timeout, p.decode),
               origins := if result.Ok? then s.origins[r.id := Origin(at, readAt, s.now)] else s.origins,
               callers := map[], writer := None,
               answers := s.answers + [Answer(r, result, at, readAt, s.now, s.now, false)])
  {
    longer, s' := Extend(start, labels, s, p, WriteSection(c));
    assert s'.callers == map[];
  }

  lemma MissedBy(start: State, labels: seq<Label>, s: State, p: Params, c: nat, r: Request)
    returns (longer: seq<Label>, s': State)
    requires Run(start, labels, p) == Some(s) && s.api != []
    requires s.callers == map[] && s.writer == None && '/' !in r.id.ns
    requires FromCache(s.cache, HashKey(r.id), r.key, s.now, p.decode) == None
    ensures Run(start, longer, p) == Some(s')
    ensures s' == s.(writer := Some(c), callers := map[c := Caller(r, Writing)])
  {
    longer, s' := Extend(start, labels, s, p, Call(c, r));
    longer, s' := Extend(start, longer, s', p, ReadSection(c));
    assert s' == s.(callers := map[c := Caller(r, Missed)]);
    longer, s' := Extend(start, longer, s', p, TakeWriteLock(c));
  }

  lemma Extend(start: State, labels: seq<Label>, s: State, p: Params, l: Label) returns (longer: seq<Label>, s': State)
    requires Run(start, labels, p) == Some(s) && Enabled(s, l)
    ensures s' == Next(s, l, p) && Run(start, longer, p) == Some(s')
  {
    longer, s' := labels + [l], Next(s, l, p);
    assert longer[..|longer| - 1] == labels;
  }

  /** That pair exists: a call that finds its key missing at a newer version of the secret stores nothing,
      and the older version is still served afterwards. */
  lemma FailedFetchIsForgotten(id: Id, k1: string, k2: string, v: Bytes, p: Params)
    returns (labels: seq<Label>, s: State)
    requires '/' !in id.ns && k1 != k2 && p.timeout > 0 && p.decode(v).Some?
    ensures Run(Init(0, map[id := Some(map[k1 := v])]), labels, p) == Some(s)
    ensures |s.answers| == 3 && forall i :: 0 <= i < 3 ==> s.answers[i].request.id == id
    ensures s.answers[1].result == Err(NoKey) && s.answers[1].at == 1
    ensures s.answers[2].result.Ok? && s.answers[2].at == 0
  {
    var start := Init(0, map[id := Some(map[k1 := v])]);
    labels, s := FetchedBy(start, [], start, p, 0, Request(id, k1));
    labels, s := Extend(start, labels, s, p, ApiChange(map[id := Some(map[])]));
    labels, s := FetchedBy(start, labels, s, p, 1, Request(id, k2));
    assert s.answers[1].result == Err(NoKey);
    labels, s := Extend(start, labels, s, p, Call(2, Request(id, k1)));
    labels, s := Extend(start, labels, s, p, ReadSection(2));
  }
}
