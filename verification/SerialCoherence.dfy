/**
 Serial runs: one service call with its commit per step, every delete reaching Redis. Then what is cached
 under a ticket's keys is always what loading from the current database would cache.
 */
module SerialCoherence {
  import opened Common
  import opened CacheKeys
  import opened Domain
  import opened CacheModel
  import opened CacheStore
  import opened TicketQueryService
  import opened ApiWriters
  import opened Provider
  import opened EmbeddingService
  import opened AiWorkflowService
  import opened WorkflowTheorems
  import RunOutcomes

  datatype World = World(db: Db, cache: Cache, clock: Time, now: Time)

  function Look(w: World): View { View(w.db, w.now) }

  datatype Step =
    | Read(q: Request, access: Access, answer: Answer)
    | Create(id: Uuid, source: string, subject: string, body: string)
    | StoreEmbedding(id: Uuid, vector: StoredVector, model: string, dimension: Dimension, textHash: string)
    | StoreRouting(id: Uuid, routeTo: string, kind: DecisionType, decidedBy: DecidedBy,
                   confidence: Option<Confidence>, reason: Option<string>)
    | Work(env: Env, feed: Feed, id: Uuid, rows: seq<SimilarRow>)
    | Tick
    | Evict(keys: set<CacheKey>)
    | Garble(key: CacheKey)

  /** What a writing step makes of the database, and the keys it deletes. */
  function Written(s: Step, db: Db, now: Time): Db {
    match s
    case Create(id, source, subject, body) => CreatedDb(db, now, id, source, subject, body)
    case StoreEmbedding(id, vector, model, dimension, textHash) =>
      if id in db.tickets then StoredEmbeddingDb(db, now, id, vector, model, dimension, textHash) else db
    case StoreRouting(id, routeTo, kind, decidedBy, confidence, reason) =>
      if id in db.tickets then StoredRoutingDb(db, now, id, routeTo, kind, decidedBy, confidence, reason) else db
    case Work(env, feed, id, rows) => Pipeline(env, feed, now, db, id, rows).db
    case _ => db
  }

  function Deleted(s: Step, db: Db, now: Time): set<CacheKey> {
    match s
    case Create(id, _, _, _) => CreatedKeys(id)
    case StoreEmbedding(id, _, _, _, _) => if id in db.tickets then StoredEmbeddingKeys(id) else {}
    case StoreRouting(id, _, _, _, _, _) => if id in db.tickets then StoredRoutingKeys(id) else {}
    case Work(env, feed, id, rows) => DeletedBy(Pipeline(env, feed, now, db, id, rows).ending, id)
    case Evict(keys) => keys
    case _ => {}
  }

  /** A new ticket gets a fresh id, and a worker's matches answer its search. */
  ghost predicate Enabled(c: ReadConfig, s: Step, w: World) {
    match s
    case Create(id, _, _, _) => id !in w.db.tickets
    case Work(env, feed, id, rows) => Matches(env, feed, c.distance, w.now, w.db, id, rows)
    case _ => true
  }

  /** Time may pass in any step, in the transactions as in Redis. */
  ghost predicate Next(c: ReadConfig, s: Step, a: World, b: World) {
    && Enabled(c, s, a) && a.clock <= b.clock && a.now <= b.now
    && b.db == Written(s, a.db, a.now)
    && match s
       case Read(q, access, answer) => ReadStep(c, Look(a), a.cache, a.clock, q, access, answer, b.cache)
       case Garble(key) => b.cache.Keys == a.cache.Keys + {key} && b.cache[key].raw == Garbage
                        && forall k :: k in a.cache && k != key ==> b.cache[k] == a.cache[k]
       case _ => Removed(a.cache, b.cache, Deleted(s, a.db, a.now), true)
  }

  // ---- the invariant ---------------------------------------------------------------------------

  /** An entry either does not decode, or holds what loading from this view may cache. */
  ghost predicate Honest(c: ReadConfig, v: View, q: Request, raw: Raw) {
    Decode(q, raw).Some? ==> Loads(c.settings.eventsMaxItems, c.distance, v, q, Decode(q, raw).value)
  }

  /** Expired entries are held to it too. */
  ghost predicate Coherent(c: ReadConfig, v: View, cache: Cache) {
    forall q :: TicketRead(q) && TicketKey(q) in cache ==> Honest(c, v, q, cache[TicketKey(q)].raw)
  }

  ghost predicate Good(c: ReadConfig, w: World) {
    Coherent(c, Look(w), w.cache) && w.db.OneActiveEach() && w.db.OnePendingEach() && Numbered(w.db)
  }

  /** Deleting the spoiled keys keeps a cache coherent over a change. */
  lemma WriteKeepsCoherent(c: ReadConfig, a: View, b: View, before: Cache, after: Cache, keys: set<CacheKey>)
    requires Coherent(c, a, before) && Covers(a.db, b.db, keys) && Removed(before, after, keys, true)
    ensures Coherent(c, b, after)
  {}

  lemma SameDbKeepsCoherent(c: ReadConfig, a: View, b: View, before: Cache, after: Cache)
    requires Coherent(c, a, before) && a.db == b.db
    requires after.Keys <= before.Keys && forall k :: k in after ==> after[k] == before[k]
    ensures Coherent(c, b, after)
  {}

  /** The read would build a summary longer than a cached value may hold. */
  predicate Overflows(c: ReadConfig, v: View, q: Request, access: Access) {
    && q.ReadEvents? && q.id in v.db.tickets && !access.NoStore?
    && SummaryTooLong(c.settings.eventsMaxItems, |v.db.EventsOf(q.id)|)
  }

  /** What a read answers over a coherent cache: an error exactly when it overflows, else as without the cache. */
  ghost predicate Answers(c: ReadConfig, v: View, q: Request, access: Access, a: Answer) {
    if Overflows(c, v, q, access) then a == InvalidSummary
    else Refines(c.settings.eventsMaxItems, c.distance, v, q, a)
  }

  /** With room for at most 50 items, and not a negative number of them, no read ever fails. */
  lemma ShortSummariesRefine(c: ReadConfig, v: View, q: Request, access: Access, a: Answer)
    ensures 0 <= c.settings.eventsMaxItems <= MAX_SUMMARY && Answers(c, v, q, access, a) ==>
      Refines(c.settings.eventsMaxItems, c.distance, v, q, a)
  {}

  /** A listing of `n` events of the ticket and nothing else. */
  function Trail(id: Uuid, n: nat): Db {
    Db(map[id := Ticket("", "", "", Received, 0.0)], [], [], [],
       seq(n, i requires i >= 0 => EventRow(i, id, TicketReceived, None, 0.0)), n)
  }

  lemma TrailLength(id: Uuid, n: nat)
    ensures |Trail(id, n).EventsOf(id)| == n
  {
    var events := Trail(id, n).events;
    DistinctCount(events);
    assert Trail(id, n).EventsOf(id) == set e | e in events;
  }

  /** Those limits are the only ones: under any other, some trail cannot be read through a store. */
  lemma OtherLimitsOverflow(c: ReadConfig, id: Uuid, access: Access)
    requires !access.NoStore?
    ensures 0 <= c.settings.eventsMaxItems <= MAX_SUMMARY <==>
      forall v: View :: !Overflows(c, v, ReadEvents(id), access)
  {
    var maxItems := c.settings.eventsMaxItems;
    var n: nat := if maxItems < 0 then MAX_SUMMARY + 1 - maxItems else MAX_SUMMARY + 1;
    TrailLength(id, n);
    assert !(0 <= maxItems <= MAX_SUMMARY) ==> Overflows(c, View(Trail(id, n), 0.0), ReadEvents(id), access);
  }

  /** A coherent cache holds nothing for a trail that overflows. */
  lemma NothingFound(c: ReadConfig, v: View, cache: Cache, clock: Time, q: Request, access: Access)
    requires Coherent(c, v, cache) && Overflows(c, v, q, access)
    ensures Found(c.h, cache, clock, q).None?
  {
    if TicketKey(q) in cache { assert Honest(c, v, q, cache[TicketKey(q)].raw); }
  }

  lemma HitKeepsCoherent(c: ReadConfig, v: View, before: Cache, clock: Time, q: Request, access: Access, a: Answer,
                         after: Cache)
    requires Coherent(c, v, before) && HitStep(c, before, clock, q, a, after)
    ensures Coherent(c, v, after)
    ensures TicketRead(q) ==> Answers(c, v, q, access, a)
  {
    if TicketRead(q) && !Overflows(c, v, q, access) {
      hide Loads, Refines;
      assert Honest(c, v, q, before[TicketKey(q)].raw);
      LoadedValueDecodes(c.settings.eventsMaxItems, c.distance, v, q, Found(c.h, before, clock, q).value);
    }
  }

  /** What the service makes of a fresh answer. */
  lemma FreshAnswers(c: ReadConfig, v: View, q: Request, access: Access, loaded: Answer)
    requires Fresh(c.distance, v, q, loaded)
    ensures Answers(c, v, q, access, if access.NoStore? then loaded else AnswerOf(c, q, loaded))
  {
    if q.ReadEvents? && loaded.EventsAre? { ListingHasNoForm(c.settings.eventsMaxItems, q, loaded.events); }
  }

  lemma UnknownAnswers(c: ReadConfig, v: View, q: Request, access: Access)
    requires ChecksTicket(q) && q.id !in v.db.tickets
    ensures Answers(c, v, q, access, TicketNotFound)
  {}

  /** A read over a coherent cache keeps it coherent and answers like the uncached service. */
  lemma ReadKeepsCoherent(c: ReadConfig, v: View, before: Cache, clock: Time, q: Request, access: Access, a: Answer,
                          after: Cache)
    requires Coherent(c, v, before) && ReadStep(c, v, before, clock, q, access, a, after)
    ensures Coherent(c, v, after)
    ensures TicketRead(q) ==> Answers(c, v, q, access, a)
  {
    hide Coherent, Answers, Fresh, HitStep, MissStep, AnswerOf, Found;
    if ChecksTicket(q) && q.id !in v.db.tickets {
      UnknownAnswers(c, v, q, access);
    } else if access.NoStore? || access.Disabled? {
      var loaded :| Fresh(c.distance, v, q, loaded) && a == if access.Disabled? then AnswerOf(c, q, loaded) else loaded;
      FreshAnswers(c, v, q, access, loaded);
    } else if HitStep(c, before, clock, q, a, after) {
      HitKeepsCoherent(c, v, before, clock, q, access, a, after);
    } else {
      MissStepKeepsCoherent(c, v, before, clock, q, access, a, after);
    }
  }

  lemma MissStepKeepsCoherent(c: ReadConfig, v: View, before: Cache, clock: Time, q: Request, access: Access, a: Answer,
                              after: Cache)
    requires Coherent(c, v, before) && MissStep(c, v, before, clock, q, access.Sure?, a, after) && !access.NoStore?
    ensures Coherent(c, v, after)
    ensures TicketRead(q) ==> Answers(c, v, q, access, a)
  {
    hide Answers, AnswerOf, Fresh;
    var loaded, base :| Removed(before, base, {KeyOf(c.h, q)}, false)
                        && MissWith(c, v, base, clock, q, access.Sure?, loaded, a, after);
    FreshAnswers(c, v, q, access, loaded);
    StoredKeepsCoherent(c, v, before, base, clock, q, access.Sure?, loaded, a, after);
  }

  lemma StoredKeepsCoherent(c: ReadConfig, v: View, before: Cache, base: Cache, clock: Time, q: Request, sure: bool,
                            loaded: Answer, a: Answer, after: Cache)
    requires Coherent(c, v, before) && Removed(before, base, {KeyOf(c.h, q)}, false)
    requires MissWith(c, v, base, clock, q, sure, loaded, a, after)
    ensures Coherent(c, v, after)
  {
    hide Fresh;
    SameDbKeepsCoherent(c, v, v, before, base);
    var d := ToDto(c.settings.eventsMaxItems, q, loaded);
    if d.Some? {
      assert Loads(c.settings.eventsMaxItems, c.distance, v, q, d.value);
      forall r | TicketRead(r) && TicketKey(r) in after ensures Honest(c, v, r, after[TicketKey(r)].raw) {
        if TicketKey(r) == KeyOf(c.h, q) && after != base {
          assert r == q;
        } else {
          assert Honest(c, v, r, base[TicketKey(r)].raw);
        }
      }
    }
  }

  /** With its cache disabled the service answers from the database alone and leaves Redis as it is. */
  lemma DisabledReadsPlainly(c: ReadConfig, v: View, before: Cache, clock: Time, q: Request, a: Answer, after: Cache)
    requires ReadStep(c, v, before, clock, q, Disabled, a, after)
    ensures after == before && (Fresh(c.distance, v, q, a) || (a == InvalidSummary && Overflows(c, v, q, Disabled)))
  {
    if !(ChecksTicket(q) && q.id !in v.db.tickets) {
      var loaded :| Fresh(c.distance, v, q, loaded) && a == AnswerOf(c, q, loaded);
      if loaded.EventsAre? { ListingHasNoForm(c.settings.eventsMaxItems, q, loaded.events); }
    }
  }

  // ---- all serial runs -------------------------------------------------------------------------

  lemma WriteCovers(c: ReadConfig, s: Step, w: World)
    requires Enabled(c, s, w)
    ensures Covers(w.db, Written(s, w.db, w.now), Deleted(s, w.db, w.now))
  {
    hide Covers, CreatedDb, StoredEmbeddingDb, StoredRoutingDb, Pipeline, Matches;
    NothingSpoiled(w.db, Deleted(s, w.db, w.now));
    match s {
      case Create(id, source, subject, body) => CreateCovers(w.db, w.now, id, source, subject, body);
      case StoreEmbedding(id, vector, model, dimension, textHash) =>
        if id in w.db.tickets { StoreEmbeddingCovers(w.db, w.now, id, vector, model, dimension, textHash); }
      case StoreRouting(id, routeTo, kind, decidedBy, confidence, reason) =>
        if id in w.db.tickets { StoreRoutingCovers(w.db, w.now, id, routeTo, kind, decidedBy, confidence, reason); }
      case Work(env, feed, id, rows) => RunCovers(env, feed, w.now, w.db, id, rows);
      case _ =>
    }
  }

  lemma NothingSpoiled(db: Db, keys: set<CacheKey>)
    ensures Covers(db, db, keys)
  {}

  /** A write changes nothing about a ticket that does not exist, unless it creates it. */
  lemma UnknownTicketUntouched(c: ReadConfig, s: Step, w: World, q: Request)
    requires Enabled(c, s, w) && TicketRead(q) && q.id !in w.db.tickets
    ensures var after := Written(s, w.db, w.now); SameView(w.db, after, q) || q.id in after.tickets
  {
    hide CreatedDb, StoredEmbeddingDb, StoredRoutingDb, Pipeline, Matches, OnlyTicket, SameView;
    var after := Written(s, w.db, w.now);
    Unchanged(w.db, q);
    match s {
      case Create(id, source, subject, body) =>
        CreateCovers(w.db, w.now, id, source, subject, body);
        if q.id != id { OnlyTicketKeepsOthers(w.db, after, id, q); }
            else { Created(w.db, w.now, id, source, subject, body); }
      case StoreEmbedding(id, vector, model, dimension, textHash) =>
        if id in w.db.tickets {
          StoreEmbeddingCovers(w.db, w.now, id, vector, model, dimension, textHash);
          OnlyTicketKeepsOthers(w.db, after, id, q);
        }
      case StoreRouting(id, routeTo, kind, decidedBy, confidence, reason) =>
        if id in w.db.tickets {
          StoreRoutingCovers(w.db, w.now, id, routeTo, kind, decidedBy, confidence, reason);
          OnlyTicketKeepsOthers(w.db, after, id, q);
        }
      case Work(env, feed, id, rows) =>
        RunTouchesOnly(env, feed, w.now, w.db, id, rows);
        if q.id != id { OnlyTicketKeepsOthers(w.db, after, id, q); }
      case _ =>
    }
  }

  lemma Unchanged(db: Db, q: Request)
    requires TicketRead(q)
    ensures SameView(db, db, q)
  {}

  lemma Created(db: Db, now: Time, id: Uuid, source: string, subject: string, body: string)
    ensures id in CreatedDb(db, now, id, source, subject, body).tickets
  {}

  lemma WriteKeepsUnique(c: ReadConfig, s: Step, w: World)
    requires w.db.OneActiveEach() && w.db.OnePendingEach()
    ensures Written(s, w.db, w.now).OneActiveEach() && Written(s, w.db, w.now).OnePendingEach()
  {
    hide Pipeline;
    match s {
      case StoreEmbedding(id, vector, model, dimension, textHash) =>
        StoreEmbeddingActivates(w.db, w.now, id, vector, model, dimension, textHash);
      case Work(env, feed, id, rows) => RunKeepsUnique(env, feed, w.now, w.db, id, rows);
      case _ =>
    }
  }

  lemma WriteKeepsNumbered(s: Step, db: Db, now: Time)
    requires Numbered(db)
    ensures Numbered(Written(s, db, now))
  {
    hide Pipeline, Numbered, CreatedDb, StoredEmbeddingDb, StoredRoutingDb;
    match s {
      case Create(id, source, subject, body) => CreateNumbers(db, now, id, source, subject, body);
      case StoreEmbedding(id, vector, model, dimension, textHash) =>
        StoreEmbeddingNumbers(db, now, id, vector, model, dimension, textHash);
      case StoreRouting(id, routeTo, kind, decidedBy, confidence, reason) =>
        StoreRoutingNumbers(db, now, id, routeTo, kind, decidedBy, confidence, reason);
      case Work(env, feed, id, rows) => RunOutcomes.RunNumbers(env, feed, now, db, id, rows);
      case _ =>
    }
  }

  lemma GarbleKeepsCoherent(c: ReadConfig, v: View, before: Cache, after: Cache, key: CacheKey)
    requires Coherent(c, v, before) && key in after && after[key].raw == Garbage
    requires after.Keys == before.Keys + {key} && forall k :: k in before && k != key ==> after[k] == before[k]
    ensures Coherent(c, v, after)
  {}

  lemma NextKeepsGood(c: ReadConfig, s: Step, a: World, b: World)
    requires Good(c, a) && Next(c, s, a, b)
    ensures Good(c, b)
    ensures s.Read? && TicketRead(s.q) ==> Answers(c, Look(a), s.q, s.access, s.answer)
  {
    hide Coherent, Covers, Written, ReadStep, Enabled, Answers, Numbered;
    WriteKeepsUnique(c, s, a);
    WriteKeepsNumbered(s, a.db, a.now);
    match s {
      case Read(q, access, answer) =>
        ReadKeepsCoherent(c, Look(a), a.cache, a.clock, q, access, answer, b.cache);
        ReadWritesNothing(s, a.db, a.now);
        SameDbKeepsCoherent(c, Look(a), Look(b), b.cache, b.cache);
      case Garble(key) =>
        ReadWritesNothing(s, a.db, a.now);
        GarbleKeepsCoherent(c, Look(a), a.cache, b.cache, key);
        SameDbKeepsCoherent(c, Look(a), Look(b), b.cache, b.cache);
      case _ =>
        WriteCovers(c, s, a);
        WriteKeepsCoherent(c, Look(a), Look(b), a.cache, b.cache, Deleted(s, a.db, a.now));
    }
  }

  lemma ReadWritesNothing(s: Step, db: Db, now: Time)
    requires s.Read? || s.Garble?
    ensures Written(s, db, now) == db
  {}

  ghost predicate IsRun(c: ReadConfig, ws: seq<World>, ss: seq<Step>) {
    |ws| == |ss| + 1 && forall i :: 0 <= i < |ss| ==> Next(c, ss[i], ws[i], ws[i + 1])
  }

  /**
   In every serial run the cache is coherent and the embeddings and drafts stay unique at every moment, and
   every read of a ticket answers like the uncached service.
   */
  lemma {:induction false} SerialRunsAreCoherent(c: ReadConfig, ws: seq<World>, ss: seq<Step>, i: nat)
    requires IsRun(c, ws, ss) && Good(c, ws[0]) && i < |ws|
    ensures Good(c, ws[i])
    ensures i < |ss| && ss[i].Read? && TicketRead(ss[i].q) ==>
            Answers(c, Look(ws[i]), ss[i].q, ss[i].access, ss[i].answer)
    ensures i < |ss| && ss[i].Read? && TicketRead(ss[i].q) && 0 <= c.settings.eventsMaxItems <= MAX_SUMMARY ==>
      Refines(c.settings.eventsMaxItems, c.distance, Look(ws[i]), ss[i].q, ss[i].answer)
  {
    hide Good, Next, Answers;
    if i > 0 {
      SerialRunsAreCoherent(c, ws, ss, i - 1);
      NextKeepsGood(c, ss[i - 1], ws[i - 1], ws[i]);
    }
    if i < |ss| {
      NextKeepsGood(c, ss[i], ws[i], ws[i + 1]);
      if ss[i].Read? { ShortSummariesRefine(c, Look(ws[i]), ss[i].q, ss[i].access, ss[i].answer); }
    }
  }

  /** Neither an unknown ticket nor a missing row is ever cached. */
  lemma NothingMissingIsCached(c: ReadConfig, w: World, q: Request)
    requires Good(c, w) && TicketRead(q) && TicketKey(q) in w.cache && Decode(q, w.cache[TicketKey(q)].raw).Some?
    ensures q.id in w.db.tickets
    ensures q.ReadRouting? ==> w.db.RoutingOf(q.id) != {}
    ensures q.ReadDraft? ==> w.db.DraftsOf(q.id) != {}
  {}
}
