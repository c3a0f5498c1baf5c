/** One run of the worker on one ticket: embed, classify, retrieve, suggest. */
module AiWorkflowService {
  import opened Common
  import opened CacheKeys
  import opened Domain
  import opened CacheStore
  import opened Postgres
  import opened Provider
  import opened EmbeddingService
  import opened ClassificationService
  import opened RetrievalService
  import opened SuggestionService

  // ---- a run as a function ---------------------------------------------------------------------

  datatype Ending = Ignored | Finished | EmbeddingBroke | SuggestionBroke

  datatype Run = Run(db: Db, ending: Ending)

  /** The worker does nothing for an unknown, a routed or a failed ticket. */
  predicate Closed(db: Db, id: Uuid) {
    id !in db.tickets || db.tickets[id].status == Routed || db.tickets[id].status == Failed
  }

  function Begun(now: Time, db: Db, id: Uuid): Db
    requires id in db.tickets
  {
    db.WithEvent(now, id, AiProcessingStarted, StatusPayload(db.tickets[id].status))
  }

  function Broken(now: Time, db: Db, id: Uuid, exc: Exc): Db {
    db.WithStatus(id, Failed).WithEvent(now, id, AiProcessingFailed,
                                        FailurePayload(ExcName(exc), Prefix(ExcMessage(exc), 200)))
  }

  function Summary(e: EmbedResult, p: ParsedClassification, usable: seq<SimilarRow>, weak: seq<SimilarRow>,
                   drafted: bool)
    : Payload
    requires e.EmbedDone?
  {
    CompletedPayload(e.provider, e.model, e.dimension, |usable|, |weak|, Top(usable), drafted, p)
  }

  function Completed(now: Time, db: Db, id: Uuid, summary: Payload): Db {
    db.WithStatus(id, Routed).WithEvent(now, id, AiProcessingCompleted, summary)
  }

  /** The stages up to the classification; what the retrieval then searches. */
  function Embedding(env: Env, feed: Feed, now: Time, db: Db, id: Uuid): EmbedResult
    requires id in db.tickets
  {
    Embed(env, feed, now, Begun(now, db, id), id)
  }

  /** What the similarity search of a run with this embedding looks at. */
  function Searchable(env: Env, feed: Feed, now: Time, id: Uuid, e: EmbedResult): Db {
    ClassifiedDb(now, e.db, id, ParsedBy(env, feed))
  }

  function Retrieved(env: Env, feed: Feed, now: Time, id: Uuid, e: EmbedResult, rows: seq<SimilarRow>): Db {
    RetrievedDb(env, now, Searchable(env, feed, now, id, e), id, rows)
  }

  /** The rest of a run whose embedding is at hand; `rows` is the answer of its similarity search. */
  function Continue(env: Env, feed: Feed, now: Time, id: Uuid, e: EmbedResult, rows: seq<SimilarRow>): Run
    requires e.EmbedDone?
  {
    var s := Suggest(env, AfterClassify(env, feed), now, Retrieved(env, feed, now, id, e, rows), id, Usable(env, rows));
    if s.SuggestFailed? then Run(Broken(now, s.db, id, s.exc), SuggestionBroke)
    else
      var summary := Summary(e, ParsedBy(env, feed), Usable(env, rows), Weak(env, rows), s.Drafted?);
      Run(Completed(now, s.db, id, summary), Finished)
  }

  function Resumed(env: Env, feed: Feed, now: Time, id: Uuid, e: EmbedResult, rows: seq<SimilarRow>): Run {
    if e.EmbedFailed? then Run(Broken(now, e.db, id, e.exc), EmbeddingBroke) else Continue(env, feed, now, id, e, rows)
  }

  function Pipeline(env: Env, feed: Feed, now: Time, db: Db, id: Uuid, rows: seq<SimilarRow>): Run {
    if Closed(db, id) then Run(db, Ignored)
    else Resumed(env, AfterEmbed(env, feed, Begun(now, db, id), id), now, id, Embedding(env, feed, now, db, id), rows)
  }

  /** The rows a run may work with: an answer of its search, if it gets that far. */
  ghost predicate Retrieves(env: Env, feed: Feed, distance: (Vector, Vector) -> real, now: Time, id: Uuid,
                            e: EmbedResult,
                        rows: seq<SimilarRow>) {
    e.EmbedDone? ==> NearestRows(distance, Searchable(env, feed, now, id, e), now,
                                 SearchFor(env, id, e.vector, e.model, e.dimension), rows)
  }

  ghost predicate Matches(env: Env, feed: Feed, distance: (Vector, Vector) -> real, now: Time, db: Db, id: Uuid,
                          rows: seq<SimilarRow>) {
    Closed(db, id)
    || Retrieves(env, AfterEmbed(env, feed, Begun(now, db, id), id), distance, now, id,
                 Embedding(env, feed, now, db, id), rows)
  }

  /** The provider after the stages that follow the embedding. */
  function FeedBeyond(env: Env, feed: Feed, now: Time, id: Uuid, e: EmbedResult, rows: seq<SimilarRow>): Feed {
    if e.EmbedFailed? then feed
    else AfterSuggest(env, AfterClassify(env, feed), Retrieved(env, feed, now, id, e, rows), id, Usable(env, rows))
  }

  /** The provider after the run. */
  function FeedAfter(env: Env, feed: Feed, now: Time, db: Db, id: Uuid, rows: seq<SimilarRow>): Feed {
    if Closed(db, id) then feed
    else FeedBeyond(env, AfterEmbed(env, feed, Begun(now, db, id), id), now, id, Embedding(env, feed, now, db, id),
                    rows)
  }

  /** The cache keys a run deletes. */
  function DeletedBy(ending: Ending, id: Uuid): set<CacheKey> {
    match ending
    case Ignored => {}
    case Finished => TicketKeys(id)
    case EmbeddingBroke => {StatusKey(id), EventsKey(id)}
    case SuggestionBroke => {StatusKey(id), RoutingKey(id), EventsKey(id)}
  }

  lemma ClassifiedThen(a: Cache, b: Cache, c: Cache, id: Uuid, failed: bool, all: bool)
    requires Removed(a, b, ClassifyKeys(id), all)
    requires Removed(b, c, if failed then EmbedKeys(id) else TicketKeys(id), all)
    ensures Removed(a, c, DeletedBy(if failed then SuggestionBroke else Finished, id), all)
  {
    RemovedTwice(a, b, c, ClassifyKeys(id), if failed then EmbedKeys(id) else TicketKeys(id), all);
    assert ClassifyKeys(id) + EmbedKeys(id) == DeletedBy(SuggestionBroke, id);
    assert ClassifyKeys(id) + TicketKeys(id) == DeletedBy(Finished, id);
  }

  /** The deletes of the stages of a run add up to those of its ending. */
  lemma RunDeletes(a: Cache, b: Cache, c: Cache, d: Cache, id: Uuid, ending: Ending, some: bool, all: bool)
    requires Removed(a, b, {EventsKey(id)}, all) && Removed(b, c, EmbedKeys(id), some)
             && Removed(c, d, DeletedBy(ending, id), all)
    requires EmbedKeys(id) <= DeletedBy(ending, id)
    ensures Removed(a, d, DeletedBy(ending, id), all)
  {
    RemovedAfresh(a, b, c, {EventsKey(id)}, EmbedKeys(id), all, some);
    RemovedAfresh(a, c, d, EmbedKeys(id), DeletedBy(ending, id), some, all);
  }

  // ---- the service -----------------------------------------------------------------------------

  class AiWorkflowService {
    const env: Env
    const session: Session
    const provider: AiProvider
    const invalidator: TicketCacheInvalidator?

    constructor (env: Env, session: Session, provider: AiProvider, invalidator: TicketCacheInvalidator?)
      ensures this.env == env && this.session == session && this.provider == provider && this.invalidator == invalidator
    {
      this.env, this.session, this.provider, this.invalidator := env, session, provider, invalidator;
    }

    ghost function Footprint(): set<object> { InvalidatorFootprint(invalidator) }

    ghost predicate Valid()
      reads Footprint()
    {
      InvalidatorValid(invalidator)
    }

    ghost function Entries(): Cache
      reads Footprint()
    {
      InvalidatorEntries(invalidator)
    }

    /** `rows` is what the similarity search of the run answered, if it got that far. */
    method ProcessTicket(id: Uuid) returns (ghost rows: seq<SimilarRow>)
      requires Valid()
      modifies session`db, provider.embed`calls, provider.classify`calls, provider.suggest`calls, Footprint()
      ensures Valid()
      ensures Matches(env, old(provider.State()), session.distance, session.now, old(session.db), id, rows)
      ensures session.db == Pipeline(env, old(provider.State()), session.now, old(session.db), id, rows).db
      ensures provider.State() == FeedAfter(env, old(provider.State()), session.now, old(session.db), id, rows)
      ensures Removed(old(Entries()), Entries(),
                      DeletedBy(Pipeline(env, old(provider.State()), session.now, old(session.db), id, rows).ending,
                                id),
                      AllReach(invalidator))
    {
      hide Resumed, Embed, AfterEmbed, FeedBeyond, Retrieves;
      rows := [];
      if id !in session.db.tickets { return; }
      if session.db.tickets[id].status == Routed || session.db.tickets[id].status == Failed { return; }
      ghost var before := Entries();
      Begin(id);
      ghost var started := Entries();
      var e := EnsureEmbedding(env, session, provider, invalidator, id);
      ghost var embedded, asked := Entries(), provider.State();
      rows := Resume(id, e);
      RunDeletes(before, started, embedded, Entries(), id, Resumed(env, asked, session.now, id, e, rows).ending,
                 AllReach(invalidator) && e.EmbedDone? && e.renewed, AllReach(invalidator));
    }

    method Begin(id: Uuid)
      requires Valid() && id in session.db.tickets
      modifies session`db, Footprint()
      ensures Valid() && session.db == Begun(session.now, old(session.db), id)
      ensures Removed(old(Entries()), Entries(), {EventsKey(id)}, AllReach(invalidator))
    {
      session.db := session.db.WithEvent(session.now, id, AiProcessingStarted,
                                         StatusPayload(session.db.tickets[id].status));
      if invalidator != null { invalidator.InvalidateEvents(id); }
    }

    /** What follows the attempt at an embedding. */
    method Resume(id: Uuid, e: EmbedResult) returns (ghost rows: seq<SimilarRow>)
      requires Valid() && session.db == e.db
      modifies session`db, provider.classify`calls, provider.suggest`calls, Footprint()
      ensures Valid() && Retrieves(env, old(provider.State()), session.distance, session.now, id, e, rows)
      ensures session.db == Resumed(env, old(provider.State()), session.now, id, e, rows).db
      ensures provider.State() == FeedBeyond(env, old(provider.State()), session.now, id, e, rows)
      ensures EmbedKeys(id) <= DeletedBy(Resumed(env, old(provider.State()), session.now, id, e, rows).ending, id)
      ensures Removed(old(Entries()), Entries(),
                      DeletedBy(Resumed(env, old(provider.State()), session.now, id, e, rows).ending, id),
                          AllReach(invalidator))
    {
      hide AfterSuggest, AfterClassify, Retrieved, NearestRows;
      rows := [];
      if e.EmbedFailed? {
        Fail(id, e.exc);
      } else {
        rows := Proceed(id, e);
      }
    }

    /** The stages after the embedding. */
    method Proceed(id: Uuid, e: EmbedResult) returns (ghost rows: seq<SimilarRow>)
      requires Valid() && e.EmbedDone? && session.db == e.db
      modifies session`db, provider.classify`calls, provider.suggest`calls, Footprint()
      ensures Valid() && Retrieves(env, old(provider.State()), session.distance, session.now, id, e, rows)
      ensures session.db == Continue(env, old(provider.State()), session.now, id, e, rows).db
      ensures provider.State() == FeedBeyond(env, old(provider.State()), session.now, id, e, rows)
      ensures Removed(old(Entries()), Entries(),
                      DeletedBy(Continue(env, old(provider.State()), session.now, id, e, rows).ending, id),
                          AllReach(invalidator))
    {
      hide Classify, ClassifiedDb, NearestRows, RetrievedDb, Suggest, SuggestCalls;
      ghost var before := Entries();
      var parsed := ClassifyAndPersist(env, session, provider, invalidator, id);
      ghost var classified := Entries();
      var usable, weak, found := FindUsableMatches(env, session, id, e.vector, e.model, e.dimension);
      rows := found;
      ghost var s := Conclude(id, e, parsed, usable, weak);
      ClassifiedThen(before, classified, Entries(), id, s.SuggestFailed?, AllReach(invalidator));
    }

    /** Suggests, if there is something to suggest from, and closes the run. */
    method Conclude(id: Uuid, e: EmbedResult, parsed: ParsedClassification, usable: seq<SimilarRow>,
                    weak: seq<SimilarRow>)
      returns (ghost s: SuggestResult)
      requires Valid() && e.EmbedDone?
      modifies session`db, provider.suggest`calls, Footprint()
      ensures Valid() && s == Suggest(env, old(provider.State()), session.now, old(session.db), id, usable)
      ensures session.db == if s.SuggestFailed? then Broken(session.now, s.db, id, s.exc)
                            else Completed(session.now, s.db, id, Summary(e, parsed, usable, weak, s.Drafted?))
      ensures provider.State() == AfterSuggest(env, old(provider.State()), old(session.db), id, usable)
      ensures Removed(old(Entries()), Entries(), if s.SuggestFailed? then EmbedKeys(id) else TicketKeys(id),
                      AllReach(invalidator))
    {
      hide Retry, Attempts, DraftedDb, Completed, Broken, Removed;
      ghost var before := Entries();
      s := NoDraft(session.db);
      var drafted := false;
      if usable != [] {
        var r := MaybeCreateSuggestion(env, session, provider, invalidator, id, usable);
        s := r;
        if r.SuggestFailed? {
          Fail(id, r.exc);
          return;
        }
        drafted := r.Drafted?;
      }
      ghost var between := Entries();
      if usable == [] || !s.Drafted? { RemovedNothing(before, SuggestKeys(id)); }
      Complete(id, Summary(e, parsed, usable, weak, drafted));
      RemovedAfresh(before, between, Entries(), SuggestKeys(id), TicketKeys(id), s.Drafted? && AllReach(invalidator),
                    AllReach(invalidator));
    }

    /** Marks the ticket routed. */
    method Complete(id: Uuid, summary: Payload)
      requires Valid()
      modifies session`db, Footprint()
      ensures Valid() && session.db == Completed(session.now, old(session.db), id, summary)
      ensures Removed(old(Entries()), Entries(), TicketKeys(id), AllReach(invalidator))
    {
      session.db := session.db.WithStatus(id, Routed);
      session.db := session.db.WithEvent(session.now, id, AiProcessingCompleted, summary);
      if invalidator != null { invalidator.InvalidateTicketReadModels(id); }
    }

    /** Marks the ticket failed, keeping what the run stored so far. */
    method Fail(id: Uuid, exc: Exc)
      requires Valid()
      modifies session`db, Footprint()
      ensures Valid() && session.db == Broken(session.now, old(session.db), id, exc)
      ensures Removed(old(Entries()), Entries(), {StatusKey(id), EventsKey(id)}, AllReach(invalidator))
    {
      session.db := session.db.WithStatus(id, Failed);
      session.db := session.db.WithEvent(session.now, id, AiProcessingFailed,
                                         FailurePayload(ExcName(exc), Prefix(ExcMessage(exc), 200)));
      ForgetStatusAndEvents(invalidator, id);
    }
  }
}
