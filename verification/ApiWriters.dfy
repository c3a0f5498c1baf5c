/** The API services that write: intake, test embeddings and manual routing. */
module ApiWriters {
  import opened Common
  import opened CacheKeys
  import opened Domain
  import opened CacheModel
  import opened CacheStore
  import opened Postgres

  // ---- what each call makes of the database, and the keys it deletes ----

  function CreatedDb(db: Db, now: Time, id: Uuid, source: string, subject: string, body: string): Db {
    db.WithTicket(id, Ticket(source, subject, body, PendingEmbedding, now))
      .WithEvent(now, id, TicketReceived, StatusPayload(PendingEmbedding))
  }

  function StoredEmbeddingDb(db: Db, now: Time, id: Uuid, vector: StoredVector, model: string, dimension: Dimension,
                             textHash: string): Db {
    db.Deactivated(id).WithEmbedding(id, vector, model, dimension, textHash).WithStatus(id, Embedded)
      .WithEvent(now, id, EmbeddingStored, StoredEmbeddingPayload(db.nextId, model, dimension))
  }

  function StoredRoutingDb(db: Db, now: Time, id: Uuid, routeTo: string, kind: DecisionType, decidedBy: DecidedBy,
                           confidence: Option<Confidence>, reason: Option<string>): Db {
    db.WithRouting(now, id, routeTo, kind, decidedBy, confidence, reason).WithStatus(id, Routed)
      .WithEvent(now, id, RoutingDecisionStored, RoutingPayload(db.nextId, routeTo, kind))
  }

  function CreatedKeys(id: Uuid): set<CacheKey> { {EventsKey(id)} }
  function StoredEmbeddingKeys(id: Uuid): set<CacheKey> { {StatusKey(id), EventsKey(id)} }
  function StoredRoutingKeys(id: Uuid): set<CacheKey> { {StatusKey(id), RoutingKey(id), EventsKey(id)} }

  /** A new ticket id spoils nothing; the other two calls delete the key of every read they change. */
  lemma CreateCovers(db: Db, now: Time, id: Uuid, source: string, subject: string, body: string)
    requires id !in db.tickets
    ensures OnlyTicket(db, CreatedDb(db, now, id, source, subject, body), id)
    ensures Covers(db, CreatedDb(db, now, id, source, subject, body), CreatedKeys(id))
  {}

  lemma StoreEmbeddingCovers(db: Db, now: Time, id: Uuid, vector: StoredVector, model: string, dimension: Dimension,
                             textHash: string)
    requires id in db.tickets
    ensures OnlyTicket(db, StoredEmbeddingDb(db, now, id, vector, model, dimension, textHash), id)
    ensures Covers(db, StoredEmbeddingDb(db, now, id, vector, model, dimension, textHash), StoredEmbeddingKeys(id))
  {}

  lemma StoreRoutingCovers(db: Db, now: Time, id: Uuid, routeTo: string, kind: DecisionType, decidedBy: DecidedBy,
                           confidence: Option<Confidence>, reason: Option<string>)
    requires id in db.tickets
    ensures OnlyTicket(db, StoredRoutingDb(db, now, id, routeTo, kind, decidedBy, confidence, reason), id)
    ensures Covers(db, StoredRoutingDb(db, now, id, routeTo, kind, decidedBy, confidence, reason),
                   StoredRoutingKeys(id))
  {}

  /** Storing an embedding leaves exactly the new one active. */
  lemma StoreEmbeddingActivates(db: Db, now: Time, id: Uuid, vector: StoredVector, model: string, dimension: Dimension,
                                textHash: string)
    requires db.OneActiveEach()
    ensures var after := StoredEmbeddingDb(db, now, id, vector, model, dimension, textHash);
            && after.OneActiveEach()
            && after.ActiveOf(id) == Some(EmbeddingRow(db.nextId, id, vector, model, dimension, textHash, true))
  {}

  /** A decision stored by hand becomes the latest of its ticket, and routes it. */
  lemma StoreRoutingIsLatest(db: Db, now: Time, id: Uuid, routeTo: string, kind: DecisionType, decidedBy: DecidedBy,
                             confidence: Option<Confidence>, reason: Option<string>)
    requires id in db.tickets && forall r :: r in db.RoutingOf(id) ==> r.createdAt <= now
    ensures var after := StoredRoutingDb(db, now, id, routeTo, kind, decidedBy, confidence, reason);
            && LatestRouting(after, id, RoutingRow(db.nextId, id, routeTo, kind, confidence, reason, decidedBy, now))
            && after.tickets[id].status == Routed
  {}

  /** The event just logged: of this kind, about this ticket, dated now, with this payload. */
  predicate Announces(a: Db, b: Db, now: Time, id: Uuid, kind: EventType, payload: Payload) {
    && |b.events| == |a.events| + 1 && b.events[..|a.events|] == a.events
    && var e := b.events[|a.events|];
       e.ticketId == id && e.kind == kind && e.createdAt == now && e.payload == Some(payload)
  }

  /** A new ticket holds what the request gave, waits for the worker, and is announced as received. */
  lemma CreateStores(db: Db, now: Time, id: Uuid, source: string, subject: string, body: string)
    ensures var after := CreatedDb(db, now, id, source, subject, body);
            && id in after.tickets
            && var t := after.tickets[id];
            && t.source == source && t.subject == subject && t.body == body
            && t.status == PendingEmbedding && t.createdAt == now
            && Announces(db, after, now, id, TicketReceived, StatusPayload(t.status))
  {}

  /** Storing an embedding moves its ticket on and announces the row, leaving decisions and drafts alone. */
  lemma StoreEmbeddingStores(db: Db, now: Time, id: Uuid, vector: StoredVector, model: string, dimension: Dimension,
                             textHash: string)
    requires id in db.tickets && db.OneActiveEach()
    ensures var after := StoredEmbeddingDb(db, now, id, vector, model, dimension, textHash);
            && id in after.tickets && after.tickets[id].status == Embedded && after.ActiveOf(id).Some?
            && Announces(db, after, now, id, EventType.EmbeddingStored,
                         StoredEmbeddingPayload(after.ActiveOf(id).value.id, model, dimension))
            && after.routing == db.routing && after.drafts == db.drafts
  {
    StoreEmbeddingActivates(db, now, id, vector, model, dimension, textHash);
  }

  /** Storing a decision announces its row, leaving embeddings and drafts alone. */
  lemma StoreRoutingStores(db: Db, now: Time, id: Uuid, routeTo: string, kind: DecisionType, decidedBy: DecidedBy,
                           confidence: Option<Confidence>, reason: Option<string>)
    requires id in db.tickets
    ensures var after := StoredRoutingDb(db, now, id, routeTo, kind, decidedBy, confidence, reason);
            && |after.routing| == |db.routing| + 1 && after.routing[..|db.routing|] == db.routing
            && Announces(db, after, now, id, EventType.RoutingDecisionStored,
                         RoutingPayload(after.routing[|db.routing|].id, routeTo, kind))
            && after.embeddings == db.embeddings && after.drafts == db.drafts
  {}

  /** Creating a ticket deletes the keys of no reads but its own listing, which it starts. */
  lemma CreateDeletesNoMore(db: Db, now: Time, id: Uuid, source: string, subject: string, body: string, q: Request)
    requires TicketRead(q) && TicketKey(q) in CreatedKeys(id) && Numbered(db)
    ensures !SameView(db, CreatedDb(db, now, id, source, subject, body), q)
  {
    var after := CreatedDb(db, now, id, source, subject, body);
    CreateNumbers(db, now, id, source, subject, body);
    NewEventShows(db, after, id);
  }

  /** The keys deleted are just those of the reads spoiled, save that the status may have been the new one before. */
  lemma StoreEmbeddingDeletesNoMore(db: Db, now: Time, id: Uuid, vector: StoredVector, model: string,
                                    dimension: Dimension, textHash: string, q: Request)
    requires TicketRead(q) && TicketKey(q) in StoredEmbeddingKeys(id) && Numbered(db)
    ensures q == ReadStatus(id)
         || !SameView(db, StoredEmbeddingDb(db, now, id, vector, model, dimension, textHash), q)
  {
    var after := StoredEmbeddingDb(db, now, id, vector, model, dimension, textHash);
    StoreEmbeddingNumbers(db, now, id, vector, model, dimension, textHash);
    NewEventShows(db, after, id);
  }

  lemma StoreRoutingDeletesNoMore(db: Db, now: Time, id: Uuid, routeTo: string, kind: DecisionType,
                                  decidedBy: DecidedBy,
                                  confidence: Option<Confidence>, reason: Option<string>, q: Request)
    requires TicketRead(q) && TicketKey(q) in StoredRoutingKeys(id) && Numbered(db)
    ensures q == ReadStatus(id)
         || !SameView(db, StoredRoutingDb(db, now, id, routeTo, kind, decidedBy, confidence, reason), q)
  {
    var after := StoredRoutingDb(db, now, id, routeTo, kind, decidedBy, confidence, reason);
    StoreRoutingNumbers(db, now, id, routeTo, kind, decidedBy, confidence, reason);
    NewEventShows(db, after, id);
    NewRoutingShows(db, after, id);
  }

  /** Every call numbers its rows afresh. */
  lemma CreateNumbers(db: Db, now: Time, id: Uuid, source: string, subject: string, body: string)
    requires Numbered(db)
    ensures Numbered(CreatedDb(db, now, id, source, subject, body))
  {}

  lemma StoreEmbeddingNumbers(db: Db, now: Time, id: Uuid, vector: StoredVector, model: string, dimension: Dimension,
                              textHash: string)
    requires Numbered(db)
    ensures Numbered(StoredEmbeddingDb(db, now, id, vector, model, dimension, textHash))
  {
    hide Numbered;
    DeactivatedNumbered(db, id);
    WithEmbeddingNumbered(db.Deactivated(id), id, vector, model, dimension, textHash);
    var stored := db.Deactivated(id).WithEmbedding(id, vector, model, dimension, textHash);
    WithStatusNumbered(stored, id, Embedded);
    WithEventNumbered(stored.WithStatus(id, Embedded), now, id, EventType.EmbeddingStored,
                      StoredEmbeddingPayload(db.nextId, model, dimension));
  }

  lemma StoreRoutingNumbers(db: Db, now: Time, id: Uuid, routeTo: string, kind: DecisionType, decidedBy: DecidedBy,
                            confidence: Option<Confidence>, reason: Option<string>)
    requires Numbered(db)
    ensures Numbered(StoredRoutingDb(db, now, id, routeTo, kind, decidedBy, confidence, reason))
  {}

  /** Switching a ticket's embeddings off and adding one leaves that one as the only active. */
  lemma NewActiveIsAlone(db: Db, id: Uuid, vector: StoredVector, model: string, dimension: Dimension, textHash: string)
    requires db.OneActiveEach()
    ensures var after := db.Deactivated(id).WithEmbedding(id, vector, model, dimension, textHash);
            && after.OneActiveEach()
            && after.ActiveOf(id) == Some(EmbeddingRow(db.nextId, id, vector, model, dimension, textHash, true))
            && db.Deactivated(id).OneActiveEach() && db.Deactivated(id).ActiveOf(id) == None
  {}

  // ---- the services ----

  class ApiWriteServices {
    const session: Session
    const invalidator: TicketCacheInvalidator?

    constructor (session: Session, invalidator: TicketCacheInvalidator?)
      ensures this.session == session && this.invalidator == invalidator
    {
      this.session, this.invalidator := session, invalidator;
    }

    ghost function Footprint(): set<object> { InvalidatorFootprint(invalidator) }

    ghost predicate Valid()
      reads Footprint()
    {
      InvalidatorValid(invalidator)
    }

    ghost function Entries(): Cache
      reads Footprint()
    {
      InvalidatorEntries(invalidator)
    }

    /** `id` is the UUID drawn for the new ticket. */
    method CreateTicket(id: Uuid, source: string, subject: string, body: string)
      requires Valid() && id !in session.db.tickets
      modifies session`db, Footprint()
      ensures Valid() && session.db == CreatedDb(old(session.db), session.now, id, source, subject, body)
      ensures Removed(old(Entries()), Entries(), CreatedKeys(id), AllReach(invalidator))
    {
      session.db := session.db.WithTicket(id, Ticket(source, subject, body, PendingEmbedding, session.now));
      session.db := session.db.WithEvent(session.now, id, TicketReceived, StatusPayload(PendingEmbedding));
      if invalidator != null { invalidator.InvalidateEvents(id); }
    }

    /** Fails, changing nothing, when the ticket does not exist. */
    method StoreTicketEmbedding(id: Uuid, vector: StoredVector, model: string, dimension: Dimension, textHash: string)
      returns (row: Option<EmbeddingRow>)
      requires Valid()
      modifies session`db, Footprint()
      ensures Valid() && (row.Some? <==> id in old(session.db).tickets)
      ensures row.None? ==> session.db == old(session.db) && Entries() == old(Entries())
      ensures row.Some? ==>
        && session.db.embeddings != [] && row.value == session.db.embeddings[|session.db.embeddings| - 1]
        && session.db == StoredEmbeddingDb(old(session.db), session.now, id, vector, model, dimension, textHash)
        && Removed(old(Entries()), Entries(), StoredEmbeddingKeys(id), AllReach(invalidator))
    {
      if id !in session.db.tickets { return None; }
      var rowId := session.db.nextId;
      session.db := session.db.Deactivated(id).WithEmbedding(id, vector, model, dimension, textHash);
      row := Some(session.db.embeddings[|session.db.embeddings| - 1]);
      session.db := session.db.WithStatus(id, Embedded);
      session.db := session.db.WithEvent(session.now, id, EmbeddingStored,
                                         StoredEmbeddingPayload(rowId, model, dimension));
      ForgetStatusAndEvents(invalidator, id);
    }

    method StoreRoutingDecision(id: Uuid, routeTo: string, kind: DecisionType, decidedBy: DecidedBy,
                                confidence: Option<Confidence>, reason: Option<string>)
      returns (row: Option<RoutingRow>)
      requires Valid()
      modifies session`db, Footprint()
      ensures Valid() && (row.Some? <==> id in old(session.db).tickets)
      ensures row.None? ==> session.db == old(session.db) && Entries() == old(Entries())
      ensures row.Some? ==>
        && session.db.routing != [] && row.value == session.db.routing[|session.db.routing| - 1]
        && session.db == StoredRoutingDb(old(session.db), session.now, id, routeTo, kind, decidedBy, confidence, reason)
        && Removed(old(Entries()), Entries(), StoredRoutingKeys(id), AllReach(invalidator))
    {
      if id !in session.db.tickets { return None; }
      var rowId := session.db.nextId;
      session.db := session.db.WithRouting(session.now, id, routeTo, kind, decidedBy, confidence, reason);
      row := Some(session.db.routing[|session.db.routing| - 1]);
      session.db := session.db.WithStatus(id, Routed);
      session.db := session.db.WithEvent(session.now, id, RoutingDecisionStored, RoutingPayload(rowId, routeTo, kind));
      if invalidator != null {
        ghost var before := Entries();
        invalidator.InvalidateStatus(id);
        ghost var first := Entries();
        invalidator.InvalidateRouting(id);
        ghost var second := Entries();
        invalidator.InvalidateEvents(id);
        RemovedTwice(before, first, second, {StatusKey(id)}, {RoutingKey(id)}, AllReach(invalidator));
        RemovedTwice(before, second, Entries(), {StatusKey(id)} + {RoutingKey(id)}, {EventsKey(id)},
                     AllReach(invalidator));
        assert {StatusKey(id)} + {RoutingKey(id)} + {EventsKey(id)} == StoredRoutingKeys(id);
      }
    }
  }
}
