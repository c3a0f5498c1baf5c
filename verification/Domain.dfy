/** The rows Postgres keeps for the two services, and the changes the repositories make to them. */
module Domain {
  import opened Common
  import opened CacheKeys

  /** Seconds. */
  type Time = real
  type Vector = seq<real>

  /** The length of the vector column. */
  const EMBEDDING_DIMENSION := 1536

  /** What the schema stores: vectors of one length, and a positive dimension beside them. */
  type StoredVector = v: Vector | |v| == EMBEDDING_DIMENSION witness seq(EMBEDDING_DIMENSION, _ => 0.0)
  type Dimension = d: int | d >= 1 witness 1

  const SOME_VECTOR: StoredVector := seq(EMBEDDING_DIMENSION, _ => 0.0)

  type Confidence = r: real | 0.0 <= r <= 1.0

  datatype TicketStatus = Received | PendingEmbedding | Embedded | RoutingPending | Routed | Failed

  datatype EventType =
    | TicketReceived | TicketStatusChanged | EmbeddingStored | RoutingDecisionStored | TicketFailed
    | AiProcessingStarted | ClassificationCompleted | RetrievalCompleted
    | DraftSuggestionStored | AiProcessingCompleted | AiProcessingFailed

  datatype DecisionType = Category | Team | Priority | Escalation
  datatype DecidedBy = Worker | Manual | TestSeed
  datatype SuggestionStatus = PendingReview | Superseded | DraftFailed

  datatype ParsedClassification = ParsedClassification(
    category: string, team: string, priority: string, escalation: string,
    classificationConfidence: Confidence, routingConfidence: Confidence,
    requiresHumanReview: bool, fallbackReason: Option<string>)

  datatype Payload =
    | StatusPayload(status: TicketStatus)
    | EmbeddingPayload(model: string, dimension: int, provider: string, textHash: Digest)
    | StoredEmbeddingPayload(embeddingId: nat, model: string, dimension: int)
    | RoutingPayload(decisionId: nat, routeTo: string, decisionType: DecisionType)
    | ClassificationPayload(parsed: ParsedClassification)
    | RetrievalPayload(usable: nat, weak: nat, top: Option<real>)
    | DraftPayload(provider: string, model: string, length: nat, contextCount: nat)
    | CompletedPayload(provider: string, model: string, dimension: int, matches: nat, weak: nat, top: Option<real>,
                       drafted: bool, parsed: ParsedClassification)
    | FailurePayload(reason: string, message: string)

  datatype Ticket = Ticket(source: string, subject: string, body: string, status: TicketStatus, createdAt: Time)

  datatype EmbeddingRow = EmbeddingRow(
    id: nat, ticketId: Uuid, vector: StoredVector, model: string, dimension: Dimension, textHash: string, active: bool)

  datatype RoutingRow = RoutingRow(
    id: nat, ticketId: Uuid, routeTo: string, decisionType: DecisionType,
    confidence: Option<Confidence>, reason: Option<string>, decidedBy: DecidedBy, createdAt: Time)

  datatype DraftRow = DraftRow(
    id: nat, ticketId: Uuid, text: string, provider: string, model: string, promptVersion: string,
    status: SuggestionStatus, confidence: Option<Confidence>, requiresHumanReview: bool, createdAt: Time)

  datatype EventRow = EventRow(
    id: nat, ticketId: Uuid, kind: EventType, payload: Option<Payload>, createdAt: Time)

  datatype SimilarRow = SimilarRow(
    ticketId: Uuid, embeddingId: nat, subject: string, source: string, status: TicketStatus, distance: real)

  /** Rows get their ids from one counter, so no two rows of a table are equal. */
  datatype Db = Db(
    tickets: map<Uuid, Ticket>,
    embeddings: seq<EmbeddingRow>,
    routing: seq<RoutingRow>,
    drafts: seq<DraftRow>,
    events: seq<EventRow>,
    nextId: nat)
  {
    // ---- changes ----

    function WithTicket(id: Uuid, t: Ticket): Db { this.(tickets := tickets[id := t]) }

    /** Updates no row when the ticket does not exist. */
    function WithStatus(id: Uuid, s: TicketStatus): Db {
      if id in tickets then this.(tickets := tickets[id := tickets[id].(status := s)]) else this
    }

    function WithEvent(now: Time, id: Uuid, kind: EventType, payload: Payload): Db {
      this.(events := events + [EventRow(nextId, id, kind, Some(payload), now)], nextId := nextId + 1)
    }

    function WithRouting(now: Time, id: Uuid, routeTo: string, decisionType: DecisionType, decidedBy: DecidedBy,
                         confidence: Option<Confidence>, reason: Option<string>): Db {
      this.(routing := routing + [RoutingRow(nextId, id, routeTo, decisionType, confidence, reason, decidedBy, now)],
            nextId := nextId + 1)
    }

    function WithDraft(now: Time, id: Uuid, text: string, provider: string, model: string, promptVersion: string,
                       status: SuggestionStatus, confidence: Option<Confidence>, review: bool): Db {
      this.(drafts := drafts + [DraftRow(nextId, id, text, provider, model, promptVersion, status, confidence, review,
                                         now)],
            nextId := nextId + 1)
    }

    function WithEmbedding(id: Uuid, vector: StoredVector, model: string, dimension: Dimension, textHash: string): Db {
      this.(embeddings := embeddings + [EmbeddingRow(nextId, id, vector, model, dimension, textHash, true)],
            nextId := nextId + 1)
    }

    function Deactivated(id: Uuid): Db {
      this.(embeddings := Map((e: EmbeddingRow) => if e.ticketId == id then e.(active := false) else e, embeddings))
    }

    // ---- queries ----

    function RoutingOf(id: Uuid): set<RoutingRow> { set r | r in routing && r.ticketId == id }
    function DraftsOf(id: Uuid): set<DraftRow> { set d | d in drafts && d.ticketId == id }
    function EventsOf(id: Uuid): set<EventRow> { set e | e in events && e.ticketId == id }

    predicate HasPendingReview(id: Uuid) {
      exists d :: d in drafts && d.ticketId == id && d.status == PendingReview
    }

    /** An active embedding of the ticket; there is at most one in a sound state. */
    function ActiveOf(id: Uuid): Option<EmbeddingRow> { ActiveIn(embeddings, id) }

    // ---- constraints the schema declares ----

    ghost predicate OneActiveEach() {
      forall i, j :: 0 <= i < j < |embeddings| && embeddings[i].active && embeddings[j].active ==>
        embeddings[i].ticketId != embeddings[j].ticketId
    }

    ghost predicate OnePendingEach() {
      forall i, j :: 0 <= i < j < |drafts| && drafts[i].status == PendingReview && drafts[j].status == PendingReview ==>
        drafts[i].ticketId != drafts[j].ticketId
    }
  }

  /** Ids grow along each table and stay below the counter, so no two rows of a table share one. */
  ghost predicate Numbered(db: Db) {
    && (forall i, j :: 0 <= i < j < |db.embeddings| ==> db.embeddings[i].id < db.embeddings[j].id)
    && (forall i, j :: 0 <= i < j < |db.routing| ==> db.routing[i].id < db.routing[j].id)
    && (forall i, j :: 0 <= i < j < |db.drafts| ==> db.drafts[i].id < db.drafts[j].id)
    && (forall i, j :: 0 <= i < j < |db.events| ==> db.events[i].id < db.events[j].id)
    && (forall e :: e in db.embeddings ==> e.id < db.nextId) && (forall r :: r in db.routing ==> r.id < db.nextId)
    && (forall d :: d in db.drafts ==> d.id < db.nextId) && (forall e :: e in db.events ==> e.id < db.nextId)
  }

  lemma WithEventNumbered(db: Db, now: Time, id: Uuid, kind: EventType, payload: Payload)
    requires Numbered(db)
    ensures Numbered(db.WithEvent(now, id, kind, payload))
  {}

  lemma WithStatusNumbered(db: Db, id: Uuid, s: TicketStatus)
    requires Numbered(db)
    ensures Numbered(db.WithStatus(id, s))
  {}

  lemma WithRoutingNumbered(db: Db, now: Time, id: Uuid, routeTo: string, decisionType: DecisionType,
                            decidedBy: DecidedBy, confidence: Option<Confidence>, reason: Option<string>)
    requires Numbered(db)
    ensures Numbered(db.WithRouting(now, id, routeTo, decisionType, decidedBy, confidence, reason))
  {}

  lemma WithDraftNumbered(db: Db, now: Time, id: Uuid, text: string, provider: string, model: string,
                          promptVersion: string, status: SuggestionStatus, confidence: Option<Confidence>, review: bool)
    requires Numbered(db)
    ensures Numbered(db.WithDraft(now, id, text, provider, model, promptVersion, status, confidence, review))
  {}

  lemma WithEmbeddingNumbered(db: Db, id: Uuid, vector: StoredVector, model: string, dimension: Dimension,
                              textHash: string)
    requires Numbered(db)
    ensures Numbered(db.WithEmbedding(id, vector, model, dimension, textHash))
  {}

  lemma DeactivatedNumbered(db: Db, id: Uuid)
    requires Numbered(db)
    ensures Numbered(db.Deactivated(id))
  {}

  function ActiveIn(rows: seq<EmbeddingRow>, id: Uuid): (r: Option<EmbeddingRow>)
    ensures r.Some? ==> r.value in rows && r.value.ticketId == id && r.value.active
    ensures r.None? ==> forall e :: e in rows && e.ticketId == id ==> !e.active
  {
    if rows == [] then None
    else
      var last := rows[|rows| - 1];
      if last.ticketId == id && last.active then Some(last) else ActiveIn(rows[..|rows| - 1], id)
  }

  // ---- which tickets a change touches ----

  ghost predicate RoutingGrows(a: seq<RoutingRow>, b: seq<RoutingRow>, id: Uuid) {
    a <= b && forall i :: |a| <= i < |b| ==> b[i].ticketId == id
  }

  ghost predicate DraftsGrow(a: seq<DraftRow>, b: seq<DraftRow>, id: Uuid) {
    a <= b && forall i :: |a| <= i < |b| ==> b[i].ticketId == id
  }

  ghost predicate EventsGrow(a: seq<EventRow>, b: seq<EventRow>, id: Uuid) {
    a <= b && forall i :: |a| <= i < |b| ==> b[i].ticketId == id
  }

  /** Embeddings are only added for `id` and, among old rows, only those of `id` may be switched off. */
  ghost predicate EmbeddingsMove(a: seq<EmbeddingRow>, b: seq<EmbeddingRow>, id: Uuid) {
    && |a| <= |b|
    && (forall i :: 0 <= i < |a| ==> b[i] == a[i] || (a[i].ticketId == id && b[i] == a[i].(active := false)))
    && (forall i :: |a| <= i < |b| ==> b[i].ticketId == id)
  }

  /** `b` differs from `a` in the rows of ticket `id` only, and keeps the rows already there. */
  ghost predicate OnlyTicket(a: Db, b: Db, id: Uuid) {
    && a.tickets.Keys <= b.tickets.Keys <= a.tickets.Keys + {id}
    && (forall t :: t in a.tickets && t != id ==> b.tickets[t] == a.tickets[t])
    && (id in a.tickets ==> b.tickets[id] == a.tickets[id].(status := b.tickets[id].status))
    && RoutingGrows(a.routing, b.routing, id)
    && DraftsGrow(a.drafts, b.drafts, id)
    && EventsGrow(a.events, b.events, id)
    && EmbeddingsMove(a.embeddings, b.embeddings, id)
    && a.nextId <= b.nextId
  }

  lemma OnlyTicketTransitive(a: Db, b: Db, c: Db, id: Uuid)
    requires OnlyTicket(a, b, id) && OnlyTicket(b, c, id)
    ensures OnlyTicket(a, c, id)
  {}

  /** Rows added for a ticket show: their ids are new. */
  lemma NewRoutingShows(a: Db, b: Db, id: Uuid)
    requires Numbered(b) && RoutingGrows(a.routing, b.routing, id) && a.routing != b.routing
    ensures a.RoutingOf(id) != b.RoutingOf(id)
  {
    var row := b.routing[|a.routing|];
    assert row in b.RoutingOf(id) && row !in a.routing;
  }

  lemma NewDraftShows(a: Db, b: Db, id: Uuid)
    requires Numbered(b) && DraftsGrow(a.drafts, b.drafts, id) && a.drafts != b.drafts
    ensures a.DraftsOf(id) != b.DraftsOf(id)
  {
    var row := b.drafts[|a.drafts|];
    assert row in b.DraftsOf(id) && row !in a.drafts;
  }

  lemma NewEventShows(a: Db, b: Db, id: Uuid)
    requires Numbered(b) && EventsGrow(a.events, b.events, id) && a.events != b.events
    ensures a.EventsOf(id) != b.EventsOf(id)
  {
    var row := b.events[|a.events|];
    assert row in b.EventsOf(id) && row !in a.events;
  }

  // ---- similarity ----

  datatype Search = Search(
    query: Vector, limit: nat, exclude: Option<Uuid>, model: Option<string>, dimension: Option<int>,
        maxAgeDays: Option<int>)

  /** An active embedding joined to its ticket that passes every filter the search gives. */
  predicate Eligible(db: Db, now: Time, s: Search, e: EmbeddingRow) {
    && e.active && e.ticketId in db.tickets
    && (s.exclude.Some? ==> e.ticketId != s.exclude.value)
    && (s.model.Some? ==> e.model == s.model.value)
    && (s.dimension.Some? ==> e.dimension == s.dimension.value)
    && (s.maxAgeDays.Some? ==> db.tickets[e.ticketId].createdAt >= now - s.maxAgeDays.value as real * 86400.0)
  }

  /** `distance` is pgvector's cosine distance. */
  function Candidates(distance: (Vector, Vector) -> real, db: Db, now: Time, s: Search): set<SimilarRow> {
    set e | e in db.embeddings && Eligible(db, now, s, e) :: RowOf(distance, db, s, e)
  }

  function RowOf(distance: (Vector, Vector) -> real, db: Db, s: Search, e: EmbeddingRow): SimilarRow
    requires e.ticketId in db.tickets
  {
    SimilarRow(e.ticketId, e.id, db.tickets[e.ticketId].subject, db.tickets[e.ticketId].source,
               db.tickets[e.ticketId].status, distance(e.vector, s.query))
  }

  function Distance(r: SimilarRow): real { r.distance }

  ghost predicate NearestRows(distance: (Vector, Vector) -> real, db: Db, now: Time, s: Search, rows: seq<SimilarRow>) {
    OrderedLimit(Candidates(distance, db, now, s), Distance, s.limit, rows)
  }

  /** What a search may answer with: active embeddings of known tickets that meet each condition it gives. */
  predicate Passes(db: Db, now: Time, s: Search, e: EmbeddingRow) {
    && e in db.embeddings && e.active && e.ticketId in db.tickets && s.exclude != Some(e.ticketId)
    && (s.model.None? || s.model == Some(e.model)) && (s.dimension.None? || s.dimension == Some(e.dimension))
    && (s.maxAgeDays.None? || now - db.tickets[e.ticketId].createdAt <= s.maxAgeDays.value as real * 86400.0)
  }

  /** The row shows this embedding and its ticket, at its distance from the vector. */
  predicate Shows(distance: (Vector, Vector) -> real, db: Db, vector: Vector, e: EmbeddingRow, r: SimilarRow)
    requires e.ticketId in db.tickets
  {
    var t := db.tickets[e.ticketId];
    && r.ticketId == e.ticketId && r.embeddingId == e.id && r.distance == distance(e.vector, vector)
    && r.subject == t.subject && r.source == t.source && r.status == t.status
  }

  /** It answers with the nearest of them, nearest first, and leaves one out only of a full answer with none farther. */
  lemma SearchMeans(distance: (Vector, Vector) -> real, db: Db, now: Time, s: Search, rows: seq<SimilarRow>)
    requires NearestRows(distance, db, now, s, rows)
    ensures |rows| <= s.limit
    ensures forall i, j :: 0 <= i < j < |rows| ==> rows[i].distance <= rows[j].distance && rows[i] != rows[j]
    ensures forall r :: r in rows ==> exists e :: Passes(db, now, s, e) && Shows(distance, db, s.query, e, r)
    ensures forall e :: Passes(db, now, s, e) ==>
      || (exists r :: r in rows && Shows(distance, db, s.query, e, r))
      || (|rows| == s.limit && forall r :: r in rows ==> r.distance <= distance(e.vector, s.query))
  {
    var all := Candidates(distance, db, now, s);
    forall i, j | 0 <= i < j < |rows| ensures rows[i].distance <= rows[j].distance {
      assert Distance(rows[i]) <= Distance(rows[j]);
    }
    forall r | r in rows ensures exists e :: Passes(db, now, s, e) && Shows(distance, db, s.query, e, r) {
      var e :| e in db.embeddings && Eligible(db, now, s, e) && r == RowOf(distance, db, s, e);
      assert Passes(db, now, s, e);
    }
    forall e | Passes(db, now, s, e)
      ensures || (exists r :: r in rows && Shows(distance, db, s.query, e, r))
              || (|rows| == s.limit && forall r :: r in rows ==> r.distance <= distance(e.vector, s.query))
    {
      var row := RowOf(distance, db, s, e);
      assert row in all && Shows(distance, db, s.query, e, row);
      if row !in rows { LeftOut(all, s.limit, rows, row); }
    }
  }

  lemma LeftOut(all: set<SimilarRow>, limit: nat, rows: seq<SimilarRow>, row: SimilarRow)
    requires OrderedLimit(all, Distance, limit, rows) && row in all && row !in rows
    ensures |rows| == limit && forall r :: r in rows ==> r.distance <= row.distance
  {
    forall r | r in rows ensures r.distance <= row.distance {
      var i :| 0 <= i < |rows| && rows[i] == r;
      assert Distance(rows[i]) <= Distance(row);
    }
    if |rows| == |all| { ListIsComplete(all, rows); }
  }

  // ---- latest rows and listings ----

  ghost predicate LatestRouting(db: Db, id: Uuid, r: RoutingRow) {
    r in db.RoutingOf(id) && forall x :: x in db.RoutingOf(id) ==> x.createdAt <= r.createdAt
  }

  ghost predicate LatestDraft(db: Db, id: Uuid, d: DraftRow) {
    d in db.DraftsOf(id) && forall x :: x in db.DraftsOf(id) ==> x.createdAt <= d.createdAt
  }

  function EventTime(e: EventRow): real { e.createdAt }

  /** All events of the ticket, oldest first. */
  ghost predicate Listing(db: Db, id: Uuid, events: seq<EventRow>) {
    OrderedLimit(db.EventsOf(id), EventTime, |db.EventsOf(id)|, events)
  }
}
