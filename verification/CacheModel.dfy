/** What the API caches: requests, their keys, cached values, and the uncached answers they stand for. */
module CacheModel {
  import opened Common
  import opened CacheKeys
  import opened Domain

  const DEFAULT_EMBEDDING_MODEL := "text-embedding-3-small"
  /** The longest event summary a cached value may hold. */
  const MAX_SUMMARY := 50

  datatype ApiSettings = ApiSettings(
    ttlStatus: int, ttlRouting: int, ttlDraft: int, ttlEvents: int, ttlSimilarity: int, eventsMaxItems: int)

  datatype Request =
    | ReadStatus(id: Uuid)
    | ReadRouting(id: Uuid)
    | ReadDraft(id: Uuid)
    | ReadEvents(id: Uuid)
    | ReadSimilar(search: Search)

  predicate TicketRead(q: Request) { !q.ReadSimilar? }

  // ---- keys ----

  function EffectiveModel(s: Search): string {
    if s.model.Some? && s.model.value != "" then s.model.value else DEFAULT_EMBEDDING_MODEL
  }

  function EffectiveDimension(s: Search): int {
    if s.dimension.Some? && s.dimension.value != 0 then s.dimension.value else EMBEDDING_DIMENSION
  }

  function FiltersOf(s: Search): SimilarityFilters {
    SimilarityFilters(s.limit, s.exclude, EffectiveModel(s), EffectiveDimension(s), s.maxAgeDays)
  }

  function TicketKey(q: Request): (k: CacheKey)
    requires TicketRead(q)
    ensures IsTicketKey(k)
  {
    match q
    case ReadStatus(id) => StatusKey(id)
    case ReadRouting(id) => RoutingKey(id)
    case ReadDraft(id) => DraftKey(id)
    case ReadEvents(id) => EventsKey(id)
  }

  function KeyOf(h: Digests, q: Request): (k: CacheKey)
    ensures IsTicketKey(k) <==> TicketRead(q)
  {
    if TicketRead(q) then TicketKey(q) else KeyOfSearch(h, q.search.query, FiltersOf(q.search))
  }

  function Ttl(s: ApiSettings, q: Request): int {
    match q
    case ReadStatus(_) => s.ttlStatus
    case ReadRouting(_) => s.ttlRouting
    case ReadDraft(_) => s.ttlDraft
    case ReadEvents(_) => s.ttlEvents
    case ReadSimilar(_) => s.ttlSimilarity
  }

  // ---- answers and cached values ----

  datatype Answer =
    | TicketNotFound
    | InvalidSummary
    | NoRow
    | StatusIs(status: TicketStatus)
    | RoutingIs(routing: RoutingRow)
    | DraftIs(draft: DraftRow)
    | EventsAre(events: seq<EventRow>)
    | SimilarAre(rows: seq<SimilarRow>)

  datatype EventSummary = EventSummary(id: nat, kind: EventType, createdAt: Time)

  datatype Dto =
    | StatusDto(ticketId: Uuid, status: TicketStatus)
    | RoutingDto(id: nat, ticketId: Uuid, routeTo: string, decisionType: DecisionType,
                 confidence: Option<Confidence>, reason: Option<string>, decidedBy: DecidedBy,
                 createdAt: Time, humanReviewRequired: bool)
    | DraftDto(id: nat, ticketId: Uuid, text: string, provider: string, model: string, promptVersion: string,
               draftStatus: SuggestionStatus, confidence: Option<Confidence>,
               requiresHumanReview: bool, createdAt: Time)
    | EventsDto(ticketId: Uuid, summaries: seq<EventSummary>)
    | SimilarDto(filters: SimilarityFilters, rows: seq<SimilarRow>)

  function Summarize(e: EventRow): EventSummary { EventSummary(e.id, e.kind, e.createdAt) }

  function SummariesOf(maxItems: int, events: seq<EventRow>): seq<EventSummary> {
    Map(Summarize, Prefix(events, maxItems))
  }

  /** The cached form of a fresh answer; `None` where nothing is cached or the value does not validate. */
  function ToDto(maxItems: int, q: Request, a: Answer): Option<Dto> {
    match a
    case StatusIs(s) => if q.ReadStatus? then Some(StatusDto(q.id, s)) else None
    case RoutingIs(r) =>
      Some(RoutingDto(r.id, r.ticketId, r.routeTo, r.decisionType, r.confidence, r.reason, r.decidedBy,
                      r.createdAt, r.reason == Some("human_review_required")))
    case DraftIs(d) =>
      Some(DraftDto(d.id, d.ticketId, d.text, d.provider, d.model, d.promptVersion, d.status, d.confidence,
                    d.requiresHumanReview, d.createdAt))
    case EventsAre(events) =>
      if q.ReadEvents? && |SummariesOf(maxItems, events)| <= MAX_SUMMARY
      then Some(EventsDto(q.id, SummariesOf(maxItems, events))) else None
    case SimilarAre(rows) =>
      if q.ReadSimilar? then Some(SimilarDto(FiltersOf(q.search), rows)) else None
    case _ => None
  }

  /** The cached summary of a listing of `n` events would hold more than a cached value may. */
  predicate SummaryTooLong(maxItems: int, n: nat) {
    n > MAX_SUMMARY && (maxItems > MAX_SUMMARY || (maxItems < 0 && n + maxItems > MAX_SUMMARY))
  }

  /** A listing has no cached form exactly when its summary is too long. */
  lemma ListingHasNoForm(maxItems: int, q: Request, events: seq<EventRow>)
    requires q.ReadEvents?
    ensures ToDto(maxItems, q, EventsAre(events)).None? <==> SummaryTooLong(maxItems, |events|)
  {}

  predicate Fits(q: Request, d: Dto) {
    match q
    case ReadStatus(_) => d.StatusDto?
    case ReadRouting(_) => d.RoutingDto?
    case ReadDraft(_) => d.DraftDto?
    case ReadEvents(_) => d.EventsDto? && |d.summaries| <= MAX_SUMMARY
    case ReadSimilar(_) => d.SimilarDto?
  }

  function FromDto(q: Request, d: Dto): Answer
    requires Fits(q, d)
  {
    match d
    case StatusDto(_, s) => StatusIs(s)
    case RoutingDto(id, t, to, kind, c, reason, by_, at, _) =>
      RoutingIs(RoutingRow(id, t, to, kind, c, reason, by_, at))
    case DraftDto(id, t, text, p, m, v, s, c, review, at) => DraftIs(DraftRow(id, t, text, p, m, v, s, c, review, at))
    case EventsDto(_, items) =>
      var id := q.id;
      EventsAre(Map((i: EventSummary) => EventRow(i.id, id, i.kind, None, i.createdAt), items))
    case SimilarDto(_, rows) => SimilarAre(rows)
  }

  // ---- the uncached read ----

  datatype View = View(db: Db, now: Time)

  /** An answer the database alone may give; ties in an ORDER BY leave a choice. */
  ghost predicate Fresh(distance: (Vector, Vector) -> real, v: View, q: Request, a: Answer) {
    match q
    case ReadStatus(id) => a == if id in v.db.tickets then StatusIs(v.db.tickets[id].status) else TicketNotFound
    case ReadRouting(id) =>
      if id !in v.db.tickets then a == TicketNotFound
      else if v.db.RoutingOf(id) == {} then a == NoRow
      else a.RoutingIs? && LatestRouting(v.db, id, a.routing)
    case ReadDraft(id) =>
      if id !in v.db.tickets then a == TicketNotFound
      else if v.db.DraftsOf(id) == {} then a == NoRow
      else a.DraftIs? && LatestDraft(v.db, id, a.draft)
    case ReadEvents(id) =>
      if id !in v.db.tickets then a == TicketNotFound
      else a.EventsAre? && Listing(v.db, id, a.events)
    case ReadSimilar(s) => a.SimilarAre? && NearestRows(distance, v.db, v.now, s, a.rows)
  }

  /** What the uncached reads of a ticket answer, written out over the rows of the database. */
  lemma FreshMeans(distance: (Vector, Vector) -> real, v: View, id: Uuid, a: Answer)
    ensures Fresh(distance, v, ReadStatus(id), a) <==>
      a == if id in v.db.tickets then StatusIs(v.db.tickets[id].status) else TicketNotFound
    ensures Fresh(distance, v, ReadRouting(id), a) <==>
      if id !in v.db.tickets then a == TicketNotFound
      else || (a == NoRow && forall r :: r in v.db.routing ==> r.ticketId != id)
           || (a.RoutingIs? && a.routing in v.db.routing && a.routing.ticketId == id
               && forall r :: r in v.db.routing && r.ticketId == id ==> r.createdAt <= a.routing.createdAt)
    ensures Fresh(distance, v, ReadDraft(id), a) <==>
      if id !in v.db.tickets then a == TicketNotFound
      else || (a == NoRow && forall d :: d in v.db.drafts ==> d.ticketId != id)
           || (a.DraftIs? && a.draft in v.db.drafts && a.draft.ticketId == id
               && forall d :: d in v.db.drafts && d.ticketId == id ==> d.createdAt <= a.draft.createdAt)
    ensures Fresh(distance, v, ReadEvents(id), a) <==>
      if id !in v.db.tickets then a == TicketNotFound
      else && a.EventsAre? && (forall e :: e in a.events <==> e in v.db.events && e.ticketId == id)
           && forall i, j :: 0 <= i < j < |a.events| ==>
                a.events[i] != a.events[j] && a.events[i].createdAt <= a.events[j].createdAt
  {
    assert v.db.RoutingOf(id) == {} <==> forall r :: r in v.db.routing ==> r.ticketId != id by {
      assert (forall r :: r in v.db.routing ==> r.ticketId != id) ==> v.db.RoutingOf(id) == {};
      assert forall r :: r in v.db.routing && r.ticketId == id ==> r in v.db.RoutingOf(id);
    }
    assert v.db.DraftsOf(id) == {} <==> forall d :: d in v.db.drafts ==> d.ticketId != id by {
      assert (forall d :: d in v.db.drafts ==> d.ticketId != id) ==> v.db.DraftsOf(id) == {};
      assert forall d :: d in v.db.drafts && d.ticketId == id ==> d in v.db.DraftsOf(id);
    }
    if a.EventsAre? { ListingMeans(v.db, id, a.events); }
  }

  lemma ListingMeans(db: Db, id: Uuid, events: seq<EventRow>)
    ensures Listing(db, id, events) <==>
      && (forall e :: e in events <==> e in db.events && e.ticketId == id)
      && forall i, j :: 0 <= i < j < |events| ==> events[i] != events[j] && events[i].createdAt <= events[j].createdAt
  {
    if Listing(db, id, events) {
      ListIsComplete(db.EventsOf(id), events);
      forall i, j | 0 <= i < j < |events| ensures events[i].createdAt <= events[j].createdAt {
        assert EventTime(events[i]) <= EventTime(events[j]);
      }
    }
    if (forall e :: e in events <==> e in db.events && e.ticketId == id)
       && forall i, j :: 0 <= i < j < |events| ==>
           events[i] != events[j] && events[i].createdAt <= events[j].createdAt {
      DistinctCount(events);
      assert db.EventsOf(id) == set e | e in events;
    }
  }

  /** A read that refines a listing gives its first items, or all of them, in order; shortened ones lack payloads. */
  lemma ErasedMeans(maxItems: int, events: seq<EventRow>)
    ensures var shown := Erased(maxItems, events);
            && |shown| <= |events| && (maxItems >= 0 ==> |shown| == if maxItems < |events| then maxItems else |events|)
            && forall i :: 0 <= i < |shown| ==>
                 && shown[i].id == events[i].id && shown[i].ticketId == events[i].ticketId
                 && shown[i].kind == events[i].kind && shown[i].createdAt == events[i].createdAt
                 && shown[i].payload == None
  {}

  /** A cached decision says that a human must look exactly when its reason does. */
  lemma RoutingFlag(maxItems: int, q: Request, r: RoutingRow)
    ensures var d := ToDto(maxItems, q, RoutingIs(r));
            d.Some? && (d.value.humanReviewRequired <==> r.reason == Some("human_review_required"))
  {}

  /** A cached value that loading from `v` may produce. */
  ghost predicate Loads(maxItems: int, distance: (Vector, Vector) -> real, v: View, q: Request, d: Dto) {
    exists a :: Fresh(distance, v, q, a) && ToDto(maxItems, q, a) == Some(d)
  }

  /** The events a hit returns for a full listing: the first items, without payloads. */
  function Erased(maxItems: int, events: seq<EventRow>): seq<EventRow> {
    Map((e: EventRow) => e.(payload := None), Prefix(events, maxItems))
  }

  /** What a cached read may answer: a fresh answer, except that events may come shortened and erased. */
  ghost predicate Refines(maxItems: int, distance: (Vector, Vector) -> real, v: View, q: Request, a: Answer) {
    || Fresh(distance, v, q, a)
    || (q.ReadEvents?
        && exists events :: Fresh(distance, v, q, EventsAre(events)) && a == EventsAre(Erased(maxItems, events)))
  }

  /** Decoding a loaded value gives back the row it was made from, or the erased summary of the listing. */
  lemma LoadedValueDecodes(maxItems: int, distance: (Vector, Vector) -> real, v: View, q: Request, d: Dto)
    requires Loads(maxItems, distance, v, q, d)
    ensures Fits(q, d) && Refines(maxItems, distance, v, q, FromDto(q, d))
    ensures !FromDto(q, d).TicketNotFound? && !FromDto(q, d).NoRow?
    ensures TicketRead(q) ==> q.id in v.db.tickets
    ensures !q.ReadEvents? ==> Fresh(distance, v, q, FromDto(q, d))
  {}

  // ---- what a change leaves cached values worth ----

  /** The rows a ticket read looks at are the same before and after. */
  ghost predicate SameView(a: Db, b: Db, q: Request)
    requires TicketRead(q)
  {
    && (q.id in a.tickets <==> q.id in b.tickets)
    && match q
       case ReadStatus(id) => id in a.tickets ==> a.tickets[id].status == b.tickets[id].status
       case ReadRouting(id) => a.RoutingOf(id) == b.RoutingOf(id)
       case ReadDraft(id) => a.DraftsOf(id) == b.DraftsOf(id)
       case ReadEvents(id) => a.EventsOf(id) == b.EventsOf(id)
  }

  /** Whatever loading before the change could cache, loading after it could cache too. */
  ghost predicate Keeps(a: Db, b: Db, q: Request)
    requires TicketRead(q)
  {
    q.id in a.tickets ==> SameView(a, b, q)
  }

  /** The keys deleted include that of every ticket read the change may have spoiled. */
  ghost predicate Covers(a: Db, b: Db, deleted: set<CacheKey>) {
    forall q :: TicketRead(q) && TicketKey(q) !in deleted ==> Keeps(a, b, q)
  }

  lemma KeepsLoads(maxItems: int, distance: (Vector, Vector) -> real, a: View, b: View, q: Request, d: Dto)
    requires TicketRead(q) && Keeps(a.db, b.db, q) && Loads(maxItems, distance, a, q, d)
    ensures Loads(maxItems, distance, b, q, d)
  {}

  lemma OnlyTicketKeepsOthers(a: Db, b: Db, id: Uuid, q: Request)
    requires OnlyTicket(a, b, id) && TicketRead(q) && q.id != id
    ensures SameView(a, b, q)
  {}
}
