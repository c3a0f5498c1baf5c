/** What every run of the worker on a ticket does, whatever the provider returns or raises. */
module WorkflowTheorems {
  import opened Common
  import opened CacheKeys
  import opened Domain
  import opened CacheModel
  import opened Provider
  import opened ClassificationPolicy
  import opened EmbeddingService
  import opened ClassificationService
  import opened RetrievalService
  import opened SuggestionService
  import opened AiWorkflowService

  // ---- one ticket only -------------------------------------------------------------------------

  lemma EmbedTouchesOnly(env: Env, feed: Feed, now: Time, db: Db, id: Uuid)
    requires id in db.tickets
    ensures var after := Embed(env, feed, now, db, id).db;
            OnlyTicket(db, after, id) && after.routing == db.routing && after.drafts == db.drafts && id in after.tickets
  {
    hide Retry, ActiveIn;
  }

  /** Four routing rows more, one per decision type: these labels and confidences, one reason, one time. */
  ghost predicate RowsSay(now: Time, a: seq<RoutingRow>, b: seq<RoutingRow>, id: Uuid, category: string, team: string,
                          priority: string, escalation: string, sure: Confidence, routed: Confidence,
                          reason: Option<string>) {
    && |b| == |a| + 4 && b[..|a|] == a
    && var n := |a|;
    && b[n] == RoutingRow(b[n].id, id, category, Category, Some(sure), reason, Worker, now)
    && b[n + 1] == RoutingRow(b[n + 1].id, id, team, Team, Some(routed), reason, Worker, now)
    && b[n + 2] == RoutingRow(b[n + 2].id, id, priority, Priority, Some(sure), reason, Worker, now)
    && b[n + 3] == RoutingRow(b[n + 3].id, id, escalation, Escalation, Some(sure), reason, Worker, now)
  }

  ghost predicate FourDecisions(now: Time, a: seq<RoutingRow>, b: seq<RoutingRow>, id: Uuid, p: ParsedClassification) {
    RowsSay(now, a, b, id, p.category, p.team, p.priority, p.escalation, p.classificationConfidence,
            p.routingConfidence, ReasonOf(p))
  }

  lemma ClassifyTouchesOnly(now: Time, db: Db, id: Uuid, p: ParsedClassification)
    requires id in db.tickets
    ensures var after := ClassifiedDb(now, db, id, p);
            && OnlyTicket(db, after, id) && after.drafts == db.drafts && after.embeddings == db.embeddings
                && id in after.tickets
            && FourDecisions(now, db.routing, after.routing, id, p)
  {
    hide WithDecisions, ReasonOf;
    DecisionRows(now, db, id, ReasonOf(p), Decisions(p));
    FourRows(now, db.routing, ClassifiedDb(now, db, id, p).routing, db.nextId, id, p);
  }

  lemma FourRows(now: Time, a: seq<RoutingRow>, b: seq<RoutingRow>, first: nat, id: Uuid, p: ParsedClassification)
    requires a <= b && |b| == |a| + 4
    requires forall i :: 0 <= i < 4 ==> b[|a| + i] == DecisionRow(now, first + i, id, ReasonOf(p), Decisions(p)[i])
    ensures FourDecisions(now, a, b, id, p) && RoutingGrows(a, b, id)
  {
    hide ReasonOf;
    var d0, d1, d2, d3 := Decisions(p)[0], Decisions(p)[1], Decisions(p)[2], Decisions(p)[3];
    assert b[|a|].ticketId == b[|a| + 1].ticketId == b[|a| + 2].ticketId == b[|a| + 3].ticketId == id;
  }

  lemma SuggestTouchesOnly(env: Env, feed: Feed, now: Time, db: Db, id: Uuid, usable: seq<SimilarRow>)
    requires id in db.tickets
    ensures var r := Suggest(env, feed, now, db, id, usable);
            OnlyTicket(db, r.db, id) && r.db.routing == db.routing && r.db.embeddings == db.embeddings
                && id in r.db.tickets
    ensures !Suggest(env, feed, now, db, id, usable).Drafted? ==> Suggest(env, feed, now, db, id, usable).db == db
  {}

  // ---- what a run touches ----------------------------------------------------------------------

  /** The part of a run after its embedding changes rows of its ticket only. */
  lemma ContinueTouchesOnly(env: Env, feed: Feed, now: Time, id: Uuid, e: EmbedResult, rows: seq<SimilarRow>)
    requires e.EmbedDone? && id in e.db.tickets
    ensures var r := Continue(env, feed, now, id, e, rows);
            && OnlyTicket(e.db, r.db, id) && id in r.db.tickets && r.db.embeddings == e.db.embeddings
            && r.db.routing == Searchable(env, feed, now, id, e).routing
            && r.db.tickets[id].status == (if r.ending == Finished then Routed else Failed)
            && (r.ending == SuggestionBroke ==> r.db.drafts == e.db.drafts)
            && (r.ending == Finished || r.ending == SuggestionBroke)
  {
    hide Classify, ClassifiedDb, Suggest;
    var p := ParsedBy(env, feed);
    var found, listed := Searchable(env, feed, now, id, e), Retrieved(env, feed, now, id, e, rows);
    var s := Suggest(env, AfterClassify(env, feed), now, listed, id, Usable(env, rows));
    ClassifyTouchesOnly(now, e.db, id, p);
    SuggestTouchesOnly(env, AfterClassify(env, feed), now, listed, id, Usable(env, rows));
    OnlyTicketTransitive(e.db, found, listed, id);
    OnlyTicketTransitive(e.db, listed, s.db, id);
    OnlyTicketTransitive(e.db, s.db, Continue(env, feed, now, id, e, rows).db, id);
  }

  /**
   A run on an open ticket ends with it routed or failed, having changed rows of that ticket only and
   deleted no event, draft or decision; a run on any other ticket changes nothing and asks nothing.
   */
  lemma RunTouchesOnly(env: Env, feed: Feed, now: Time, db: Db, id: Uuid, rows: seq<SimilarRow>)
    ensures var r := Pipeline(env, feed, now, db, id, rows);
            && OnlyTicket(db, r.db, id)
            && (Closed(db, id) <==> r.ending == Ignored)
            && (Closed(db, id) <==> id !in db.tickets || db.tickets[id].status in {Routed, Failed})
            && (Closed(db, id) ==> r.db == db && FeedAfter(env, feed, now, db, id, rows) == feed)
            && (!Closed(db, id) ==>
                  id in r.db.tickets && r.db.tickets[id].status == if r.ending == Finished then Routed else Failed)
            && (r.ending == EmbeddingBroke ==> r.db.routing == db.routing)
            && (r.ending == EmbeddingBroke || r.ending == SuggestionBroke ==> r.db.drafts == db.drafts)
  {
    if !Closed(db, id) {
      hide Embed, Continue;
      var begun, e := Begun(now, db, id), Embedding(env, feed, now, db, id);
      EmbedTouchesOnly(env, feed, now, begun, id);
      OnlyTicketTransitive(db, begun, e.db, id);
      if e.EmbedDone? { ContinueTouchesOnly(env, AfterEmbed(env, feed, begun, id), now, id, e, rows); }
      OnlyTicketTransitive(db, e.db, Pipeline(env, feed, now, db, id, rows).db, id);
    }
  }

  /** The keys a run deletes include that of every ticket read it may have spoiled. */
  lemma RunCovers(env: Env, feed: Feed, now: Time, db: Db, id: Uuid, rows: seq<SimilarRow>)
    ensures var r := Pipeline(env, feed, now, db, id, rows); Covers(db, r.db, DeletedBy(r.ending, id))
  {
    hide Pipeline;
    RunTouchesOnly(env, feed, now, db, id, rows);
    var r := Pipeline(env, feed, now, db, id, rows);
    forall q | TicketRead(q) && TicketKey(q) !in DeletedBy(r.ending, id) ensures Keeps(db, r.db, q) {
      if q.id != id { OnlyTicketKeepsOthers(db, r.db, id, q); }
    }
  }

  // ---- routing decisions -----------------------------------------------------------------------

  lemma ContinueDecides(env: Env, feed: Feed, now: Time, id: Uuid, e: EmbedResult, rows: seq<SimilarRow>)
    requires e.EmbedDone? && id in e.db.tickets
    ensures var r := Continue(env, feed, now, id, e, rows);
            FourDecisions(now, e.db.routing, r.db.routing, id, ParsedBy(env, feed)) && r.db.routing != e.db.routing
  {
    hide Classify, Continue, ClassifiedDb, ReasonOf;
    ContinueTouchesOnly(env, feed, now, id, e, rows);
    ClassifyTouchesOnly(now, e.db, id, ParsedBy(env, feed));
  }

  /**
   A run adds no routing row exactly when its ticket was closed or the embedding broke. Otherwise it adds
   the four decisions of the classification it settled on, whose labels belong to the taxonomy.
   */
  lemma RunDecides(env: Env, feed: Feed, now: Time, db: Db, id: Uuid, rows: seq<SimilarRow>)
    ensures var r := Pipeline(env, feed, now, db, id, rows);
            && (r.ending == Ignored || r.ending == EmbeddingBroke <==> r.db.routing == db.routing)
            && (r.db.routing != db.routing ==> FourDecisions(now, db.routing, r.db.routing, id, ParsedBy(env, feed)))
            && Sound(ParsedBy(env, feed))
  {
    hide Embed, Continue, ParsedBy, OnlyTicket, FourDecisions, Sound;
    ParsedIsSound(env, feed);
    RunTouchesOnly(env, feed, now, db, id, rows);
    if !Closed(db, id) && Embedding(env, feed, now, db, id).EmbedDone? {
      var e, asked := Embedding(env, feed, now, db, id), AfterEmbed(env, feed, Begun(now, db, id), id);
      SameVerdict(env, feed, asked);
      EmbedTouchesOnly(env, feed, now, Begun(now, db, id), id);
      ContinueTouchesOnly(env, asked, now, id, e, rows);
      ContinueDecides(env, asked, now, id, e, rows);
    }
  }

  lemma SameVerdict(env: Env, a: Feed, b: Feed)
    requires a.classify == b.classify && a.classifyCalls == b.classifyCalls
    ensures ParsedBy(env, a) == ParsedBy(env, b)
  {}

  lemma ParsedIsSound(env: Env, feed: Feed)
    ensures Sound(ParsedBy(env, feed))
  {
    hide Sound, Loop, ParsedOf;
    LoopIsSound(env.settings.thresholds, feed.classify, SightsOf(env, feed.classify), feed.classifyCalls,
                env.settings.classificationRetries + 1, false);
  }

  // ---- the event log ---------------------------------------------------------------------------

  function KindOf(e: EventRow): EventType { e.kind }

  function Kinds(events: seq<EventRow>): seq<EventType> { Map(KindOf, events) }

  /** The log grew by events of these kinds, in this order, all about the ticket and dated alike. */
  ghost predicate Logged(a: Db, b: Db, now: Time, id: Uuid, kinds: seq<EventType>) {
    && a.events <= b.events && Kinds(b.events[|a.events|..]) == kinds
    && forall i :: |a.events| <= i < |b.events| ==> b.events[i].ticketId == id && b.events[i].createdAt == now
  }

  lemma LoggedOne(a: Db, b: Db, now: Time, id: Uuid, e: EventRow)
    requires b.events == a.events + [e] && e.ticketId == id && e.createdAt == now
    ensures Logged(a, b, now, id, [e.kind])
  {}

  lemma LoggedThen(a: Db, b: Db, c: Db, now: Time, id: Uuid, first: seq<EventType>, second: seq<EventType>)
    requires Logged(a, b, now, id, first) && Logged(b, c, now, id, second)
    ensures Logged(a, c, now, id, first + second)
  {}

  function Optional(kind: EventType, present: bool): seq<EventType> { if present then [kind] else [] }

  /** The story of a run that has its embedding. */
  function LaterTale(ending: Ending, drafted: bool): seq<EventType> {
    [ClassificationCompleted, RetrievalCompleted]
    + if ending == Finished then Optional(DraftSuggestionStored, drafted) + [AiProcessingCompleted]
        else [AiProcessingFailed]
  }

  function Tale(ending: Ending, renewed: bool, drafted: bool): seq<EventType> {
    match ending
    case Ignored => []
    case EmbeddingBroke => [AiProcessingStarted, AiProcessingFailed]
    case _ => [AiProcessingStarted] + (Optional(EventType.EmbeddingStored, renewed) + LaterTale(ending, drafted))
  }

  lemma ClassifyTellsTale(now: Time, db: Db, id: Uuid, p: ParsedClassification)
    ensures Logged(db, ClassifiedDb(now, db, id, p), now, id, [ClassificationCompleted])
  {
    hide WithDecisions, Logged, ReasonOf;
    DecisionRows(now, db, id, ReasonOf(p), Decisions(p));
    var after := ClassifiedDb(now, db, id, p);
    LoggedOne(db, after, now, id, after.events[|db.events|]);
  }

  lemma SuggestTellsTale(env: Env, feed: Feed, now: Time, db: Db, id: Uuid, usable: seq<SimilarRow>)
    ensures var r := Suggest(env, feed, now, db, id, usable);
            Logged(db, r.db, now, id, Optional(DraftSuggestionStored, r.Drafted?))
                && (r.Drafted? <==> |r.db.drafts| > |db.drafts|)
  {}

  lemma ContinueTellsTale(env: Env, feed: Feed, now: Time, id: Uuid, e: EmbedResult, rows: seq<SimilarRow>)
    requires e.EmbedDone? && id in e.db.tickets
    ensures var r := Continue(env, feed, now, id, e, rows);
            Logged(e.db, r.db, now, id, LaterTale(r.ending, |r.db.drafts| > |e.db.drafts|))
  {
    hide Classify, ClassifiedDb, Suggest, Logged;
    var found, listed := Searchable(env, feed, now, id, e), Retrieved(env, feed, now, id, e, rows);
    var s, r := Suggest(env, AfterClassify(env, feed), now, listed, id, Usable(env, rows)),
        Continue(env, feed, now, id, e, rows);
    var last := r.db.events[|s.db.events|];
    ClassifyTouchesOnly(now, e.db, id, ParsedBy(env, feed));
    ClassifyTellsTale(now, e.db, id, ParsedBy(env, feed));
    LoggedOne(found, listed, now, id, listed.events[|found.events|]);
    LoggedThen(e.db, found, listed, now, id, [ClassificationCompleted], [RetrievalCompleted]);
    SuggestTellsTale(env, AfterClassify(env, feed), now, listed, id, Usable(env, rows));
    LoggedOne(s.db, r.db, now, id, last);
    LoggedThen(listed, s.db, r.db, now, id, Optional(DraftSuggestionStored, s.Drafted?), [last.kind]);
    LoggedThen(e.db, listed, r.db, now, id, [ClassificationCompleted, RetrievalCompleted],
               Optional(DraftSuggestionStored, s.Drafted?) + [last.kind]);
    assert Optional(DraftSuggestionStored, false) + [AiProcessingFailed] == [AiProcessingFailed];
    assert [ClassificationCompleted] + [RetrievalCompleted] == [ClassificationCompleted, RetrievalCompleted];
  }

  lemma EmbedTellsTale(env: Env, feed: Feed, now: Time, db: Db, id: Uuid)
    requires id in db.tickets
    ensures var r := Embed(env, feed, now, db, id);
            Logged(db, r.db, now, id, Optional(EventType.EmbeddingStored, r.EmbedDone? && r.renewed))
            && (r.EmbedDone? ==> (r.renewed <==> !Reusable(env, db, id)))
  {}

  /**
   The events of a run: started; an embedding stored unless one could be reused; classified and retrieved;
   a draft stored if the run added one; completed. Or a proper beginning of that, then failed.
   */
  lemma RunTellsTale(env: Env, feed: Feed, now: Time, db: Db, id: Uuid, rows: seq<SimilarRow>)
    ensures var r := Pipeline(env, feed, now, db, id, rows);
            Logged(db, r.db, now, id,
                   Tale(r.ending, id in db.tickets && !Reusable(env, db, id), |r.db.drafts| > |db.drafts|))
  {
    hide Embed, Continue, Logged, Reusable;
    if Closed(db, id) {
      LoggedNothing(db, now, id);
    } else {
      var begun, e, r := Begun(now, db, id), Embedding(env, feed, now, db, id), Pipeline(env, feed, now, db, id, rows);
      var stored := Optional(EventType.EmbeddingStored, e.EmbedDone? && e.renewed);
      LoggedOne(db, begun, now, id, begun.events[|db.events|]);
      EmbedTouchesOnly(env, feed, now, begun, id);
      EmbedTellsTale(env, feed, now, begun, id);
      ReusableBegun(env, now, db, id);
      if e.EmbedDone? {
        var later := LaterTale(r.ending, |r.db.drafts| > |e.db.drafts|);
        ContinueTouchesOnly(env, AfterEmbed(env, feed, begun, id), now, id, e, rows);
        ContinueTellsTale(env, AfterEmbed(env, feed, begun, id), now, id, e, rows);
        LoggedThen(begun, e.db, r.db, now, id, stored, later);
        LoggedThen(db, begun, r.db, now, id, [AiProcessingStarted], stored + later);
      } else {
        LoggedOne(e.db, r.db, now, id, r.db.events[|e.db.events|]);
        LoggedThen(begun, e.db, r.db, now, id, stored, [AiProcessingFailed]);
        LoggedThen(db, begun, r.db, now, id, [AiProcessingStarted], stored + [AiProcessingFailed]);
        assert [AiProcessingStarted] + (stored + [AiProcessingFailed]) == [AiProcessingStarted, AiProcessingFailed];
      }
    }
  }

  lemma LoggedNothing(db: Db, now: Time, id: Uuid)
    ensures Logged(db, db, now, id, [])
  {}

  lemma ReusableBegun(env: Env, now: Time, db: Db, id: Uuid)
    requires id in db.tickets
    ensures Reusable(env, Begun(now, db, id), id) == Reusable(env, db, id)
  {}

  // ---- one active embedding, one pending draft -------------------------------------------------

  lemma ContinueKeepsUnique(env: Env, feed: Feed, now: Time, id: Uuid, e: EmbedResult, rows: seq<SimilarRow>)
    requires e.EmbedDone? && id in e.db.tickets && e.db.OnePendingEach()
    ensures var r := Continue(env, feed, now, id, e, rows);
            && r.db.OnePendingEach()
            && (forall d :: d in r.db.drafts && d !in e.db.drafts ==>
                  d.requiresHumanReview && d.ticketId == id && d.status == PendingReview
                  && r.ending == Finished && Usable(env, rows) != [] && !e.db.HasPendingReview(id)
                  && Copies(d, Retry(feed.suggest, feed.suggestCalls, env.settings.suggestionRetries))
                  && SuggestCalls(env, AfterClassify(env, feed), Retrieved(env, feed, now, id, e, rows), id,
                                  Usable(env, rows))
                     == Attempts(feed.suggest, feed.suggestCalls, env.settings.suggestionRetries))
  {
    hide Classify, ClassifiedDb, Suggest, Copies, Retry, Attempts;
    ClassifyTouchesOnly(now, e.db, id, ParsedBy(env, feed));
    OneDraftAtATime(env, AfterClassify(env, feed), now, Retrieved(env, feed, now, id, e, rows), id, Usable(env, rows));
  }

  /** No run adds a second active embedding or a second pending draft, whatever the provider does. */
  lemma RunKeepsUnique(env: Env, feed: Feed, now: Time, db: Db, id: Uuid, rows: seq<SimilarRow>)
    requires db.OneActiveEach() && db.OnePendingEach()
    ensures Pipeline(env, feed, now, db, id, rows).db.OneActiveEach()
    ensures Pipeline(env, feed, now, db, id, rows).db.OnePendingEach()
  {
    if !Closed(db, id) {
      hide Embed, Continue;
      var begun, e := Begun(now, db, id), Embedding(env, feed, now, db, id);
      EmbedTouchesOnly(env, feed, now, begun, id);
      EmbedActivates(env, feed, now, begun, id);
      if e.EmbedDone? {
        ContinueTouchesOnly(env, AfterEmbed(env, feed, begun, id), now, id, e, rows);
        ContinueKeepsUnique(env, AfterEmbed(env, feed, begun, id), now, id, e, rows);
      }
    }
  }

  /**
   Every draft a run adds awaits a human, follows no other pending one, rests on usable matches, and holds
   what the last suggestion call returned.
   */
  lemma RunDraftsForReview(env: Env, feed: Feed, now: Time, db: Db, id: Uuid, rows: seq<SimilarRow>, d: DraftRow)
    requires db.OnePendingEach() && d in Pipeline(env, feed, now, db, id, rows).db.drafts && d !in db.drafts
    ensures d.requiresHumanReview && d.ticketId == id && d.status == PendingReview && !db.HasPendingReview(id)
    ensures Pipeline(env, feed, now, db, id, rows).ending == Finished
    ensures Usable(env, rows) != []
    ensures forall r :: r in Usable(env, rows) ==> r in rows && r.distance <= env.settings.usableMaxDistance
    ensures var calls := FeedAfter(env, feed, now, db, id, rows).suggestCalls;
            calls > 0 && Copies(d, feed.suggest(calls - 1))
  {
    hide Embed, Continue, Suggest, SuggestCalls, Retrieved;
    RunTouchesOnly(env, feed, now, db, id, rows);
    var begun, e := Begun(now, db, id), Embedding(env, feed, now, db, id);
    EmbedTouchesOnly(env, feed, now, begun, id);
    ContinueKeepsUnique(env, AfterEmbed(env, feed, begun, id), now, id, e, rows);
  }

  // ---- what the search of a run looks at -------------------------------------------------------

  /** A search that excludes a ticket does not see what happens to that ticket. */
  lemma OwnRowsDoNotMatter(distance: (Vector, Vector) -> real, a: Db, b: Db, now: Time, s: Search, id: Uuid)
    requires OnlyTicket(a, b, id) && s.exclude == Some(id)
    ensures Candidates(distance, a, now, s) == Candidates(distance, b, now, s)
  {
    forall e | e in a.embeddings && Eligible(a, now, s, e)
      ensures e in b.embeddings && Eligible(b, now, s, e) && RowOf(distance, a, s, e) == RowOf(distance, b, s, e)
    {}
    forall e | e in b.embeddings && Eligible(b, now, s, e)
      ensures e in a.embeddings && Eligible(a, now, s, e) && RowOf(distance, a, s, e) == RowOf(distance, b, s, e)
    {}
  }

  /**
   A run that gets to retrieve leaves exactly one active embedding. It was made from the ticket's text, and the matches
   of the run are those a search with its very vector, model and dimension finds in the database as it was.
   */
  lemma RunUsesItsEmbedding(env: Env, feed: Feed, distance: (Vector, Vector) -> real, now: Time, db: Db, id: Uuid,
                            rows: seq<SimilarRow>)
    requires db.OneActiveEach() && Matches(env, feed, distance, now, db, id, rows)
    requires Pipeline(env, feed, now, db, id, rows).ending !in {Ignored, EmbeddingBroke}
    ensures var after := Pipeline(env, feed, now, db, id, rows).db;
            && after.OneActiveEach() && after.ActiveOf(id).Some?
            && var active := after.ActiveOf(id).value;
               && active.textHash == TextHash(env, db.tickets[id])
               && NearestRows(distance, db, now, SearchFor(env, id, active.vector, active.model, active.dimension),
                              rows)
               && Finds(env, distance, db, now, id, active.vector, active.model, active.dimension, rows)
  {
    hide Embed, Continue, ClassifiedDb, Classify, NearestRows, Finds;
    RunTouchesOnly(env, feed, now, db, id, rows);
    var begun, e := Begun(now, db, id), Embedding(env, feed, now, db, id);
    var asked := AfterEmbed(env, feed, begun, id);
    EmbedTouchesOnly(env, feed, now, begun, id);
    EmbedActivates(env, feed, now, begun, id);
    ContinueTouchesOnly(env, asked, now, id, e, rows);
    SearchedAsBefore(env, asked, distance, now, db, id, e, rows);
    SearchFinds(env, distance, db, now, id, e.vector, e.model, e.dimension, rows);
  }

  lemma SearchedAsBefore(env: Env, feed: Feed, distance: (Vector, Vector) -> real, now: Time, db: Db, id: Uuid,
                         e: EmbedResult,
                         rows: seq<SimilarRow>)
    requires id in db.tickets && e.EmbedDone? && id in e.db.tickets && OnlyTicket(Begun(now, db, id), e.db, id)
    requires Retrieves(env, feed, distance, now, id, e, rows)
    ensures NearestRows(distance, db, now, SearchFor(env, id, e.vector, e.model, e.dimension), rows)
  {
    hide ClassifiedDb, Classify;
    ClassifyTouchesOnly(now, e.db, id, ParsedBy(env, feed));
    OnlyTicketTransitive(db, Begun(now, db, id), e.db, id);
    OnlyTicketTransitive(db, e.db, Searchable(env, feed, now, id, e), id);
    OwnRowsDoNotMatter(distance, db, Searchable(env, feed, now, id, e), now,
                       SearchFor(env, id, e.vector, e.model, e.dimension), id);
  }

  // ---- provider calls --------------------------------------------------------------------------

  /** The most calls a retry limit allows. */
  function Most(limit: int): nat { if limit < 0 then 0 else limit + 1 }

  /**
   A run makes no more calls of each kind than its retry limit allows, no embedding call when the active
   embedding can be reused, and none of the later calls when the embedding broke.
   */
  lemma RunBoundsCalls(env: Env, feed: Feed, now: Time, db: Db, id: Uuid, rows: seq<SimilarRow>)
    ensures var after := FeedAfter(env, feed, now, db, id, rows);
            var embeds, classifies, suggests := after.embedCalls - feed.embedCalls,
                after.classifyCalls - feed.classifyCalls, after.suggestCalls - feed.suggestCalls;
            && 0 <= embeds <= Most(env.settings.embeddingRetries)
            && 0 <= classifies <= Most(env.settings.classificationRetries)
            && 0 <= suggests <= Most(env.settings.suggestionRetries)
            && (id in db.tickets && Reusable(env, db, id) ==> embeds == 0)
            && (Closed(db, id) ==> embeds == classifies == suggests == 0)
            && (Pipeline(env, feed, now, db, id, rows).ending == EmbeddingBroke ==> classifies == suggests == 0)
  {
    if !Closed(db, id) {
      hide Embed, Continue, Loop, Reusable, Retrieved, Asks;
      ReusableBegun(env, now, db, id);
      RetryIsFirstSuccess(feed.embed, feed.embedCalls, env.settings.embeddingRetries);
      RetryIsFirstSuccess(feed.suggest, feed.suggestCalls, env.settings.suggestionRetries);
      LoopHasClosedForm(SightsOf(env, feed.classify), feed.classifyCalls, env.settings.classificationRetries + 1,
                        false);
      NoAttempts(env, feed);
    }
  }

  lemma NoAttempts(env: Env, feed: Feed)
    ensures env.settings.classificationRetries < 0 ==> Classify(env, feed).calls == 0
  {}

  // ---- what the last event says ----------------------------------------------------------------

  function LastEvent(db: Db): EventRow
    requires db.events != []
  {
    db.events[|db.events| - 1]
  }

  lemma ContinueEnds(env: Env, feed: Feed, now: Time, id: Uuid, e: EmbedResult, rows: seq<SimilarRow>)
    requires e.EmbedDone? && id in e.db.tickets
    ensures var r := Continue(env, feed, now, id, e, rows);
            && r.db.events != []
            && (r.ending == Finished ==>
                  LastEvent(r.db).payload == Some(Summary(e, ParsedBy(env, feed), Usable(env, rows), Weak(env, rows),
                                                          |r.db.drafts| > |e.db.drafts|)))
  {
    hide Classify, ClassifiedDb, Suggest;
    ClassifyTouchesOnly(now, e.db, id, ParsedBy(env, feed));
    SuggestTellsTale(env, AfterClassify(env, feed), now, Retrieved(env, feed, now, id, e, rows), id, Usable(env, rows));
  }

  /**
   The completion event tells the truth about the database it closes: the embedding now active, how many
   matches were usable and weak, whether a draft was added, and the classification on the four decisions.
   */
  lemma RunReportsTruthfully(env: Env, feed: Feed, distance: (Vector, Vector) -> real, now: Time, db: Db, id: Uuid,
                             rows: seq<SimilarRow>)
    requires db.OneActiveEach() && Matches(env, feed, distance, now, db, id, rows)
    requires Pipeline(env, feed, now, db, id, rows).ending == Finished
    ensures var after := Pipeline(env, feed, now, db, id, rows).db;
            && after.events != [] && LastEvent(after).payload.Some? && LastEvent(after).payload.value.CompletedPayload?
            && after.ActiveOf(id).Some?
            && var said, active := LastEvent(after).payload.value, after.ActiveOf(id).value;
            && said.model == active.model && said.dimension == active.dimension
            && Cut(env, rows, said.matches, said.weak, said.top)
            && (said.drafted <==> |after.drafts| > |db.drafts|)
            && FourDecisions(now, db.routing, after.routing, id, said.parsed) && Sound(said.parsed)
  {
    hide Sound, Embed, Continue, ClassifiedDb, Classify, NearestRows, Usable, Weak, FourDecisions, Cut;
    RunDecides(env, feed, now, db, id, rows);
    var begun, e := Begun(now, db, id), Embedding(env, feed, now, db, id);
    var asked := AfterEmbed(env, feed, begun, id);
    SameVerdict(env, feed, asked);
    EmbedTouchesOnly(env, feed, now, begun, id);
    EmbedActivates(env, feed, now, begun, id);
    ContinueTouchesOnly(env, asked, now, id, e, rows);
    ContinueEnds(env, asked, now, id, e, rows);
    MatchesPartition(env, distance, Searchable(env, asked, now, id, e), now,
                     SearchFor(env, id, e.vector, e.model, e.dimension), rows);
  }

  /** The outcome of the last call a failed run made. */
  function LastOutcome(feed: Feed, after: Feed, ending: Ending): Option<Exc> {
    if ending == EmbeddingBroke && after.embedCalls > 0 && feed.embed(after.embedCalls - 1).Raise? then
      Some(feed.embed(after.embedCalls - 1).exc)
    else if ending == SuggestionBroke && after.suggestCalls > 0 && feed.suggest(after.suggestCalls - 1).Raise? then
      Some(feed.suggest(after.suggestCalls - 1).exc)
    else None
  }

  ghost predicate Blames(e: EventRow, exc: Exc) {
    && e.kind == AiProcessingFailed && e.payload.Some? && e.payload.value.FailurePayload?
    && e.payload.value.reason == ExcName(exc) && e.payload.value.message == Prefix(ExcMessage(exc), 200)
  }

  /** The failure event names the exception of the last call made, with at most 200 characters of its message. */
  lemma RunReportsFailure(env: Env, feed: Feed, now: Time, db: Db, id: Uuid, rows: seq<SimilarRow>)
    requires env.settings.embeddingRetries >= 0 && env.settings.suggestionRetries >= 0
    ensures var r := Pipeline(env, feed, now, db, id, rows);
            var last := LastOutcome(feed, FeedAfter(env, feed, now, db, id, rows), r.ending);
            r.ending == EmbeddingBroke || r.ending == SuggestionBroke ==>
              last.Some? && r.db.events != [] && Blames(LastEvent(r.db), last.value)
  {
    if !Closed(db, id) {
      hide Embed, Continue, Reusable, OnlyTicket, Broken, Blames;
      var begun, e := Begun(now, db, id), Embedding(env, feed, now, db, id);
      EmbedTouchesOnly(env, feed, now, begun, id);
      EmbedBreaks(env, feed, now, begun, id);
      if e.EmbedDone? {
        ContinueBreaks(env, AfterEmbed(env, feed, begun, id), now, id, e, rows);
      } else {
        BrokenBlames(now, e.db, id, e.exc);
      }
    }
  }

  lemma BrokenBlames(now: Time, db: Db, id: Uuid, exc: Exc)
    ensures var after := Broken(now, db, id, exc); after.events != [] && Blames(LastEvent(after), exc)
  {}

  lemma EmbedBreaks(env: Env, feed: Feed, now: Time, db: Db, id: Uuid)
    requires id in db.tickets && env.settings.embeddingRetries >= 0
    ensures var r, after := Embed(env, feed, now, db, id), AfterEmbed(env, feed, db, id);
            r.EmbedFailed? ==> after.embedCalls > 0 && feed.embed(after.embedCalls - 1) == Raise(r.exc)
  {}

  lemma ContinueBreaks(env: Env, feed: Feed, now: Time, id: Uuid, e: EmbedResult, rows: seq<SimilarRow>)
    requires e.EmbedDone? && env.settings.suggestionRetries >= 0
    ensures var r, after := Continue(env, feed, now, id, e, rows), FeedBeyond(env, feed, now, id, e, rows);
            r.ending == SuggestionBroke ==>
              && after.suggestCalls > 0 && feed.suggest(after.suggestCalls - 1).Raise? && r.db.events != []
              && Blames(LastEvent(r.db), feed.suggest(after.suggestCalls - 1).exc)
  {
    hide Classify, Retrieved;
    RetryIsFirstSuccess(feed.suggest, feed.suggestCalls, env.settings.suggestionRetries);
  }
}
