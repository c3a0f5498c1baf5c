/** What a run makes of the outcomes the provider returns, told by those outcomes and the rows it leaves. */
module RunOutcomes {
  import opened Common
  import opened CacheKeys
  import opened Domain
  import opened CacheModel
  import opened Provider
  import opened ClassificationPolicy
  import opened EmbeddingService
  import opened ClassificationService
  import opened RetrievalService
  import opened SuggestionService
  import opened AiWorkflowService
  import opened WorkflowTheorems

  // ---- the embedding ---------------------------------------------------------------------------

  lemma BegunAlike(env: Env, now: Time, db: Db, id: Uuid)
    requires id in db.tickets
    ensures Reuses(env, Begun(now, db, id), id) == Reuses(env, db, id)
    ensures Begun(now, db, id).OneActiveEach() == db.OneActiveEach()
  {}

  /**
   Where an active embedding of the very text can be reused, and regeneration is not forced, a run asks for none and
   stores none. Otherwise it asks, breaks exactly when no allowed call succeeds, and else stores one embedding more,
   the only active one of its ticket: made from its text, and what the last call returned.
   */
  lemma RunStoresEmbedding(env: Env, feed: Feed, now: Time, db: Db, id: Uuid, rows: seq<SimilarRow>)
    requires db.OneActiveEach() && id in db.tickets && db.tickets[id].status !in {Routed, Failed}
    ensures var r, after := Pipeline(env, feed, now, db, id, rows), FeedAfter(env, feed, now, db, id, rows);
            var ticket := db.tickets[id];
            && r.db.OneActiveEach()
            && if Reuses(env, db, id) then
                 r.ending != EmbeddingBroke && after.embedCalls == feed.embedCalls && r.db.embeddings == db.embeddings
               else
                 && (env.settings.embeddingRetries >= 0 ==> after.embedCalls > feed.embedCalls)
                 && (r.ending == EmbeddingBroke
                     <==> !SomeOk(feed.embed, feed.embedCalls, env.settings.embeddingRetries))
                 && (r.ending == EmbeddingBroke ==>
                       if env.settings.forceRegenerate then r.db.embeddings == db.embeddings
                       else r.db.ActiveOf(id) == None)
                 && (r.ending != EmbeddingBroke ==>
                       && after.embedCalls > feed.embedCalls && |r.db.embeddings| == |db.embeddings| + 1
                       && r.db.ActiveOf(id).Some?
                       && Embeds(env, feed.embed(after.embedCalls - 1), r.db.ActiveOf(id).value)
                       && r.db.ActiveOf(id).value.textHash == env.textHash(ticket.subject, ticket.body))
  {
    hide Embed, Continue, Embeds, Reuses, SomeOk, ActiveIn, AfterEmbed, OnlyTicket;
    var begun, e := Begun(now, db, id), Embedding(env, feed, now, db, id);
    BegunAlike(env, now, db, id);
    EmbedTouchesOnly(env, feed, now, begun, id);
    EmbedActivates(env, feed, now, begun, id);
    EmbedSays(env, feed, now, begun, id);
    if e.EmbedDone? { ContinueTouchesOnly(env, AfterEmbed(env, feed, begun, id), now, id, e, rows); }
  }

  // ---- the draft -------------------------------------------------------------------------------

  /** Some match is near enough to draft from. */
  predicate SomeNear(env: Env, rows: seq<SimilarRow>) {
    exists r :: r in rows && r.distance <= env.settings.usableMaxDistance
  }

  lemma NearIsUsable(env: Env, rows: seq<SimilarRow>)
    ensures SomeNear(env, rows) <==> Usable(env, rows) != []
  {
    if SomeNear(env, rows) {
      var r :| r in rows && r.distance <= env.settings.usableMaxDistance;
      assert r in Usable(env, rows);
    } else {
      FilterNone(Near(env), rows);
    }
  }

  /**
   What becomes of the drafts `a` of a run that got to retrieve. Without a near match, or with a draft awaiting review,
   no suggestion is asked for. Else one draft is added if some allowed call succeeds, and if none does the run breaks,
   having made them all.
   */
  ghost predicate Drafting(env: Env, feed: Feed, after: Feed, now: Time, a: Db, r: Run, id: Uuid,
                           rows: seq<SimilarRow>) {
    if !SomeNear(env, rows) || AwaitsReview(a, id) then
      r.ending == Finished && r.db.drafts == a.drafts && after.suggestCalls == feed.suggestCalls
    else if SomeOk(feed.suggest, feed.suggestCalls, env.settings.suggestionRetries) then
      r.ending == Finished && OneDraftMore(feed, after, now, a.drafts, r.db.drafts, id)
    else
      && r.ending == SuggestionBroke && r.db.drafts == a.drafts
      && (env.settings.suggestionRetries >= 0 ==>
            after.suggestCalls == feed.suggestCalls + env.settings.suggestionRetries + 1)
  }

  lemma ContinueDrafts(env: Env, feed: Feed, now: Time, id: Uuid, e: EmbedResult, rows: seq<SimilarRow>)
    requires e.EmbedDone? && id in e.db.tickets
    ensures Drafting(env, feed, FeedBeyond(env, feed, now, id, e, rows), now, e.db,
                     Continue(env, feed, now, id, e, rows), id, rows)
  {
    hide Classify, ClassifiedDb, Suggest, SuggestCalls, SomeNear, SomeOk, OneDraftMore, OnlyTicket, FourDecisions;
    var classified, listed := AfterClassify(env, feed), Retrieved(env, feed, now, id, e, rows);
    ClassifyTouchesOnly(now, e.db, id, ParsedBy(env, feed));
    NearIsUsable(env, rows);
    SuggestSays(env, classified, now, listed, id, Usable(env, rows));
    SameFeedDrafts(feed, classified, FeedBeyond(env, feed, now, id, e, rows), now, listed.drafts,
                   Suggest(env, classified, now, listed, id, Usable(env, rows)).db.drafts, id);
  }

  lemma SameFeedDrafts(feed: Feed, asked: Feed, after: Feed, now: Time, a: seq<DraftRow>, b: seq<DraftRow>, id: Uuid)
    requires asked.suggest == feed.suggest && asked.suggestCalls == feed.suggestCalls
    ensures OneDraftMore(asked, after, now, a, b, id) == OneDraftMore(feed, after, now, a, b, id)
  {}

  /** A run that got to retrieve adds exactly the drafts that the matches and the suggestion calls call for. */
  lemma RunDraftsExactly(env: Env, feed: Feed, now: Time, db: Db, id: Uuid, rows: seq<SimilarRow>)
    requires Pipeline(env, feed, now, db, id, rows).ending !in {Ignored, EmbeddingBroke}
    ensures Drafting(env, feed, FeedAfter(env, feed, now, db, id, rows), now, db,
                     Pipeline(env, feed, now, db, id, rows), id, rows)
  {
    hide Embed, Continue, SomeNear, SomeOk, OneDraftMore, OnlyTicket;
    var begun, e := Begun(now, db, id), Embedding(env, feed, now, db, id);
    var asked := AfterEmbed(env, feed, begun, id);
    EmbedTouchesOnly(env, feed, now, begun, id);
    ContinueDrafts(env, asked, now, id, e, rows);
    SameFeedDrafts(feed, asked, FeedAfter(env, feed, now, db, id, rows), now, db.drafts,
                   Pipeline(env, feed, now, db, id, rows).db.drafts, id);
  }

  // ---- how a run ends --------------------------------------------------------------------------

  /**
   A run does nothing on a ticket unknown, routed or failed. It fails over the embedding exactly when it needs one and
   no allowed call gives it, and over the draft exactly when it then wants one and no allowed call gives it.
   */
  lemma RunEnds(env: Env, feed: Feed, now: Time, db: Db, id: Uuid, rows: seq<SimilarRow>)
    requires db.OneActiveEach()
    ensures var ending, s := Pipeline(env, feed, now, db, id, rows).ending, env.settings;
            var open := id in db.tickets && db.tickets[id].status !in {Routed, Failed};
            var embeds := open && (Reuses(env, db, id) || SomeOk(feed.embed, feed.embedCalls, s.embeddingRetries));
            var wants := SomeNear(env, rows) && !AwaitsReview(db, id);
            var breaks := wants && !SomeOk(feed.suggest, feed.suggestCalls, s.suggestionRetries);
            && (ending == Ignored <==> !open)
            && (ending == EmbeddingBroke <==> open && !embeds)
            && (ending == SuggestionBroke <==> embeds && breaks)
            && (ending == Finished <==> embeds && !breaks)
  {
    hide Pipeline, FeedAfter, Closed, Embeds, Reuses, SomeOk, ActiveIn, SomeNear, AwaitsReview, OnlyTicket;
    var r := Pipeline(env, feed, now, db, id, rows);
    RunTouchesOnly(env, feed, now, db, id, rows);
    if id in db.tickets && db.tickets[id].status !in {Routed, Failed} {
      RunStoresEmbedding(env, feed, now, db, id, rows);
      if r.ending != EmbeddingBroke { RunDraftsExactly(env, feed, now, db, id, rows); }
    }
  }

  // ---- the decisions ---------------------------------------------------------------------------

  /**
   The four routing rows of a run that got its embedding, field by field over the raw result of the call that decided.
   Without a usable one they stand in for it, the reason telling what went wrong.
   */
  lemma RunPersists(env: Env, feed: Feed, now: Time, db: Db, id: Uuid, rows: seq<SimilarRow>)
    requires Pipeline(env, feed, now, db, id, rows).ending !in {Ignored, EmbeddingBroke}
    ensures var b, t := Pipeline(env, feed, now, db, id, rows).db.routing, env.settings.thresholds;
            var end := FeedAfter(env, feed, now, db, id, rows).classifyCalls;
            && end >= feed.classifyCalls
            && if end > feed.classifyCalls && Classifies(feed.classify(end - 1)) then
                 var raw := feed.classify(end - 1).value;
                 var sure, routed := raw.classificationConfidence, raw.routingConfidence;
                 RowsSay(now, db.routing, b, id,
                         if sure >= t.medium then raw.category else "unknown",
                         if sure >= t.medium && routed >= t.routingMin then raw.team else "triage",
                         if sure >= t.medium then raw.priority else "normal",
                         if raw.escalation == "" then "none" else raw.escalation,
                         sure, routed,
                         if sure < t.medium then Some("low_classification_confidence")
                         else if routed < t.routingMin then Some("low_routing_confidence")
                         else if sure < t.high then Some("human_review_required") else None)
               else
                 RowsSay(now, db.routing, b, id, "unknown", "triage", "normal", "none", 0.0, 0.0,
                         Some(Excuse(feed.classify, feed.classifyCalls, end - feed.classifyCalls)))
  {
    hide Pipeline, FeedAfter, RowsSay, Labelled, IsMalformed, MalformedBefore, TwiceMalformed, Policy, OnlyTicket;
    var p := ParsedBy(env, feed);
    var end := FeedAfter(env, feed, now, db, id, rows).classifyCalls;
    RunSettlesOn(env, feed, now, db, id, rows);
    if end > feed.classifyCalls && Classifies(feed.classify(end - 1)) {
      PolicyTiers(feed.classify(end - 1).value, env.settings.thresholds, p);
    } else {
      assert Excuse(feed.classify, feed.classifyCalls, end - feed.classifyCalls) != "";
    }
  }

  /** The loop's calls are those counted, and its result is the one on the rows. */
  lemma RunSettlesOn(env: Env, feed: Feed, now: Time, db: Db, id: Uuid, rows: seq<SimilarRow>)
    requires Pipeline(env, feed, now, db, id, rows).ending !in {Ignored, EmbeddingBroke}
    ensures var r, end := Pipeline(env, feed, now, db, id, rows), FeedAfter(env, feed, now, db, id, rows).classifyCalls;
            && FourDecisions(now, db.routing, r.db.routing, id, ParsedBy(env, feed))
            && end >= feed.classifyCalls
            && SettlesOn(env, feed.classify, feed.classifyCalls, end - feed.classifyCalls, ParsedBy(env, feed))
  {
    hide Embed, Continue, FourDecisions, SettlesOn, Loop, ParsedOf, OnlyTicket, Retrieved;
    RunDecides(env, feed, now, db, id, rows);
    ClassifySettles(env, feed);
  }

  // ---- the matches -----------------------------------------------------------------------------

  /** What a run works with is what may match the embedding it leaves active, nearest first. */
  lemma RunMatches(env: Env, feed: Feed, distance: (Vector, Vector) -> real, now: Time, db: Db, id: Uuid,
                   rows: seq<SimilarRow>)
    requires db.OneActiveEach() && Matches(env, feed, distance, now, db, id, rows)
    requires Pipeline(env, feed, now, db, id, rows).ending !in {Ignored, EmbeddingBroke}
    ensures var active := Pipeline(env, feed, now, db, id, rows).db.ActiveOf(id);
            && active.Some?
            && Finds(env, distance, db, now, id, active.value.vector, active.value.model, active.value.dimension, rows)
  {
    hide Pipeline, Finds, NearestRows;
    RunUsesItsEmbedding(env, feed, distance, now, db, id, rows);
  }

  // ---- what the events say ---------------------------------------------------------------------

  /** What an event of a run says: it agrees with the provider's outcomes, the matches, and the rows the run leaves. */
  ghost predicate Says(env: Env, feed: Feed, after: Feed, a: Db, b: Db, id: Uuid, rows: seq<SimilarRow>,
                       kind: EventType, said: Payload) {
    match kind
    case AiProcessingStarted => id in a.tickets && said == StatusPayload(a.tickets[id].status)
    case EmbeddingStored =>
      && said.EmbeddingPayload? && SaysEmbedding(feed, after, b, id, said.provider, said.model, said.dimension)
      && said.textHash == b.ActiveOf(id).value.textHash
    case ClassificationCompleted => said.ClassificationPayload? && SaysSettled(env, feed, after, said.parsed)
    case RetrievalCompleted => said.RetrievalPayload? && Cut(env, rows, said.usable, said.weak, said.top)
    case DraftSuggestionStored => said.DraftPayload? && SaysDraft(env, b, id, rows, said)
    case AiProcessingCompleted =>
      && said.CompletedPayload? && SaysEmbedding(feed, after, b, id, said.provider, said.model, said.dimension)
      && SaysSettled(env, feed, after, said.parsed) && Cut(env, rows, said.matches, said.weak, said.top)
      && (said.drafted <==> |b.drafts| > |a.drafts|)
    case AiProcessingFailed => said.FailurePayload?
    case _ => false
  }

  /** Model and dimension of the active embedding; the provider is the one that made it, if it was made in this run. */
  ghost predicate SaysEmbedding(feed: Feed, after: Feed, b: Db, id: Uuid, provider: string, model: string,
                                dimension: int) {
    && b.ActiveOf(id).Some? && model == b.ActiveOf(id).value.model && dimension == b.ActiveOf(id).value.dimension
    && if after.embedCalls == feed.embedCalls then provider == feed.name
       else after.embedCalls > 0 && feed.embed(after.embedCalls - 1).Ok?
            && provider == feed.embed(after.embedCalls - 1).value.provider
  }

  ghost predicate SaysSettled(env: Env, feed: Feed, after: Feed, p: ParsedClassification) {
    && after.classifyCalls >= feed.classifyCalls
    && SettlesOn(env, feed.classify, feed.classifyCalls, after.classifyCalls - feed.classifyCalls, p)
  }

  /** The last draft, its length, and how many matches it was drafted from. */
  ghost predicate SaysDraft(env: Env, b: Db, id: Uuid, rows: seq<SimilarRow>, said: Payload)
    requires said.DraftPayload?
  {
    && b.drafts != [] && 0 < said.contextCount <= |rows|
    && var d := b.drafts[|b.drafts| - 1];
    && d.ticketId == id && said.provider == d.provider && said.model == d.model && said.length == |d.text|
    && Cut(env, rows, said.contextCount, |rows| - said.contextCount, Some(rows[0].distance))
  }

  lemma EmbedLogs(env: Env, feed: Feed, now: Time, db: Db, id: Uuid)
    requires id in db.tickets
    ensures var r := Embed(env, feed, now, db, id);
            || r.db.events == db.events
            || (r.EmbedDone? && r.renewed
                && r.db.events == db.events + [EventRow(r.db.nextId - 1, id, EventType.EmbeddingStored,
                                                        Some(EmbeddingPayload(r.model, r.dimension, r.provider,
                                                                              TextHash(env, db.tickets[id]))), now)])
  {
    hide Retry, ActiveIn;
  }

  lemma ClassifyLogs(now: Time, db: Db, id: Uuid, p: ParsedClassification)
    ensures var after := ClassifiedDb(now, db, id, p).events;
            && |after| == |db.events| + 1 && after[..|db.events|] == db.events
            && after[|db.events|].kind == EventType.ClassificationCompleted
            && after[|db.events|].payload == Some(ClassificationPayload(p))
  {
    hide WithDecisions, ReasonOf;
    DecisionRows(now, db, id, ReasonOf(p), Decisions(p));
  }

  /** What the later events of a run say, by its stages: the classification, the matches, the draft, the summary. */
  ghost predicate Later(p: ParsedClassification, summary: Payload, b: Db, id: Uuid, usable: seq<SimilarRow>,
                        weak: seq<SimilarRow>, kind: EventType, said: Payload) {
    match kind
    case ClassificationCompleted => said == ClassificationPayload(p)
    case RetrievalCompleted => said == RetrievalPayload(|usable|, |weak|, Top(usable))
    case DraftSuggestionStored =>
      && usable != [] && b.drafts != []
      && var d := b.drafts[|b.drafts| - 1];
         d.ticketId == id && said == DraftPayload(d.provider, d.model, |d.text|, |usable|)
    case AiProcessingCompleted => said == summary
    case AiProcessingFailed => said.FailurePayload?
    case _ => false
  }

  lemma ContinueLogs(env: Env, feed: Feed, now: Time, id: Uuid, e: EmbedResult, rows: seq<SimilarRow>)
    requires e.EmbedDone? && id in e.db.tickets
    ensures var r, p := Continue(env, feed, now, id, e, rows), ParsedBy(env, feed);
            var usable, weak := Usable(env, rows), Weak(env, rows);
            var summary := Summary(e, p, usable, weak, |r.db.drafts| > |e.db.drafts|);
            && e.db.events <= r.db.events
            && forall i :: |e.db.events| <= i < |r.db.events| ==>
                 var ev := r.db.events[i];
                 ev.payload.Some? && Later(p, summary, r.db, id, usable, weak, ev.kind, ev.payload.value)
  {
    hide Classify, ClassifiedDb, Retry, Attempts, Filter, OnlyTicket, FourDecisions, Top;
    ClassifyTouchesOnly(now, e.db, id, ParsedBy(env, feed));
    ClassifyLogs(now, e.db, id, ParsedBy(env, feed));
  }

  lemma LaterSays(env: Env, feed: Feed, after: Feed, a: Db, b: Db, id: Uuid, rows: seq<SimilarRow>, e: EmbedResult,
                  p: ParsedClassification, kind: EventType, said: Payload)
    requires e.EmbedDone? && Later(p, Summary(e, p, Usable(env, rows), Weak(env, rows), |b.drafts| > |a.drafts|), b, id,
                                   Usable(env, rows), Weak(env, rows), kind, said)
    requires SaysSettled(env, feed, after, p) && SaysEmbedding(feed, after, b, id, e.provider, e.model, e.dimension)
    requires Cut(env, rows, |Usable(env, rows)|, |Weak(env, rows)|, Top(Usable(env, rows)))
    ensures Says(env, feed, after, a, b, id, rows, kind, said)
  {
    hide SaysSettled, SaysEmbedding, Usable, Weak;
  }

  /** What the stages report of the embedding, the classification and the matches is so. */
  lemma StagesSay(env: Env, feed: Feed, distance: (Vector, Vector) -> real, now: Time, db: Db, id: Uuid,
                  rows: seq<SimilarRow>)
    requires db.OneActiveEach() && Matches(env, feed, distance, now, db, id, rows)
    requires !Closed(db, id) && Embedding(env, feed, now, db, id).EmbedDone?
    ensures var b, after := Pipeline(env, feed, now, db, id, rows).db, FeedAfter(env, feed, now, db, id, rows);
            var e := Embedding(env, feed, now, db, id);
            && SaysSettled(env, feed, after, ParsedBy(env, feed))
            && SaysEmbedding(feed, after, b, id, e.provider, e.model, e.dimension)
            && b.ActiveOf(id).value.textHash == TextHash(env, db.tickets[id])
            && Cut(env, rows, |Usable(env, rows)|, |Weak(env, rows)|, Top(Usable(env, rows)))
  {
    hide Embed, Continue, Reuses, SomeOk, ActiveIn, AfterEmbed, OnlyTicket, SettlesOn, ParsedBy, NearestRows, Usable,
      Weak, Top, Cut, FourDecisions, Retrieved, SuggestCalls, Classify;
    var begun, e := Begun(now, db, id), Embedding(env, feed, now, db, id);
    var asked := AfterEmbed(env, feed, begun, id);
    BegunAlike(env, now, db, id);
    EmbedTouchesOnly(env, feed, now, begun, id);
    EmbedActivates(env, feed, now, begun, id);
    EmbedSays(env, feed, now, begun, id);
    ContinueTouchesOnly(env, asked, now, id, e, rows);
    RunSettlesOn(env, feed, now, db, id, rows);
    MatchesPartition(env, distance, Searchable(env, asked, now, id, e), now,
                     SearchFor(env, id, e.vector, e.model, e.dimension), rows);
  }

  lemma StartedSays(env: Env, feed: Feed, after: Feed, a: Db, b: Db, id: Uuid, rows: seq<SimilarRow>)
    requires id in a.tickets
    ensures Says(env, feed, after, a, b, id, rows, AiProcessingStarted, StatusPayload(a.tickets[id].status))
  {}

  lemma FailedSays(env: Env, feed: Feed, after: Feed, a: Db, b: Db, id: Uuid, rows: seq<SimilarRow>, said: Payload)
    requires said.FailurePayload?
    ensures Says(env, feed, after, a, b, id, rows, AiProcessingFailed, said)
  {}

  lemma StoredSays(env: Env, feed: Feed, after: Feed, a: Db, b: Db, id: Uuid, rows: seq<SimilarRow>, e: EmbedResult,
                   textHash: Digest)
    requires e.EmbedDone? && SaysEmbedding(feed, after, b, id, e.provider, e.model, e.dimension)
    requires b.ActiveOf(id).value.textHash == textHash
    ensures Says(env, feed, after, a, b, id, rows, EventType.EmbeddingStored,
                 EmbeddingPayload(e.model, e.dimension, e.provider, textHash))
  {}

  /** The events from number `from` on are so. */
  ghost predicate AllSay(env: Env, feed: Feed, after: Feed, a: Db, b: Db, id: Uuid, rows: seq<SimilarRow>, from: nat) {
    forall i :: from <= i < |b.events| ==>
      b.events[i].payload.Some?
      && Says(env, feed, after, a, b, id, rows, b.events[i].kind, b.events[i].payload.value)
  }

  lemma OneMoreSays(env: Env, feed: Feed, after: Feed, a: Db, b: Db, id: Uuid, rows: seq<SimilarRow>, from: nat)
    requires AllSay(env, feed, after, a, b, id, rows, from + 1) && from < |b.events|
    requires b.events[from].payload.Some?
             && Says(env, feed, after, a, b, id, rows, b.events[from].kind, b.events[from].payload.value)
    ensures AllSay(env, feed, after, a, b, id, rows, from)
  {
    hide Says;
  }

  /** From the classification, or the failure, on. */
  lemma RunSaysLater(env: Env, feed: Feed, distance: (Vector, Vector) -> real, now: Time, db: Db, id: Uuid,
                     rows: seq<SimilarRow>)
    requires db.OneActiveEach() && Matches(env, feed, distance, now, db, id, rows) && !Closed(db, id)
    ensures var b, after := Pipeline(env, feed, now, db, id, rows).db, FeedAfter(env, feed, now, db, id, rows);
            var e := Embedding(env, feed, now, db, id);
            e.db.events <= b.events && AllSay(env, feed, after, db, b, id, rows, |e.db.events|)
  {
    hide Embed, Continue, Says, Later, Matches, AfterEmbed, ParsedBy, Summary, OnlyTicket, SaysSettled, SaysEmbedding,
      Cut, ActiveIn, FeedBeyond, Usable, Weak, Top;
    var e, after := Embedding(env, feed, now, db, id), FeedAfter(env, feed, now, db, id, rows);
    var asked, b := AfterEmbed(env, feed, Begun(now, db, id), id), Pipeline(env, feed, now, db, id, rows).db;
    EmbedTouchesOnly(env, feed, now, Begun(now, db, id), id);
    if e.EmbedDone? {
      StagesSay(env, feed, distance, now, db, id, rows);
      ContinueLogs(env, asked, now, id, e, rows);
      AskedAlike(env, feed, Begun(now, db, id), id);
      forall i | |e.db.events| <= i < |b.events|
        ensures b.events[i].payload.Some?
        ensures Says(env, feed, after, db, b, id, rows, b.events[i].kind, b.events[i].payload.value)
      {
        LaterSays(env, feed, after, db, b, id, rows, e, ParsedBy(env, feed), b.events[i].kind,
                  b.events[i].payload.value);
      }
    } else {
      FailedSays(env, feed, after, db, b, id, rows, b.events[|e.db.events|].payload.value);
    }
  }

  /** From the embedding on. */
  lemma RunSaysStored(env: Env, feed: Feed, distance: (Vector, Vector) -> real, now: Time, db: Db, id: Uuid,
                      rows: seq<SimilarRow>)
    requires db.OneActiveEach() && Matches(env, feed, distance, now, db, id, rows) && !Closed(db, id)
    ensures var b, after := Pipeline(env, feed, now, db, id, rows).db, FeedAfter(env, feed, now, db, id, rows);
            var begun := Begun(now, db, id);
            begun.events <= b.events && AllSay(env, feed, after, db, b, id, rows, |begun.events|)
  {
    hide Pipeline, Embed, Says, Matches, AllSay, FeedAfter, SaysEmbedding, SaysSettled, Cut, ActiveIn, Reuses, Reusable;
    var e, b, after := Embedding(env, feed, now, db, id), Pipeline(env, feed, now, db, id, rows).db,
        FeedAfter(env, feed, now, db, id, rows);
    RunSaysLater(env, feed, distance, now, db, id, rows);
    EmbedLogs(env, feed, now, Begun(now, db, id), id);
    if e.db.events != Begun(now, db, id).events {
      StagesSay(env, feed, distance, now, db, id, rows);
      StoredSays(env, feed, after, db, b, id, rows, e, TextHash(env, db.tickets[id]));
      OneMoreSays(env, feed, after, db, b, id, rows, |Begun(now, db, id).events|);
    }
  }

  /** Every event of a run agrees with what the provider returned, with its matches, and with the rows it leaves. */
  lemma RunPayloads(env: Env, feed: Feed, distance: (Vector, Vector) -> real, now: Time, db: Db, id: Uuid,
                    rows: seq<SimilarRow>)
    requires db.OneActiveEach() && Matches(env, feed, distance, now, db, id, rows)
    ensures var b, after := Pipeline(env, feed, now, db, id, rows).db, FeedAfter(env, feed, now, db, id, rows);
            db.events <= b.events && AllSay(env, feed, after, db, b, id, rows, |db.events|)
  {
    if !Closed(db, id) {
      hide Pipeline, Says, Matches, AllSay, FeedAfter;
      var b, after := Pipeline(env, feed, now, db, id, rows).db, FeedAfter(env, feed, now, db, id, rows);
      RunSaysStored(env, feed, distance, now, db, id, rows);
      StartedSays(env, feed, after, db, b, id, rows);
      OneMoreSays(env, feed, after, db, b, id, rows, |db.events|);
    }
  }

  lemma AskedAlike(env: Env, feed: Feed, db: Db, id: Uuid)
    requires id in db.tickets
    ensures ParsedBy(env, AfterEmbed(env, feed, db, id)) == ParsedBy(env, feed)
  {
    SameVerdict(env, feed, AfterEmbed(env, feed, db, id));
  }

  // ---- ids, and the keys deleted ---------------------------------------------------------------

  lemma EmbedNumbers(env: Env, feed: Feed, now: Time, db: Db, id: Uuid)
    requires id in db.tickets && Numbered(db)
    ensures Numbered(Embed(env, feed, now, db, id).db)
  {
    hide Numbered, Retry, ActiveIn;
    DeactivatedNumbered(db, id);
    var cleared := Cleared(env, db, id);
    match Retry(feed.embed, feed.embedCalls, env.settings.embeddingRetries) {
      case Raise(_) =>
      case Ok(r) =>
        var model := if r.model != "" then r.model else env.settings.defaultModel;
        var dimension := if r.dimension != 0 then r.dimension else env.settings.defaultDimension;
        var textHash := TextHash(env, db.tickets[id]);
        DeactivatedNumbered(cleared, id);
        WithEmbeddingNumbered(cleared.Deactivated(id), id, r.vector, model, dimension, textHash);
        var stored := cleared.Deactivated(id).WithEmbedding(id, r.vector, model, dimension, textHash);
        WithStatusNumbered(stored, id, Embedded);
        WithEventNumbered(stored.WithStatus(id, Embedded), now, id, EventType.EmbeddingStored,
                          EmbeddingPayload(model, dimension, r.provider, textHash));
    }
  }

  lemma {:induction false} DecisionsNumbered(now: Time, db: Db, id: Uuid, reason: Option<string>,
                                             ds: seq<(DecisionType, string, Confidence)>)
    requires Numbered(db)
    ensures Numbered(WithDecisions(now, db, id, reason, ds))
  {
    hide Numbered;
    if ds != [] {
      var last := ds[|ds| - 1];
      DecisionsNumbered(now, db, id, reason, ds[..|ds| - 1]);
      WithRoutingNumbered(WithDecisions(now, db, id, reason, ds[..|ds| - 1]), now, id, last.1, last.0, Worker,
                          Some(last.2), reason);
    }
  }

  lemma ContinueNumbers(env: Env, feed: Feed, now: Time, id: Uuid, e: EmbedResult, rows: seq<SimilarRow>)
    requires e.EmbedDone? && Numbered(e.db)
    ensures Numbered(Continue(env, feed, now, id, e, rows).db)
  {
    hide Numbered, WithDecisions, Retry, Classify, Filter, ReasonOf, Decisions, Asks, Broken, Completed;
    var p := ParsedBy(env, feed);
    var decided := WithDecisions(now, e.db, id, ReasonOf(p), Decisions(p));
    DecisionsNumbered(now, e.db, id, ReasonOf(p), Decisions(p));
    WithStatusNumbered(decided, id, RoutingPending);
    WithEventNumbered(decided.WithStatus(id, RoutingPending), now, id, EventType.ClassificationCompleted,
                      ClassificationPayload(p));
    var found, listed := Searchable(env, feed, now, id, e), Retrieved(env, feed, now, id, e, rows);
    WithEventNumbered(found, now, id, EventType.RetrievalCompleted,
                      RetrievalPayload(|Usable(env, rows)|, |Weak(env, rows)|, Top(Usable(env, rows))));
    var s := Suggest(env, AfterClassify(env, feed), now, listed, id, Usable(env, rows));
    SuggestNumbers(env, AfterClassify(env, feed), now, listed, id, Usable(env, rows));
    if s.SuggestFailed? {
      BrokenNumbers(now, s.db, id, s.exc);
    } else {
      CompletedNumbers(now, s.db, id, Summary(e, p, Usable(env, rows), Weak(env, rows), s.Drafted?));
    }
  }

  lemma SuggestNumbers(env: Env, feed: Feed, now: Time, db: Db, id: Uuid, usable: seq<SimilarRow>)
    requires Numbered(db)
    ensures Numbered(Suggest(env, feed, now, db, id, usable).db)
  {
    hide Numbered, Asks, Retry;
    match Retry(feed.suggest, feed.suggestCalls, env.settings.suggestionRetries) {
      case Raise(_) =>
      case Ok(d) =>
        WithDraftNumbered(db, now, id, d.text, d.provider, d.model, PROMPT_VERSION, PendingReview, Some(d.confidence),
                          true);
        WithEventNumbered(db.WithDraft(now, id, d.text, d.provider, d.model, PROMPT_VERSION, PendingReview,
                                       Some(d.confidence), true),
                          now, id, EventType.DraftSuggestionStored,
                          DraftPayload(d.provider, d.model, |d.text|, |usable|));
    }
  }

  lemma BrokenNumbers(now: Time, db: Db, id: Uuid, exc: Exc)
    requires Numbered(db)
    ensures Numbered(Broken(now, db, id, exc))
  {
    hide Numbered;
    WithStatusNumbered(db, id, Failed);
    WithEventNumbered(db.WithStatus(id, Failed), now, id, AiProcessingFailed,
                      FailurePayload(ExcName(exc), Prefix(ExcMessage(exc), 200)));
  }

  lemma CompletedNumbers(now: Time, db: Db, id: Uuid, summary: Payload)
    requires Numbered(db)
    ensures Numbered(Completed(now, db, id, summary))
  {
    hide Numbered;
    WithStatusNumbered(db, id, Routed);
    WithEventNumbered(db.WithStatus(id, Routed), now, id, AiProcessingCompleted, summary);
  }

  /** A run numbers its rows afresh, so none of them takes the place of another. */
  lemma RunNumbers(env: Env, feed: Feed, now: Time, db: Db, id: Uuid, rows: seq<SimilarRow>)
    requires Numbered(db)
    ensures Numbered(Pipeline(env, feed, now, db, id, rows).db)
  {
    if !Closed(db, id) {
      hide Numbered, Embed, Continue, AfterEmbed, Broken;
      var begun, e := Begun(now, db, id), Embedding(env, feed, now, db, id);
      WithEventNumbered(db, now, id, AiProcessingStarted, StatusPayload(db.tickets[id].status));
      EmbedNumbers(env, feed, now, begun, id);
      if e.EmbedDone? {
        ContinueNumbers(env, AfterEmbed(env, feed, begun, id), now, id, e, rows);
      } else {
        BrokenNumbers(now, e.db, id, e.exc);
      }
    }
  }

  /** The keys a run deletes are those of the reads it spoils, and that of the drafts when it ends with none added. */
  lemma RunDeletesNoMore(env: Env, feed: Feed, now: Time, db: Db, id: Uuid, rows: seq<SimilarRow>, q: Request)
    requires Numbered(db) && TicketRead(q)
    requires TicketKey(q) in DeletedBy(Pipeline(env, feed, now, db, id, rows).ending, id)
    ensures var r := Pipeline(env, feed, now, db, id, rows);
            !SameView(db, r.db, q) || (q == ReadDraft(id) && r.ending == Finished && r.db.drafts == db.drafts)
  {
    hide Pipeline, Closed, FeedAfter, Reusable, Numbered;
    var r := Pipeline(env, feed, now, db, id, rows);
    RunTouchesOnly(env, feed, now, db, id, rows);
    RunNumbers(env, feed, now, db, id, rows);
    match q {
      case ReadStatus(_) =>
      case ReadRouting(_) =>
        RunDecides(env, feed, now, db, id, rows);
        NewRoutingShows(db, r.db, id);
      case ReadDraft(_) => if r.db.drafts != db.drafts { NewDraftShows(db, r.db, id); }
      case ReadEvents(_) =>
        RunTellsTale(env, feed, now, db, id, rows);
        NewEventShows(db, r.db, id);
    }
  }
}
