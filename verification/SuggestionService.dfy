/** Drafting a reply from usable matches, at most one draft awaiting review per ticket. */
module SuggestionService {
  import opened Common
  import opened CacheKeys
  import opened Domain
  import opened CacheStore
  import opened Postgres
  import opened Provider
  import opened EmbeddingService

  const PROMPT_VERSION := "phase3-scaffold-v1"

  datatype SuggestResult =
    | Drafted(db: Db)
    | NoDraft(db: Db)
    | SuggestFailed(db: Db, exc: Exc)

  predicate Asks(db: Db, id: Uuid, usable: seq<SimilarRow>) { usable != [] && !db.HasPendingReview(id) }

  function SuggestCalls(env: Env, feed: Feed, db: Db, id: Uuid, usable: seq<SimilarRow>): nat {
    if Asks(db, id, usable) then Attempts(feed.suggest, feed.suggestCalls, env.settings.suggestionRetries) else 0
  }

  /** The provider after the suggestion. */
  function AfterSuggest(env: Env, feed: Feed, db: Db, id: Uuid, usable: seq<SimilarRow>): Feed {
    feed.(suggestCalls := feed.suggestCalls + SuggestCalls(env, feed, db, id, usable))
  }

  function DraftedDb(now: Time, db: Db, id: Uuid, d: DraftResult, context: nat): Db {
    db.WithDraft(now, id, d.text, d.provider, d.model, PROMPT_VERSION, PendingReview, Some(d.confidence), true)
      .WithEvent(now, id, EventType.DraftSuggestionStored, DraftPayload(d.provider, d.model, |d.text|, context))
  }

  function Suggest(env: Env, feed: Feed, now: Time, db: Db, id: Uuid, usable: seq<SimilarRow>): SuggestResult {
    if !Asks(db, id, usable) then NoDraft(db)
    else match Retry(feed.suggest, feed.suggestCalls, env.settings.suggestionRetries)
      case Raise(e) => SuggestFailed(db, e)
      case Ok(d) => Drafted(DraftedDb(now, db, id, d, |usable|))
  }

  function SuggestKeys(id: Uuid): set<CacheKey> { {DraftKey(id), EventsKey(id)} }

  method MaybeCreateSuggestion(env: Env, session: Session, provider: AiProvider, invalidator: TicketCacheInvalidator?,
                               id: Uuid,
                               usable: seq<SimilarRow>)
    returns (r: SuggestResult)
    requires InvalidatorValid(invalidator)
    modifies session`db, provider.suggest`calls, InvalidatorFootprint(invalidator)
    ensures r == Suggest(env, old(provider.State()), session.now, old(session.db), id, usable) && session.db == r.db
    ensures provider.State() == AfterSuggest(env, old(provider.State()), old(session.db), id, usable)
    ensures InvalidatorValid(invalidator)
    ensures Removed(old(InvalidatorEntries(invalidator)), InvalidatorEntries(invalidator), SuggestKeys(id),
                    AllReach(invalidator) && r.Drafted?)
    ensures !r.Drafted? ==> InvalidatorEntries(invalidator) == old(InvalidatorEntries(invalidator))
  {
    hide Attempts, Removed;
    RemovedNothing(InvalidatorEntries(invalidator), SuggestKeys(id));
    if usable == [] { return NoDraft(session.db); }
    if session.db.HasPendingReview(id) { return NoDraft(session.db); }
    var o := WithRetries(provider.suggest, env.settings.suggestionRetries);
    if o.Raise? { return SuggestFailed(session.db, o.exc); }
    var d := o.value;
    session.db := session.db.WithDraft(session.now, id, d.text, d.provider, d.model, PROMPT_VERSION, PendingReview,
                                       Some(d.confidence), true);
    session.db := session.db.WithEvent(session.now, id, EventType.DraftSuggestionStored,
                                       DraftPayload(d.provider, d.model, |d.text|, |usable|));
    ForgetDraft(invalidator, id);
    return Drafted(session.db);
  }

  method ForgetDraft(invalidator: TicketCacheInvalidator?, id: Uuid)
    requires InvalidatorValid(invalidator)
    modifies InvalidatorFootprint(invalidator)
    ensures InvalidatorValid(invalidator)
    ensures Removed(old(InvalidatorEntries(invalidator)), InvalidatorEntries(invalidator), SuggestKeys(id),
                    AllReach(invalidator))
  {
    if invalidator != null {
      ghost var before := InvalidatorEntries(invalidator);
      invalidator.InvalidateDraft(id);
      ghost var between := InvalidatorEntries(invalidator);
      invalidator.InvalidateEvents(id);
      RemovedTwice(before, between, InvalidatorEntries(invalidator), {DraftKey(id)}, {EventsKey(id)},
                   AllReach(invalidator));
      assert {DraftKey(id)} + {EventsKey(id)} == SuggestKeys(id);
    }
  }

  /** The draft holds what the provider returned in this outcome. */
  predicate Copies(d: DraftRow, o: Outcome<DraftResult>) {
    && o.Ok? && d.text == o.value.text && d.provider == o.value.provider && d.model == o.value.model
    && d.confidence == Some(o.value.confidence) && d.promptVersion == PROMPT_VERSION
  }

  /** The draft a suggestion adds, if it adds one: reviewed by a human, and only where none awaited review. */
  lemma OneDraftAtATime(env: Env, feed: Feed, now: Time, db: Db, id: Uuid, usable: seq<SimilarRow>)
    requires db.OnePendingEach()
    ensures var r := Suggest(env, feed, now, db, id, usable);
            && r.db.OnePendingEach()
            && (r.Drafted? ==> usable != [] && !db.HasPendingReview(id) && r.db.HasPendingReview(id))
            && (!r.Drafted? ==> r.db.drafts == db.drafts)
            && (forall d :: d in r.db.drafts && d !in db.drafts ==>
                  d.requiresHumanReview && d.ticketId == id && d.status == PendingReview
                  && Copies(d, Retry(feed.suggest, feed.suggestCalls, env.settings.suggestionRetries)))
  {}

  /** Some draft of the ticket awaits review. */
  ghost predicate AwaitsReview(db: Db, id: Uuid) {
    exists d :: d in db.drafts && d.ticketId == id && d.status == PendingReview
  }

  /** One draft more: it awaits a human, is dated now, and holds what the first successful call returned. */
  ghost predicate OneDraftMore(feed: Feed, after: Feed, now: Time, a: seq<DraftRow>, b: seq<DraftRow>, id: Uuid) {
    && |b| == |a| + 1 && b[..|a|] == a
    && var d := b[|a|];
    && d.ticketId == id && d.status == PendingReview && d.requiresHumanReview && d.createdAt == now
    && after.suggestCalls > feed.suggestCalls && Copies(d, feed.suggest(after.suggestCalls - 1))
    && forall i :: feed.suggestCalls <= i < after.suggestCalls - 1 ==> feed.suggest(i).Raise?
  }

  /**
   Without usable matches, or with a draft awaiting review, nothing is asked and nothing changes. Otherwise one draft
   is added exactly when some allowed call succeeds, and the stage fails, after all of them, exactly when none does.
   */
  lemma SuggestSays(env: Env, feed: Feed, now: Time, db: Db, id: Uuid, usable: seq<SimilarRow>)
    ensures var r, after := Suggest(env, feed, now, db, id, usable), AfterSuggest(env, feed, db, id, usable);
            if usable == [] || AwaitsReview(db, id) then
              after == feed && r == NoDraft(db)
            else if SomeOk(feed.suggest, feed.suggestCalls, env.settings.suggestionRetries) then
              r.Drafted? && OneDraftMore(feed, after, now, db.drafts, r.db.drafts, id)
            else
              && r.SuggestFailed? && r.db == db
              && (env.settings.suggestionRetries >= 0 ==>
                    after.suggestCalls == feed.suggestCalls + env.settings.suggestionRetries + 1)
  {
    hide SomeOk;
    RetryIsFirstSuccess(feed.suggest, feed.suggestCalls, env.settings.suggestionRetries);
  }
}
