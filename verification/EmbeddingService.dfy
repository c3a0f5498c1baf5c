/** Reusing or renewing the active embedding of a ticket. */
module EmbeddingService {
  import opened CacheKeys
  import opened Domain
  import opened CacheStore
  import opened Postgres
  import opened Provider
  import opened ClassificationPolicy
  import opened TextPreparation
  import ApiWriters

  datatype WorkerSettings = WorkerSettings(
    forceRegenerate: bool, embeddingRetries: int, classificationRetries: int, suggestionRetries: int,
    defaultModel: string, defaultDimension: Dimension,
    topK: nat, usableMaxDistance: real, maxAgeDays: int, thresholds: Thresholds, batchSize: nat)

  /** The settings the worker runs with, and the hash of a ticket's subject and body. */
  datatype Env = Env(settings: WorkerSettings, textHash: (string, string) -> Digest)

  function TextHash(env: Env, t: Ticket): Digest { env.textHash(t.subject, t.body) }

  /** The text hash in use: SHA-256 of the prepared text of subject and body. */
  function HashPrepared(sha: string -> Digest, mask: string -> string): (string, string) -> Digest {
    (subject, body) => sha(PrepareTicketText(mask, subject, body).sanitizedText)
  }

  /** The embedding a run goes on with, or the exception that ends it; and the database either way. */
  datatype EmbedResult =
    | EmbedDone(db: Db, renewed: bool, vector: StoredVector, model: string, dimension: Dimension, provider: string)
    | EmbedFailed(db: Db, exc: Exc)

  function Reusable(env: Env, db: Db, id: Uuid): bool
    requires id in db.tickets
  {
    !env.settings.forceRegenerate && db.ActiveOf(id).Some?
        && db.ActiveOf(id).value.textHash == TextHash(env, db.tickets[id])
  }

  function EmbedCalls(env: Env, feed: Feed, db: Db, id: Uuid): nat
    requires id in db.tickets
  {
    if Reusable(env, db, id) then 0 else Attempts(feed.embed, feed.embedCalls, env.settings.embeddingRetries)
  }

  /** The provider after the embedding. */
  function AfterEmbed(env: Env, feed: Feed, db: Db, id: Uuid): Feed
    requires id in db.tickets
  {
    feed.(embedCalls := feed.embedCalls + EmbedCalls(env, feed, db, id))
  }

  function EmbeddingDb(now: Time, db: Db, id: Uuid, r: EmbeddingResult, model: string, dimension: Dimension,
                       textHash: Digest): Db {
    db.Deactivated(id).WithEmbedding(id, r.vector, model, dimension, textHash).WithStatus(id, Embedded)
      .WithEvent(now, id, EventType.EmbeddingStored, EmbeddingPayload(model, dimension, r.provider, textHash))
  }

  function Renew(env: Env, feed: Feed, now: Time, db: Db, id: Uuid, textHash: Digest): EmbedResult {
    match Retry(feed.embed, feed.embedCalls, env.settings.embeddingRetries)
    case Raise(e) => EmbedFailed(db, e)
    case Ok(r) =>
      var model := if r.model != "" then r.model else env.settings.defaultModel;
      var dimension := if r.dimension != 0 then r.dimension else env.settings.defaultDimension;
      EmbedDone(EmbeddingDb(now, db, id, r, model, dimension, textHash), true, r.vector, model, dimension, r.provider)
  }

  /** A stale active embedding is switched off before the provider is asked. */
  function Cleared(env: Env, db: Db, id: Uuid): Db {
    if !env.settings.forceRegenerate && db.ActiveOf(id).Some? then db.Deactivated(id) else db
  }

  function Embed(env: Env, feed: Feed, now: Time, db: Db, id: Uuid): EmbedResult
    requires id in db.tickets
  {
    var active := db.ActiveOf(id);
    if Reusable(env, db, id) then
      EmbedDone(db, false, active.value.vector, active.value.model, active.value.dimension, feed.name)
    else Renew(env, feed, now, Cleared(env, db, id), id, TextHash(env, db.tickets[id]))
  }

  function EmbedKeys(id: Uuid): set<CacheKey> { {StatusKey(id), EventsKey(id)} }

  method EnsureEmbedding(env: Env, session: Session, provider: AiProvider, invalidator: TicketCacheInvalidator?,
                         id: Uuid)
    returns (r: EmbedResult)
    requires id in session.db.tickets && InvalidatorValid(invalidator)
    modifies session`db, provider.embed`calls, InvalidatorFootprint(invalidator)
    ensures r == Embed(env, old(provider.State()), session.now, old(session.db), id) && session.db == r.db
    ensures provider.State() == AfterEmbed(env, old(provider.State()), old(session.db), id)
    ensures InvalidatorValid(invalidator)
    ensures Removed(old(InvalidatorEntries(invalidator)), InvalidatorEntries(invalidator), EmbedKeys(id),
                    AllReach(invalidator) && r.EmbedDone? && r.renewed)
  {
    hide Renew, ActiveIn, Attempts, Removed;
    var ticket := session.db.tickets[id];
    var textHash := TextHash(env, ticket);
    if !env.settings.forceRegenerate {
      var active := session.db.ActiveOf(id);
      RemovedNothing(InvalidatorEntries(invalidator), EmbedKeys(id));
      if active.Some? && active.value.textHash == textHash {
        return EmbedDone(session.db, false, active.value.vector, active.value.model, active.value.dimension,
                         provider.name);
      }
      if active.Some? { session.db := session.db.Deactivated(id); }
    }
    r := AskAndStore(env, session, provider, invalidator, id, textHash);
  }

  /** Asks the provider, within the retry limit, and stores what it returns. */
  method AskAndStore(env: Env, session: Session, provider: AiProvider, invalidator: TicketCacheInvalidator?, id: Uuid,
                     textHash: Digest)
    returns (r: EmbedResult)
    requires InvalidatorValid(invalidator)
    modifies session`db, provider.embed`calls, InvalidatorFootprint(invalidator)
    ensures r == Renew(env, old(provider.State()), session.now, old(session.db), id, textHash) && session.db == r.db
    ensures provider.embed.calls == old(provider.embed.calls)
                                  + Attempts(provider.embed.script, old(provider.embed.calls),
                                             env.settings.embeddingRetries)
    ensures InvalidatorValid(invalidator)
    ensures Removed(old(InvalidatorEntries(invalidator)), InvalidatorEntries(invalidator), EmbedKeys(id),
                    AllReach(invalidator) && r.EmbedDone? && r.renewed)
  {
    var o := WithRetries(provider.embed, env.settings.embeddingRetries);
    if o.Raise? { return EmbedFailed(session.db, o.exc); }
    var result := o.value;
    var model := if result.model != "" then result.model else env.settings.defaultModel;
    var dimension := if result.dimension != 0 then result.dimension else env.settings.defaultDimension;
    Store(session, invalidator, id, result, model, dimension, textHash);
    return EmbedDone(session.db, true, result.vector, model, dimension, result.provider);
  }

  /** Replaces the active embedding and announces it. */
  method Store(session: Session, invalidator: TicketCacheInvalidator?, id: Uuid, result: EmbeddingResult,
               model: string, dimension: Dimension, textHash: Digest)
    requires InvalidatorValid(invalidator)
    modifies session`db, InvalidatorFootprint(invalidator)
    ensures session.db == EmbeddingDb(session.now, old(session.db), id, result, model, dimension, textHash)
    ensures InvalidatorValid(invalidator)
    ensures Removed(old(InvalidatorEntries(invalidator)), InvalidatorEntries(invalidator), EmbedKeys(id),
                    AllReach(invalidator))
  {
    session.db := session.db.Deactivated(id);
    session.db := session.db.WithEmbedding(id, result.vector, model, dimension, textHash);
    session.db := session.db.WithStatus(id, Embedded);
    session.db := session.db.WithEvent(session.now, id, EventType.EmbeddingStored,
                                       EmbeddingPayload(model, dimension, result.provider, textHash));
    ForgetStatusAndEvents(invalidator, id);
  }

  /** A run that goes on has exactly one active embedding: the one it was given, made from the prepared text. */
  lemma EmbedActivates(env: Env, feed: Feed, now: Time, db: Db, id: Uuid)
    requires id in db.tickets && db.OneActiveEach()
    ensures var r := Embed(env, feed, now, db, id);
            && r.db.OneActiveEach()
            && (r.EmbedDone? ==> ActiveIs(r.db, id, r, TextHash(env, db.tickets[id])))
            && (r.EmbedFailed? && !env.settings.forceRegenerate ==> r.db.ActiveOf(id).None?)
  {
    ApiWriters.NewActiveIsAlone(db, id, SOME_VECTOR, "", 1, "");
    var r := Embed(env, feed, now, db, id);
    if !Reusable(env, db, id) && r.EmbedDone? {
      ApiWriters.NewActiveIsAlone(Cleared(env, db, id), id, r.vector, r.model, r.dimension,
                                  TextHash(env, db.tickets[id]));
    }
  }

  /** The active embedding of the ticket is the one of the result, under the given hash. */
  ghost predicate ActiveIs(db: Db, id: Uuid, r: EmbedResult, textHash: Digest)
    requires r.EmbedDone?
  {
    && db.ActiveOf(id).Some?
    && var e := db.ActiveOf(id).value;
       e.vector == r.vector && e.model == r.model && e.dimension == r.dimension && e.textHash == textHash
  }

  /** Regeneration is not forced, and some active embedding of the ticket was made from its text. */
  ghost predicate Reuses(env: Env, db: Db, id: Uuid)
    requires id in db.tickets
  {
    var t := db.tickets[id];
    && !env.settings.forceRegenerate
    && exists e :: e in db.embeddings && e.ticketId == id && e.active && e.textHash == env.textHash(t.subject, t.body)
  }

  /** The row holds what the provider returned, or the configured model and dimension where it named none. */
  predicate Embeds(env: Env, o: Outcome<EmbeddingResult>, row: EmbeddingRow) {
    && o.Ok? && row.vector == o.value.vector
    && row.model == (if o.value.model == "" then env.settings.defaultModel else o.value.model)
    && row.dimension == (if o.value.dimension == 0 then env.settings.defaultDimension else o.value.dimension)
  }

  /** With one active embedding at most, the one looked up is the one there is. */
  lemma ReusesIsReusable(env: Env, db: Db, id: Uuid)
    requires id in db.tickets && db.OneActiveEach()
    ensures Reuses(env, db, id) <==> Reusable(env, db, id)
  {
    if Reuses(env, db, id) {
      var e :| e in db.embeddings && e.ticketId == id && e.active && e.textHash == TextHash(env, db.tickets[id]);
      assert db.ActiveOf(id).value == e;
    }
  }

  /**
   A reusable embedding costs no call and changes nothing. Otherwise the provider is asked, the stage goes on exactly
   when some allowed call succeeds, and what that call returned is then the active embedding.
   */
  lemma EmbedSays(env: Env, feed: Feed, now: Time, db: Db, id: Uuid)
    requires id in db.tickets && db.OneActiveEach()
    ensures var r, after := Embed(env, feed, now, db, id), AfterEmbed(env, feed, db, id);
            if Reuses(env, db, id) then
              after == feed && r.EmbedDone? && r.db.embeddings == db.embeddings && r.provider == feed.name
            else
              && (env.settings.embeddingRetries >= 0 ==> after.embedCalls > feed.embedCalls)
              && (r.EmbedDone? <==> SomeOk(feed.embed, feed.embedCalls, env.settings.embeddingRetries))
              && (r.EmbedDone? ==>
                    && after.embedCalls > feed.embedCalls && |r.db.embeddings| == |db.embeddings| + 1
                    && r.db.ActiveOf(id).Some?
                    && Embeds(env, feed.embed(after.embedCalls - 1), r.db.ActiveOf(id).value)
                    && r.provider == feed.embed(after.embedCalls - 1).value.provider)
              && (r.EmbedFailed? && env.settings.forceRegenerate ==> r.db.embeddings == db.embeddings)
  {
    hide Reuses, SomeOk, ActiveIn;
    ReusesIsReusable(env, db, id);
    RetryIsFirstSuccess(feed.embed, feed.embedCalls, env.settings.embeddingRetries);
    EmbedActivates(env, feed, now, db, id);
  }

  /** Changing only the whitespace of a ticket never costs a new embedding. */
  lemma SameWordsReuse(env: Env, sha: string -> Digest, mask: string -> string, db: Db, id: Uuid, subject: string,
                       body: string)
    requires id in db.tickets && db.ActiveOf(id).Some? && !env.settings.forceRegenerate
    requires env.textHash == HashPrepared(sha, mask) && db.ActiveOf(id).value.textHash == env.textHash(subject, body)
    requires Words(IsSpace, subject) == Words(IsSpace, db.tickets[id].subject)
    requires Words(IsSpace, body) == Words(IsSpace, db.tickets[id].body)
    ensures Reusable(env, db, id)
  {
    PreparedTextBounded(mask, db.tickets[id].subject, db.tickets[id].body, EXCERPT_LENGTH);
  }

  /** Nothing to mask, nothing to cut, and words in both parts. */
  predicate Plain(mask: string -> string, subject: string, body: string) {
    var text := Lines(subject, body);
    mask(text) == text && |text| <= MAX_TEXT_LENGTH && Line(subject) != [] && Line(body) != []
  }

  /** And of plain texts only those of the same words share an embedding, or two different texts have one digest. */
  lemma ReuseMeansSameWords(env: Env, sha: string -> Digest, mask: string -> string, db: Db, id: Uuid, subject: string,
                            body: string)
    requires id in db.tickets && db.ActiveOf(id).Some?
    requires env.textHash == HashPrepared(sha, mask) && db.ActiveOf(id).value.textHash == env.textHash(subject, body)
    requires Plain(mask, subject, body) && Plain(mask, db.tickets[id].subject, db.tickets[id].body)
    requires Reusable(env, db, id)
    ensures var t := db.tickets[id];
            var x, y := Lines(subject, body), Lines(t.subject, t.body);
            || (x != y && sha(x) == sha(y))
            || (Words(IsSpace, subject) == Words(IsSpace, t.subject) && Words(IsSpace, body) == Words(IsSpace, t.body))
  {
    var t := db.tickets[id];
    PreparedTextSays(mask, subject, body, EXCERPT_LENGTH);
    PreparedTextSays(mask, t.subject, t.body, EXCERPT_LENGTH);
    if Lines(subject, body) == Lines(t.subject, t.body) { LinesSeparate(subject, body, t.subject, t.body); }
  }
}
