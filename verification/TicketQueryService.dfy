/** The cache-aside reads of the API. */
module TicketQueryService {
  import opened Common
  import opened CacheKeys
  import opened Domain
  import opened CacheModel
  import opened CacheStore
  import opened Postgres

  datatype ReadConfig = ReadConfig(h: Digests, settings: ApiSettings, distance: (Vector, Vector) -> real)

  /** Every read but the status and the similarity search asks Postgres for the ticket first. */
  predicate ChecksTicket(q: Request) { q.ReadRouting? || q.ReadDraft? || q.ReadEvents? }

  /** The value a reader finds under its key, if it is live and decodes. */
  function Found(h: Digests, cache: Cache, clock: Time, q: Request): (d: Option<Dto>)
    ensures d.Some? ==> Fits(q, d.value)
  {
    var live := Live(cache, clock, KeyOf(h, q));
    if live.Some? then Decode(q, live.value) else None
  }

  /** A hit answers what it finds and leaves Redis alone. */
  ghost predicate HitStep(c: ReadConfig, before: Cache, clock: Time, q: Request, a: Answer, after: Cache) {
    Found(c.h, before, clock, q).Some? && a == FromDto(q, Found(c.h, before, clock, q).value) && after == before
  }

  /** Keeping a value: with `sure`, only an expiry Redis refuses prevents it. */
  ghost predicate Kept(before: Cache, after: Cache, key: CacheKey, d: Dto, clock: Time, ttl: int, sure: bool) {
    || (ttl > 0 && after == before[key := Entry(Encoded(d), clock + ttl as real)])
    || (after == before && (sure ==> ttl <= 0))
  }

  /** What the service answers when the database gave `loaded`; building a summary that is too long fails. */
  function AnswerOf(c: ReadConfig, q: Request, loaded: Answer): Answer {
    if ToDto(c.settings.eventsMaxItems, q, loaded).None? && loaded.EventsAre? then InvalidSummary else loaded
  }

  /** A miss answers what Postgres gives and keeps its cached form; a summary too long to cache is an error. */
  ghost predicate MissWith(c: ReadConfig, v: View, base: Cache, clock: Time, q: Request, sure: bool, loaded: Answer,
                           a: Answer, after: Cache) {
    var d := ToDto(c.settings.eventsMaxItems, q, loaded);
    && Fresh(c.distance, v, q, loaded)
    && a == AnswerOf(c, q, loaded)
    && if d.Some? then Kept(base, after, KeyOf(c.h, q), d.value, clock, Ttl(c.settings, q), sure) else after == base
  }

  /** A miss, possibly after dropping an undecodable payload. */
  ghost predicate MissStep(c: ReadConfig, v: View, before: Cache, clock: Time, q: Request, sure: bool, a: Answer,
                           after: Cache) {
    exists loaded, base ::
      Removed(before, base, {KeyOf(c.h, q)}, false) && MissWith(c, v, base, clock, q, sure, loaded, a, after)
  }

  /** A reader's cache: none, a disabled store, an enabled one, or an enabled one no call of which can fail. */
  datatype Access = NoStore | Disabled | Unsure | Sure

  /** A read past a disabled store leaves Redis alone, but still builds the value it would cache. */
  ghost predicate PlainStep(c: ReadConfig, v: View, q: Request, access: Access, a: Answer) {
    exists loaded :: Fresh(c.distance, v, q, loaded) && a == if access.Disabled? then AnswerOf(c, q, loaded) else loaded
  }

  /** One read. Through a store that cannot fail a live value is always used, and a loaded one is kept. */
  ghost predicate ReadStep(c: ReadConfig, v: View, before: Cache, clock: Time, q: Request, access: Access,
                           a: Answer, after: Cache) {
    if ChecksTicket(q) && q.id !in v.db.tickets then a == TicketNotFound && after == before
    else if access.NoStore? || access.Disabled? then PlainStep(c, v, q, access, a) && after == before
    else
      || HitStep(c, before, clock, q, a, after)
      || ((access.Sure? ==> Found(c.h, before, clock, q).None?)
          && MissStep(c, v, before, clock, q, access.Sure?, a, after))
  }

  lemma MissIsRead(c: ReadConfig, v: View, before: Cache, base: Cache, after: Cache, clock: Time, q: Request,
                   access: Access,
                   loaded: Answer, a: Answer)
    requires ChecksTicket(q) ==> q.id in v.db.tickets
    requires access.Sure? ==> Found(c.h, before, clock, q).None?
    requires Removed(before, base, {KeyOf(c.h, q)}, false)
    requires if access.NoStore? || access.Disabled? then PlainStep(c, v, q, access, a) && after == base == before
             else MissWith(c, v, base, clock, q, access.Sure?, loaded, a, after)
    ensures ReadStep(c, v, before, clock, q, access, a, after)
  {
    hide MissWith, PlainStep, Found;
  }

  /** A fresh answer is given as it is, kept or not, where no summary is too long for the store asked. */
  lemma FreshIsMiss(c: ReadConfig, v: View, base: Cache, after: Cache, clock: Time, q: Request, access: Access,
                    a: Answer)
    requires Fresh(c.distance, v, q, a)
    requires a.EventsAre? && !access.NoStore? ==> ToDto(c.settings.eventsMaxItems, q, a).Some?
    ensures access.NoStore? || access.Disabled? ==> PlainStep(c, v, q, access, a)
    ensures !access.NoStore? && (match ToDto(c.settings.eventsMaxItems, q, a)
                                 case None => after == base
                                 case Some(d) => Kept(base, after, KeyOf(c.h, q), d, clock, Ttl(c.settings, q),
                                                      access.Sure?)) ==>
            MissWith(c, v, base, clock, q, access.Sure?, a, a, after)
  {
    hide Fresh, KeyOf, Ttl, ToDto, Kept;
  }

  /** The answer is kept under the key of the request until just then. */
  ghost predicate KeptUntil(c: ReadConfig, cache: Cache, q: Request, a: Answer, until: Time) {
    var key := KeyOf(c.h, q);
    && key in cache && cache[key].expiresAt == until
    && cache[key].raw.Encoded? && ToDto(c.settings.eventsMaxItems, q, a) == Some(cache[key].raw.dto)
  }

  /** Found rows, as against errors and the absence of a row. */
  predicate HasRows(a: Answer) { a.StatusIs? || a.RoutingIs? || a.DraftIs? || a.EventsAre? || a.SimilarAre? }

  lemma MissKeeps(c: ReadConfig, v: View, before: Cache, clock: Time, q: Request, a: Answer, after: Cache)
    requires MissStep(c, v, before, clock, q, true, a, after) && HasRows(a) && Ttl(c.settings, q) > 0
    ensures KeptUntil(c, after, q, a, clock + Ttl(c.settings, q) as real)
  {
    hide KeyOf, Ttl;
    var loaded, base :| Removed(before, base, {KeyOf(c.h, q)}, false)
                        && MissWith(c, v, base, clock, q, true, loaded, a, after);
  }

  /** A miss through a store that cannot fail keeps what it found for the time set for that kind of read. */
  lemma MissExpires(c: ReadConfig, v: View, before: Cache, clock: Time, q: Request, a: Answer, after: Cache)
    requires ReadStep(c, v, before, clock, q, Sure, a, after) && Found(c.h, before, clock, q).None? && HasRows(a)
    ensures q.ReadStatus? && c.settings.ttlStatus > 0 ==>
      KeptUntil(c, after, q, a, clock + c.settings.ttlStatus as real)
    ensures q.ReadRouting? && c.settings.ttlRouting > 0 ==>
      KeptUntil(c, after, q, a, clock + c.settings.ttlRouting as real)
    ensures q.ReadDraft? && c.settings.ttlDraft > 0 ==>
      KeptUntil(c, after, q, a, clock + c.settings.ttlDraft as real)
    ensures q.ReadEvents? && c.settings.ttlEvents > 0 ==>
      KeptUntil(c, after, q, a, clock + c.settings.ttlEvents as real)
    ensures q.ReadSimilar? && c.settings.ttlSimilarity > 0 ==>
      KeptUntil(c, after, q, a, clock + c.settings.ttlSimilarity as real)
  {
    hide Found, FromDto, MissStep, KeptUntil;
    if Ttl(c.settings, q) > 0 { MissKeeps(c, v, before, clock, q, a, after); }
  }

  /** A request for an unknown ticket finds it missing, whatever is cached; only a status is looked up there first. */
  lemma UnknownTicketIsMissing(c: ReadConfig, v: View, before: Cache, clock: Time, q: Request, access: Access,
                               a: Answer,
                               after: Cache)
    requires ReadStep(c, v, before, clock, q, access, a, after)
    requires !q.ReadStatus? && TicketRead(q) && q.id !in v.db.tickets
    ensures a == TicketNotFound && after == before
  {}

  class TicketQueryService {
    const session: Session
    const cache: RedisCacheStore?
    const settings: Option<ApiSettings>
    const h: Digests

    constructor (session: Session, cache: RedisCacheStore?, settings: Option<ApiSettings>, h: Digests)
      ensures this.session == session && this.cache == cache && this.settings == settings && this.h == h
    {
      this.session, this.cache, this.settings, this.h := session, cache, settings, h;
    }

    ghost function Footprint(): set<object> {
      if cache == null then {} else {cache, cache.metrics, cache.client}
    }

    ghost predicate Valid()
      reads Footprint()
    {
      cache != null ==> cache.Valid()
    }

    /** What Redis holds, as far as this service can reach it. */
    ghost function Entries(): Cache
      reads Footprint()
    {
      if cache == null then map[] else cache.client.entries
    }

    ghost function Clock(): Time
      reads Footprint()
    {
      if cache == null then 0.0 else cache.client.clock
    }

    ghost function Reach(): Access {
      if cache == null || settings.None? then NoStore
      else if !cache.enabled then Disabled
      else if cache.client.Healthy() then Sure else Unsure
    }

    /** The reader has an enabled store. */
    ghost predicate Reaches() { Reach().Sure? || Reach().Unsure? }

    function Config(): ReadConfig {
      ReadConfig(h, if settings.Some? then settings.value else ApiSettings(0, 0, 0, 0, 0, MAX_SUMMARY),
                 session.distance)
    }

    function Now(): View
      reads session
    {
      View(session.db, session.now)
    }

    method GetTicketStatus(id: Uuid) returns (a: Answer)
      requires Valid()
      modifies Footprint()
      ensures Valid() && Clock() == old(Clock())
      ensures ReadStep(Config(), Now(), old(Entries()), old(Clock()), ReadStatus(id), Reach(), a, Entries())
    {
      hide Found, MissWith, MissStep, Removed;
      var q := ReadStatus(id);
      ghost var before := Entries();
      var cached := Cached(q);
      if cached.Some? { return FromDto(q, cached.value); }
      ghost var base := Entries();
      a := if id in session.db.tickets then StatusIs(session.db.tickets[id].status) else TicketNotFound;
      Fill(q, a);
      MissIsRead(Config(), Now(), before, base, Entries(), Clock(), q, Reach(), a, a);
    }

    method GetLatestRoutingDecision(id: Uuid) returns (a: Answer)
      requires Valid()
      modifies Footprint()
      ensures Valid() && Clock() == old(Clock())
      ensures ReadStep(Config(), Now(), old(Entries()), old(Clock()), ReadRouting(id), Reach(), a, Entries())
    {
      hide Found, MissWith, MissStep, Removed;
      if id !in session.db.tickets { return TicketNotFound; }
      var q := ReadRouting(id);
      ghost var before := Entries();
      var cached := Cached(q);
      if cached.Some? { return FromDto(q, cached.value); }
      ghost var base := Entries();
      var row := session.LatestRoutingOf(id);
      a := if row.Some? then RoutingIs(row.value) else NoRow;
      Fill(q, a);
      MissIsRead(Config(), Now(), before, base, Entries(), Clock(), q, Reach(), a, a);
    }

    method GetLatestDraftSuggestion(id: Uuid) returns (a: Answer)
      requires Valid()
      modifies Footprint()
      ensures Valid() && Clock() == old(Clock())
      ensures ReadStep(Config(), Now(), old(Entries()), old(Clock()), ReadDraft(id), Reach(), a, Entries())
    {
      hide Found, MissWith, MissStep, Removed;
      if id !in session.db.tickets { return TicketNotFound; }
      var q := ReadDraft(id);
      ghost var before := Entries();
      var cached := Cached(q);
      if cached.Some? { return FromDto(q, cached.value); }
      ghost var base := Entries();
      var row := session.LatestDraftOf(id);
      a := if row.Some? then DraftIs(row.value) else NoRow;
      Fill(q, a);
      MissIsRead(Config(), Now(), before, base, Entries(), Clock(), q, Reach(), a, a);
    }

    method GetAuditTrail(id: Uuid) returns (a: Answer)
      requires Valid()
      modifies Footprint()
      ensures Valid() && Clock() == old(Clock())
      ensures ReadStep(Config(), Now(), old(Entries()), old(Clock()), ReadEvents(id), Reach(), a, Entries())
    {
      hide Found, MissStep, Removed;
      if id !in session.db.tickets { return TicketNotFound; }
      var q := ReadEvents(id);
      ghost var before := Entries();
      var cached := Cached(q);
      if cached.Some? { return FromDto(q, cached.value); }
      ghost var base := Entries();
      var events := session.ListEvents(id);
      a := EventsAre(events);
      if cache != null && settings.Some? && ToDto(settings.value.eventsMaxItems, q, a).None? {
        assert Fresh(Config().distance, Now(), q, a);
        MissIsRead(Config(), Now(), before, base, base, Clock(), q, Reach(), a, InvalidSummary);
        return InvalidSummary;
      }
      Fill(q, a);
      MissIsRead(Config(), Now(), before, base, Entries(), Clock(), q, Reach(), a, a);
    }

    method SearchSimilarTickets(s: Search) returns (a: Answer)
      requires Valid()
      modifies Footprint()
      ensures Valid() && Clock() == old(Clock())
      ensures ReadStep(Config(), Now(), old(Entries()), old(Clock()), ReadSimilar(s), Reach(), a, Entries())
    {
      hide Found, MissWith, MissStep, Removed;
      var q := ReadSimilar(s);
      ghost var before := Entries();
      var cached := Cached(q);
      if cached.Some? { return FromDto(q, cached.value); }
      ghost var base := Entries();
      var rows := session.SearchSimilar(s);
      a := SimilarAre(rows);
      Fill(q, a);
      MissIsRead(Config(), Now(), before, base, Entries(), Clock(), q, Reach(), a, a);
    }

    /** The value found under the key of `q`, if there is a store to ask. */
    method Cached(q: Request) returns (d: Option<Dto>)
      requires Valid()
      modifies Footprint()
      ensures Valid() && Clock() == old(Clock())
      ensures d.Some? ==> Reaches() && Found(h, old(Entries()), old(Clock()), q) == d && Entries() == old(Entries())
      ensures d.None? && Reach().Sure? ==> Found(h, old(Entries()), old(Clock()), q).None?
      ensures Removed(old(Entries()), Entries(), {KeyOf(h, q)}, false)
      ensures !Reaches() ==> d.None? && Entries() == old(Entries())
    {
      hide KeyOf, Decode, Dropped, Tally, LastResult;
      d := None;
      if cache != null && settings.Some? {
        d := cache.GetModel(KeyOf(h, q), q);
      }
    }

    /** Keeps a fresh answer under its key, if there is a store and the answer has a cached form. */
    method Fill(q: Request, a: Answer)
      requires Valid() && Fresh(Config().distance, Now(), q, a)
      requires a.EventsAre? && !Reach().NoStore? ==> ToDto(Config().settings.eventsMaxItems, q, a).Some?
      modifies Footprint()
      ensures Valid() && Clock() == old(Clock())
      ensures !Reaches() ==> Entries() == old(Entries()) && PlainStep(Config(), Now(), q, Reach(), a)
      ensures Reaches() ==> MissWith(Config(), Now(), old(Entries()), Clock(), q, Reach().Sure?, a, a, Entries())
    {
      hide Fresh, KeyOf, Ttl, ToDto, MissWith, PlainStep, Tally, LastResult;
      ghost var before := Entries();
      if cache != null && settings.Some? {
        var d := ToDto(settings.value.eventsMaxItems, q, a);
        if d.Some? {
          var _ := cache.SetModel(KeyOf(h, q), d.value, Ttl(settings.value, q));
        }
      }
      FreshIsMiss(Config(), Now(), before, Entries(), Clock(), q, Reach(), a);
    }
  }
}
