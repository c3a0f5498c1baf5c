/** The fail-open Redis wrapper of both services, its metrics, and the invalidator of ticket keys. */
module CacheStore {
  import opened Common
  import opened CacheKeys
  import opened Domain
  import opened CacheModel

  /** How one Redis call fares: served, refused, or served with the reply lost. */
  datatype Fault = Served | Refused | ReplyLost

  /** A stored payload: the JSON of a cached value, or text no validator accepts. */
  datatype Raw = Encoded(dto: Dto) | Garbage

  datatype Entry = Entry(raw: Raw, expiresAt: Time)

  type Cache = map<CacheKey, Entry>

  function Live(cache: Cache, clock: Time, key: CacheKey): Option<Raw> {
    if key in cache && clock < cache[key].expiresAt then Some(cache[key].raw) else None
  }

  function Decode(q: Request, raw: Raw): (d: Option<Dto>)
    ensures d.Some? ==> Fits(q, d.value)
  {
    if raw.Encoded? && Fits(q, raw.dto) then Some(raw.dto) else None
  }

  function KeySet(keys: seq<CacheKey>): set<CacheKey> { set k | k in keys }

  /** A DEL that Redis does not refuse takes effect, even when its reply is lost. */
  function Dropped(entries: Cache, fault: Fault, keys: seq<CacheKey>): Cache {
    if fault != Refused then entries - KeySet(keys) else entries
  }

  class RedisClient {
    var entries: Cache
    var clock: Time
    var calls: nat
    const fault: nat -> Fault

    constructor (fault: nat -> Fault)
      ensures entries == map[] && clock == 0.0 && calls == 0 && this.fault == fault
    {
      entries, clock, calls, this.fault := map[], 0.0, 0, fault;
    }

    ghost predicate Healthy() { forall n: nat :: fault(n) == Served }

    method Get(key: CacheKey) returns (ok: bool, raw: Option<Raw>)
      modifies this`calls
      ensures calls == old(calls) + 1 && (ok <==> fault(old(calls)) == Served)
      ensures ok ==> raw == Live(entries, clock, key)
    {
      ok, raw := fault(calls) == Served, Live(entries, clock, key);
      calls := calls + 1;
    }

    /** Redis refuses an expiry that is not positive. */
    method Set(key: CacheKey, dto: Dto, ttl: int) returns (ok: bool)
      modifies this`calls, this`entries
      ensures calls == old(calls) + 1 && (ok <==> fault(old(calls)) == Served && ttl > 0)
      ensures entries == if fault(old(calls)) != Refused && ttl > 0
                         then old(entries)[key := Entry(Encoded(dto), clock + ttl as real)] else old(entries)
    {
      ok := fault(calls) == Served && ttl > 0;
      if fault(calls) != Refused && ttl > 0 {
        entries := entries[key := Entry(Encoded(dto), clock + ttl as real)];
      }
      calls := calls + 1;
    }

    method Delete(keys: seq<CacheKey>) returns (ok: bool)
      modifies this`calls, this`entries
      ensures calls == old(calls) + 1 && (ok <==> fault(old(calls)) == Served)
      ensures entries == Dropped(old(entries), fault(old(calls)), keys)
    {
      ok := fault(calls) == Served;
      if fault(calls) != Refused {
        entries := entries - KeySet(keys);
      }
      calls := calls + 1;
    }
  }

  /** `b` lacks entries of `a` under `keys` only, and all of them if `all`. */
  ghost predicate Removed(a: Cache, b: Cache, keys: set<CacheKey>, all: bool) {
    && b.Keys <= a.Keys && a.Keys - b.Keys <= keys
    && (forall k :: k in b ==> b[k] == a[k])
    && (all ==> b.Keys !! keys)
  }

  lemma RemovedTwice(a: Cache, b: Cache, c: Cache, first: set<CacheKey>, second: set<CacheKey>, all: bool)
    requires Removed(a, b, first, all) && Removed(b, c, second, all)
    ensures Removed(a, c, first + second, all)
  {}

  lemma RemovedNothing(a: Cache, keys: set<CacheKey>)
    ensures Removed(a, a, keys, false)
  {}

  /** Deleting keys again covers whatever became of them before. */
  lemma RemovedAfresh(a: Cache, b: Cache, c: Cache, first: set<CacheKey>, second: set<CacheKey>, some: bool, all: bool)
    requires Removed(a, b, first, some) && Removed(b, c, second, all) && first <= second
    ensures Removed(a, c, second, all)
  {}

  // ---- metrics ---------------------------------------------------------------------------------

  datatype Counters = Counters(
    hits: nat, misses: nat, invalidations: nat, getErrors: nat, setErrors: nat, deleteErrors: nat,
    validationFailures: nat, getCount: nat, setCount: nat)

  const ZERO := Counters(0, 0, 0, 0, 0, 0, 0, 0, 0)

  class CacheMetrics {
    var hits: nat
    var misses: nat
    var invalidations: nat
    var getErrors: nat
    var setErrors: nat
    var deleteErrors: nat
    var validationFailures: nat
    var getCount: nat
    var setCount: nat

    constructor ()
      ensures Snapshot() == ZERO
    {
      hits, misses, invalidations, getErrors, setErrors := 0, 0, 0, 0, 0;
      deleteErrors, validationFailures, getCount, setCount := 0, 0, 0, 0;
    }

    function Snapshot(): Counters
      reads this
    {
      Counters(hits, misses, invalidations, getErrors, setErrors, deleteErrors, validationFailures, getCount, setCount)
    }

    /** Books one call of a store. */
    method Book(service: Service, c: Call)
      modifies this
      ensures Snapshot() == Count(service, old(Snapshot()), c)
    {
      match c {
        case Hit =>
          getCount := getCount + 1;
          RecordHit();
        case Absent =>
          getCount := getCount + 1;
          RecordMiss();
        case GetFailed =>
          getErrors := getErrors + 1;
          RecordMiss();
        case Invalid =>
          getCount := getCount + 1;
          validationFailures := validationFailures + 1;
          RecordMiss();
        case GetDisabled => if service == AiWorker { RecordMiss(); }
        case Stored => setCount := setCount + 1;
        case SetFailed => setErrors := setErrors + 1;
        case SetDisabled =>
        case Deleted(n) => invalidations := invalidations + n;
        case DeleteFailed => deleteErrors := deleteErrors + 1;
      }
    }

    method RecordHit()
      modifies this
      ensures Snapshot() == old(Snapshot()).(hits := old(hits) + 1)
    {
      hits := hits + 1;
    }

    method RecordMiss()
      modifies this
      ensures Snapshot() == old(Snapshot()).(misses := old(misses) + 1)
    {
      misses := misses + 1;
    }
  }

  function HitRate(m: Counters): real {
    if m.hits + m.misses == 0 then 0.0 else m.hits as real / (m.hits + m.misses) as real
  }

  /** The worker's store differs from the API's in two lines: a disabled read counts, and no result is recorded. */
  datatype Service = Api | AiWorker

  /** What happened in one call on a store. */
  datatype Call =
    | Hit | Absent | GetFailed | Invalid | GetDisabled
    | Stored | SetFailed | SetDisabled
    | Deleted(n: nat) | DeleteFailed

  predicate IsGet(c: Call) { c.Hit? || c.Absent? || c.GetFailed? || c.Invalid? }

  function Count(service: Service, m: Counters, c: Call): Counters {
    match c
    case Hit => m.(hits := m.hits + 1, getCount := m.getCount + 1)
    case Absent => m.(misses := m.misses + 1, getCount := m.getCount + 1)
    case GetFailed => m.(misses := m.misses + 1, getErrors := m.getErrors + 1)
    case Invalid => m.(misses := m.misses + 1, getCount := m.getCount + 1,
                       validationFailures := m.validationFailures + 1)
    case GetDisabled => if service == Api then m else m.(misses := m.misses + 1)
    case Stored => m.(setCount := m.setCount + 1)
    case SetFailed => m.(setErrors := m.setErrors + 1)
    case SetDisabled => m
    case Deleted(n) => m.(invalidations := m.invalidations + n)
    case DeleteFailed => m.(deleteErrors := m.deleteErrors + 1)
  }

  /** The counters a history of calls leads to. */
  function Tally(service: Service, log: seq<Call>): Counters {
    if log == [] then ZERO else Count(service, Tally(service, log[..|log| - 1]), log[|log| - 1])
  }

  /** The outcome of the latest read that reached Redis. */
  function LastResult(log: seq<Call>): Option<bool> {
    if log == [] then None
    else if IsGet(log[|log| - 1]) then Some(log[|log| - 1].Hit?)
    else LastResult(log[..|log| - 1])
  }

  function Occurrences(log: seq<Call>, c: Call): nat {
    if log == [] then 0 else Occurrences(log[..|log| - 1], c) + if log[|log| - 1] == c then 1 else 0
  }

  function Gets(log: seq<Call>): nat {
    Occurrences(log, Hit) + Occurrences(log, Absent) + Occurrences(log, GetFailed) + Occurrences(log, Invalid)
  }

  /** Reads that never reached Redis but are counted. */
  function CountedWhileDisabled(service: Service, log: seq<Call>): nat {
    if service == Api then 0 else Occurrences(log, GetDisabled)
  }

  /** The keys all served deletes named. */
  function KeysDeleted(log: seq<Call>): nat {
    if log == [] then 0
    else KeysDeleted(log[..|log| - 1]) + if log[|log| - 1].Deleted? then log[|log| - 1].n else 0
  }

  /** The balance sheet of every history: each read is a hit or a miss, and each miss has one cause. */
  lemma {:induction false} TallyBalances(service: Service, log: seq<Call>)
    ensures var m := Tally(service, log);
            && m.hits == Occurrences(log, Hit)
            && m.getErrors == Occurrences(log, GetFailed)
            && m.validationFailures == Occurrences(log, Invalid)
            && m.misses == m.getErrors + m.validationFailures + Occurrences(log, Absent)
                         + CountedWhileDisabled(service, log)
            && m.getCount == m.hits + m.validationFailures + Occurrences(log, Absent)
            && m.setCount == Occurrences(log, Stored) && m.setErrors == Occurrences(log, SetFailed)
            && m.deleteErrors == Occurrences(log, DeleteFailed) && m.invalidations == KeysDeleted(log)
  {
    if log != [] {
      TallyBalances(service, log[..|log| - 1]);
      match log[|log| - 1] { case Hit => case Absent => case GetFailed => case Invalid => case _ => }
    }
  }

  /** The hit rate lies between 0 and 1, and that part of all reads counted are hits. */
  predicate RateIsPart(m: Counters) {
    0.0 <= HitRate(m) <= 1.0 && HitRate(m) * (m.hits + m.misses) as real == m.hits as real
  }

  /** Over an enabled API store every read is a hit or a miss, and the hit rate is the part of hits. */
  lemma ReadsAreHitsOrMisses(service: Service, log: seq<Call>)
    ensures var m := Tally(service, log);
            && m.hits + m.misses == Gets(log) + CountedWhileDisabled(service, log)
            && m.getCount + m.getErrors == Gets(log)
            && RateIsPart(m)
  {
    hide Tally, RateIsPart;
    TallyBalances(service, log);
    RateOf(Tally(service, log));
  }

  lemma RateOf(m: Counters)
    ensures RateIsPart(m)
  {
    if m.hits + m.misses != 0 { QuotientInRange(m.hits as real, (m.hits + m.misses) as real); }
  }

  lemma QuotientInRange(x: real, y: real)
    requires 0.0 <= x <= y && y > 0.0
    ensures 0.0 <= x / y <= 1.0 && x / y * y == x
  {}

  /** A result is recorded exactly when some read reached the store, and it is that of the last such read. */
  lemma {:induction false} LastResultIsLatest(log: seq<Call>)
    ensures LastResult(log).None? <==> Gets(log) == 0
    ensures LastResult(log).Some? ==>
      exists i :: 0 <= i < |log| && IsGet(log[i]) && LastResult(log) == Some(log[i].Hit?)
               && forall j :: i < j < |log| ==> !IsGet(log[j])
  {
    if log != [] && !IsGet(log[|log| - 1]) { LastResultIsLatest(log[..|log| - 1]); }
  }

  lemma TallyExtends(service: Service, log: seq<Call>, c: Call)
    ensures Tally(service, log + [c]) == Count(service, Tally(service, log), c)
    ensures LastResult(log + [c]) == if IsGet(c) then Some(c.Hit?) else LastResult(log)
  {}

  // ---- the store -------------------------------------------------------------------------------

  class RedisCacheStore {
    const client: RedisClient
    const metrics: CacheMetrics
    const service: Service
    const enabled: bool
    const deleteInvalidOnRead: bool
    var lastResult: Option<bool>
    ghost var log: seq<Call>

    constructor (client: RedisClient, service: Service, enabled: bool, deleteInvalidOnRead: bool)
      ensures Valid() && log == [] && fresh(metrics)
      ensures this.client == client && this.service == service && this.enabled == enabled
      ensures this.deleteInvalidOnRead == deleteInvalidOnRead
    {
      this.client, this.service := client, service;
      this.enabled, this.deleteInvalidOnRead := enabled, deleteInvalidOnRead;
      metrics := new CacheMetrics();
      lastResult, log := None, [];
    }

    /** The counters and the recorded result are those of the whole history of calls. */
    ghost predicate Valid()
      reads this, metrics
    {
      && metrics.Snapshot() == Tally(service, log)
      && lastResult == (if service == Api then LastResult(log) else None)
      && (!enabled ==> forall c :: c in log ==> !IsGet(c))
    }

    method GetModel(key: CacheKey, q: Request) returns (dto: Option<Dto>)
      requires Valid()
      modifies this, metrics, client`calls, client`entries
      ensures Valid() && old(log) < log
      ensures var first := log[|old(log)|];
              var before, fault := old(client.entries), client.fault(old(client.calls));
              var live := Live(before, client.clock, key);
              if !enabled then
                first == GetDisabled && dto == None && client.entries == before && client.calls == old(client.calls)
              else if fault != Served then first == GetFailed && dto == None && client.entries == before
              else if live == None then first == Absent && dto == None && client.entries == before
              else if Decode(q, live.value) == None then
                first == Invalid && dto == None
                && Removed(before, client.entries, {key}, deleteInvalidOnRead && client.Healthy())
                && (!deleteInvalidOnRead ==> client.entries == before)
              else first == Hit && dto == Decode(q, live.value) && client.entries == before
      ensures var first, rest := log[|old(log)|], log[|old(log)| + 1..];
              rest == [] || (first == Invalid && deleteInvalidOnRead
                             && (rest == [Deleted(1)] || rest == [DeleteFailed]))
    {
      hide Live, Decode, Dropped, Tally, LastResult;
      if !enabled {
        Settle(GetDisabled);
        return None;
      }
      var ok, raw := client.Get(key);
      if !ok {
        Settle(GetFailed);
        return None;
      }
      if raw == None {
        Settle(Absent);
        return None;
      }
      dto := Decode(q, raw.value);
      if dto == None {
        Settle(Invalid);
        if deleteInvalidOnRead {
          assert KeySet([key]) == {key};
          Delete([key]);
        }
        return None;
      }
      Settle(Hit);
    }

    method SetModel(key: CacheKey, dto: Dto, ttl: int) returns (ok: bool)
      requires Valid()
      modifies this, metrics, client`calls, client`entries
      ensures Valid() && log == old(log) + [if !enabled then SetDisabled else if ok then Stored else SetFailed]
      ensures !enabled ==> !ok && client.entries == old(client.entries) && client.calls == old(client.calls)
      ensures enabled ==> (ok <==> client.fault(old(client.calls)) == Served && ttl > 0)
      ensures enabled ==> client.entries == if client.fault(old(client.calls)) != Refused && ttl > 0
        then old(client.entries)[key := Entry(Encoded(dto), client.clock + ttl as real)] else old(client.entries)
    {
      if !enabled {
        Settle(SetDisabled);
        return false;
      }
      ok := client.Set(key, dto, ttl);
      Settle(if ok then Stored else SetFailed);
    }

    /** Deletes whether or not the store is enabled. */
    method Delete(keys: seq<CacheKey>)
      requires Valid()
      modifies this, metrics, client`calls, client`entries
      ensures Valid() && lastResult == old(lastResult)
      ensures keys == [] ==> log == old(log) && client.entries == old(client.entries)
      ensures keys != [] ==> log == old(log) + [if client.fault(old(client.calls)) == Served then Deleted(|keys|)
                                                else DeleteFailed]
      ensures keys != [] ==> client.entries == Dropped(old(client.entries), client.fault(old(client.calls)), keys)
      ensures Removed(old(client.entries), client.entries, KeySet(keys), client.Healthy())
    {
      if keys == [] { return; }
      var ok := client.Delete(keys);
      Settle(if ok then Deleted(|keys|) else DeleteFailed);
    }

    /** Books one call: its counters and, on the API side, the result a read had. */
    method Settle(c: Call)
      requires Valid() && (IsGet(c) ==> enabled)
      modifies this, metrics
      ensures Valid() && log == old(log) + [c]
      ensures !IsGet(c) ==> lastResult == old(lastResult)
    {
      TallyExtends(service, log, c);
      metrics.Book(service, c);
      if service == Api && IsGet(c) { lastResult := Some(c.Hit?); }
      log := log + [c];
    }
  }

  // ---- invalidation ----------------------------------------------------------------------------

  function TicketKeys(id: Uuid): set<CacheKey> { {StatusKey(id), RoutingKey(id), DraftKey(id), EventsKey(id)} }

  class TicketCacheInvalidator {
    const store: RedisCacheStore

    constructor (store: RedisCacheStore)
      ensures this.store == store
    {
      this.store := store;
    }

    method InvalidateStatus(id: Uuid)
      requires store.Valid()
      modifies store, store.metrics, store.client`calls, store.client`entries
      ensures store.Valid()
      ensures Removed(old(store.client.entries), store.client.entries, {StatusKey(id)}, store.client.Healthy())
    {
      store.Delete([StatusKey(id)]);
    }

    method InvalidateRouting(id: Uuid)
      requires store.Valid()
      modifies store, store.metrics, store.client`calls, store.client`entries
      ensures store.Valid()
      ensures Removed(old(store.client.entries), store.client.entries, {RoutingKey(id)}, store.client.Healthy())
    {
      store.Delete([RoutingKey(id)]);
    }

    method InvalidateDraft(id: Uuid)
      requires store.Valid()
      modifies store, store.metrics, store.client`calls, store.client`entries
      ensures store.Valid()
      ensures Removed(old(store.client.entries), store.client.entries, {DraftKey(id)}, store.client.Healthy())
    {
      store.Delete([DraftKey(id)]);
    }

    method InvalidateEvents(id: Uuid)
      requires store.Valid()
      modifies store, store.metrics, store.client`calls, store.client`entries
      ensures store.Valid()
      ensures Removed(old(store.client.entries), store.client.entries, {EventsKey(id)}, store.client.Healthy())
    {
      store.Delete([EventsKey(id)]);
    }

    /** Deletes all four keys of the ticket in one call. */
    method InvalidateTicketReadModels(id: Uuid)
      requires store.Valid()
      modifies store, store.metrics, store.client`calls, store.client`entries
      ensures store.Valid()
      ensures Removed(old(store.client.entries), store.client.entries, TicketKeys(id), store.client.Healthy())
    {
      store.Delete([StatusKey(id), RoutingKey(id), DraftKey(id), EventsKey(id)]);
    }
  }

  // ---- an invalidator a service may do without ----

  ghost function InvalidatorFootprint(i: TicketCacheInvalidator?): set<object> {
    if i == null then {} else {i.store, i.store.metrics, i.store.client}
  }

  ghost predicate InvalidatorValid(i: TicketCacheInvalidator?)
    reads InvalidatorFootprint(i)
  {
    i != null ==> i.store.Valid()
  }

  ghost function InvalidatorEntries(i: TicketCacheInvalidator?): Cache
    reads InvalidatorFootprint(i)
  {
    if i == null then map[] else i.store.client.entries
  }

  /** No delete can fail. */
  ghost predicate AllReach(i: TicketCacheInvalidator?) { i == null || i.store.client.Healthy() }

  method ForgetStatusAndEvents(i: TicketCacheInvalidator?, id: Uuid)
    requires InvalidatorValid(i)
    modifies InvalidatorFootprint(i)
    ensures InvalidatorValid(i)
    ensures Removed(old(InvalidatorEntries(i)), InvalidatorEntries(i), {StatusKey(id), EventsKey(id)}, AllReach(i))
  {
    if i != null {
      ghost var before := InvalidatorEntries(i);
      i.InvalidateStatus(id);
      ghost var between := InvalidatorEntries(i);
      i.InvalidateEvents(id);
      RemovedTwice(before, between, InvalidatorEntries(i), {StatusKey(id)}, {EventsKey(id)}, AllReach(i));
      assert {StatusKey(id)} + {EventsKey(id)} == {StatusKey(id), EventsKey(id)};
    }
  }
}
