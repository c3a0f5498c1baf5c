/**
 Readers and writers interleaved step by step. Writers delete keys before they commit, Redis may lose any
 call, and readers may pause anywhere between their SELECT and their SET. What remains is bounded
 staleness with provenance.
 */
module Interleaving {
  import opened Common
  import opened CacheKeys
  import opened Domain
  import opened CacheModel
  import opened CacheStore
  import opened TicketQueryService
  import SerialCoherence

  // ---- the system ------------------------------------------------------------------------------

  /** A request after its existence check; after a GET that missed; after the SELECT of step `selected`. */
  datatype Reader = Ready(q: Request) | Missed(q: Request) | Loaded(q: Request, dto: Dto, selected: nat)

  /** A transaction: the state it began on, its own state, and when it last deleted each key. */
  datatype Writer = Writer(base: Db, working: Db, deletedAt: map<CacheKey, nat>)

  /** Which reader cached the value of a key, and the steps of its SELECT and its SET. */
  datatype Stamp = Stamp(q: Request, reader: nat, selected: nat, stored: nat)

  datatype State = State(
    committed: Db, cache: Cache, clock: Time,
    readers: map<nat, Reader>, writers: map<nat, Writer>, stamps: map<CacheKey, Stamp>)

  datatype Step =
    | Start(r: nat, q: Request)
    | Get(r: nat, served: bool, dropped: bool)
    | Select(r: nat, loaded: Answer, now: Time)
    | Store(r: nat, applied: bool)
    | Abandon(r: nat)
    | Begin(w: nat)
    | Write(w: nat, working: Db)
    | Delete(w: nat, keys: set<CacheKey>, applied: bool)
    | Commit(w: nat, result: Db)
    | Rollback(w: nat)
    | Tick(at: Time)
    | Evict(keys: set<CacheKey>)
    | Garble(key: CacheKey, until: Time)

  /**
   A commit publishes the changes of its transaction: what the transaction left alone the commit leaves
   alone, whatever others have committed since; and without others the result is the working state.
   */
  ghost predicate Publishes(w: Writer, committed: Db, result: Db) {
    && (committed == w.base ==> result == w.working)
    && (forall id :: id in w.working.tickets && id !in w.base.tickets ==> id !in committed.tickets)
    && (forall q :: TicketRead(q) && SameView(w.base, w.working, q) ==> SameView(committed, result, q))
  }

  predicate Hits(c: ReadConfig, s: Step, a: State) {
    s.Get? && s.served && s.r in a.readers && a.readers[s.r].Ready?
        && Found(c.h, a.cache, a.clock, a.readers[s.r].q).Some?
  }

  function Done(a: State, r: nat): State { a.(readers := a.readers - {r}) }

  function Set(c: ReadConfig, i: nat, a: State, r: nat): State
    requires r in a.readers && a.readers[r].Loaded?
  {
    var l := a.readers[r];
    var key := KeyOf(c.h, l.q);
    a.(readers := a.readers - {r},
       cache := a.cache[key := Entry(Encoded(l.dto), a.clock + Ttl(c.settings, l.q) as real)],
       stamps := a.stamps[key := Stamp(l.q, r, l.selected, i)])
  }

  function Stamped(deletedAt: map<CacheKey, nat>, keys: set<CacheKey>, i: nat): map<CacheKey, nat> {
    deletedAt + map k | k in keys :: i
  }

  function Erase(i: nat, a: State, w: nat, keys: set<CacheKey>): State
    requires w in a.writers
  {
    var writer := a.writers[w];
    a.(cache := a.cache - keys, writers := a.writers[w := writer.(deletedAt := Stamped(writer.deletedAt, keys, i))])
  }

  /** Step `s`, the `i`th of its run, leads from `a` to `b`. A call that Redis loses has no effect. */
  ghost predicate Next(c: ReadConfig, i: nat, s: Step, a: State, b: State) {
    match s
    case Start(r, q) =>
      r !in a.readers && (ChecksTicket(q) ==> q.id in a.committed.tickets)
          && b == a.(readers := a.readers[r := Ready(q)])
    case Get(r, served, dropped) =>
      r in a.readers && a.readers[r].Ready?
      && var q := a.readers[r].q;
         (dropped ==> served && Found(c.h, a.cache, a.clock, q).None?)
         && b == if Hits(c, s, a) then Done(a, r)
                 else a.(readers := a.readers[r := Missed(q)],
                         cache := if dropped then a.cache - {KeyOf(c.h, q)} else a.cache)
    case Select(r, loaded, now) =>
      r in a.readers && a.readers[r].Missed?
      && var q := a.readers[r].q;
         var d := ToDto(c.settings.eventsMaxItems, q, loaded);
         Fresh(c.distance, View(a.committed, now), q, loaded)
         && b == if d.Some? then a.(readers := a.readers[r := Loaded(q, d.value, i)]) else Done(a, r)
    case Store(r, applied) =>
      r in a.readers && a.readers[r].Loaded?
      && (applied ==> Ttl(c.settings, a.readers[r].q) > 0)
      && b == if applied then Set(c, i, a, r) else Done(a, r)
    case Abandon(r) => b == Done(a, r)
    case Begin(w) => w !in a.writers && b == a.(writers := a.writers[w := Writer(a.committed, a.committed, map[])])
    case Write(w, working) => w in a.writers && b == a.(writers := a.writers[w := a.writers[w].(working := working)])
    case Delete(w, keys, applied) => w in a.writers && b == if applied then Erase(i, a, w, keys) else a
    case Commit(w, result) =>
      w in a.writers && Publishes(a.writers[w], a.committed, result)
      && b == a.(committed := result, writers := a.writers - {w})
    case Rollback(w) => b == a.(writers := a.writers - {w})
    case Tick(at) => a.clock <= at && b == a.(clock := at)
    case Evict(keys) => b == a.(cache := a.cache - keys)
    case Garble(key, until) => b == a.(cache := a.cache[key := Entry(Garbage, until)])
  }

  datatype Trace = Trace(states: seq<State>, steps: seq<Step>)

  /** A run from an empty cache with nothing going on. */
  ghost predicate Valid(c: ReadConfig, t: Trace) {
    && |t.states| == |t.steps| + 1
    && t.states[0].cache == map[] && t.states[0].readers == map[] && t.states[0].writers == map[]
    && forall i :: 0 <= i < |t.steps| ==> Next(c, i, t.steps[i], t.states[i], t.states[i + 1])
  }

  // ---- where cached values come from -----------------------------------------------------------

  /** Step `j` ran a SELECT of reader `r` for `q`, and `d` is what it could cache from the state committed then. */
  ghost predicate SelectedAt(c: ReadConfig, t: Trace, j: nat, r: nat, q: Request, d: Dto) {
    && j < |t.steps| && j < |t.states| && t.steps[j].Select? && t.steps[j].r == r
    && Loads(c.settings.eventsMaxItems, c.distance, View(t.states[j].committed, t.steps[j].now), q, d)
  }

  predicate Erases(s: Step, key: CacheKey) { s.Delete? && s.applied && key in s.keys }

  /** A value a reader holds was selected by that reader. */
  ghost predicate ReaderTraced(c: ReadConfig, t: Trace, i: nat, r: nat)
    requires i < |t.states| && r in t.states[i].readers
  {
    var p := t.states[i].readers[r];
    p.Loaded? ==> p.selected < i && SelectedAt(c, t, p.selected, r, p.q, p.dto)
  }

  /** A cached value was selected and then stored by one reader, expires one TTL later, and was not deleted since. */
  ghost predicate EntryTraced(c: ReadConfig, t: Trace, i: nat, key: CacheKey)
    requires i < |t.states| && key in t.states[i].cache
  {
    var e := t.states[i].cache[key];
    e.raw.Encoded? ==>
      && key in t.states[i].stamps
      && var p := t.states[i].stamps[key];
      && StoredAt(c, t, i, key, p, e)
  }

  ghost predicate StoredAt(c: ReadConfig, t: Trace, i: nat, key: CacheKey, p: Stamp, e: Entry) {
    && e.raw.Encoded? && i <= |t.steps| && i < |t.states|
    && p.selected < p.stored < i && t.steps[p.stored] == Store(p.reader, true)
    && p.reader in t.states[p.stored].readers
        && t.states[p.stored].readers[p.reader] == Loaded(p.q, e.raw.dto, p.selected)
    && KeyOf(c.h, p.q) == key && SelectedAt(c, t, p.selected, p.reader, p.q, e.raw.dto)
    && e.expiresAt == t.states[p.stored].clock + Ttl(c.settings, p.q) as real
    && forall x :: p.stored < x < i ==> !Erases(t.steps[x], key)
  }

  /** From step `x` to step `i`, number `w` names one transaction: numbers are given anew once it is over. */
  ghost predicate OneTransaction(t: Trace, x: nat, i: nat, w: nat) {
    i <= |t.steps| && forall z :: x < z < i ==> t.steps[z] != Begin(w)
  }

  /** Step `x` was a delete of this key by this transaction, and it reached Redis. */
  ghost predicate DeletedIn(t: Trace, i: nat, x: nat, w: nat, key: CacheKey) {
    x < i && OneTransaction(t, x, i, w) && t.steps[x].Delete? && t.steps[x].w == w && Erases(t.steps[x], key)
  }

  /** The deletes a transaction remembers did happen. */
  ghost predicate WriterTraced(t: Trace, i: nat, w: nat)
    requires i < |t.states| && w in t.states[i].writers
  {
    var deletedAt := t.states[i].writers[w].deletedAt;
    forall k :: k in deletedAt ==> DeletedIn(t, i, deletedAt[k], w, k)
  }

  ghost predicate Traced(c: ReadConfig, t: Trace, i: nat)
    requires i < |t.states|
  {
    && (forall r :: r in t.states[i].readers ==> ReaderTraced(c, t, i, r))
    && (forall k :: k in t.states[i].cache ==> EntryTraced(c, t, i, k))
    && (forall w :: w in t.states[i].writers ==> WriterTraced(t, i, w))
  }

  /** A step lets a reader keep what it holds, or gives it what it has just selected. */
  lemma StepOfReader(c: ReadConfig, i: nat, s: Step, a: State, b: State, r: nat)
    requires Next(c, i, s, a, b) && r in b.readers && b.readers[r].Loaded?
    ensures (r in a.readers && b.readers[r] == a.readers[r])
         || (s.Select? && s.r == r && b.readers[r].selected == i
             && Loads(c.settings.eventsMaxItems, c.distance, View(a.committed, s.now), b.readers[r].q,
                      b.readers[r].dto))
  {
    hide Fresh, Found, Publishes, ToDto;
  }

  /** A step lets a transaction remember its deletes, or adds one. */
  lemma StepOfWriter(c: ReadConfig, i: nat, s: Step, a: State, b: State, w: nat, k: CacheKey)
    requires Next(c, i, s, a, b) && w in b.writers && k in b.writers[w].deletedAt
    ensures (w in a.writers && k in a.writers[w].deletedAt && b.writers[w].deletedAt[k] == a.writers[w].deletedAt[k]
             && s != Begin(w))
         || (s.Delete? && s.w == w && Erases(s, k) && b.writers[w].deletedAt[k] == i)
  {
    hide Fresh, Found, Publishes, ToDto;
  }

  /** A value under a key was there before with the same stamp, or has just been stored by a reader that held it. */
  lemma StepOfEntry(c: ReadConfig, i: nat, s: Step, a: State, b: State, k: CacheKey)
    requires Next(c, i, s, a, b) && k in b.cache && b.cache[k].raw.Encoded?
    ensures (k in a.cache && b.cache[k] == a.cache[k] && !Erases(s, k)
             && (k in a.stamps ==> k in b.stamps && b.stamps[k] == a.stamps[k]))
         || (s.Store? && s.applied && s.r in a.readers && a.readers[s.r].Loaded? && KeyOf(c.h, a.readers[s.r].q) == k
             && k in b.stamps && b.stamps[k] == Stamp(a.readers[s.r].q, s.r, a.readers[s.r].selected, i)
             && b.cache[k] == Entry(Encoded(a.readers[s.r].dto), a.clock + Ttl(c.settings, a.readers[s.r].q) as real))
  {
    hide Fresh, Found, Publishes, ToDto;
  }

  lemma ReadersStayTraced(c: ReadConfig, t: Trace, i: nat, r: nat)
    requires Valid(c, t) && i < |t.steps| && Traced(c, t, i) && r in t.states[i + 1].readers
    ensures ReaderTraced(c, t, i + 1, r)
  {
    hide Next, Loads;
    if t.states[i + 1].readers[r].Loaded? {
      StepOfReader(c, i, t.steps[i], t.states[i], t.states[i + 1], r);
      if r in t.states[i].readers { assert ReaderTraced(c, t, i, r); }
    }
  }

  lemma WritersStayTraced(c: ReadConfig, t: Trace, i: nat, w: nat)
    requires Valid(c, t) && i < |t.steps| && Traced(c, t, i) && w in t.states[i + 1].writers
    ensures WriterTraced(t, i + 1, w)
  {
    hide Next;
    var deletedAt := t.states[i + 1].writers[w].deletedAt;
    if w in t.states[i].writers { assert WriterTraced(t, i, w); }
    forall k | k in deletedAt ensures DeletedIn(t, i + 1, deletedAt[k], w, k) {
      StepOfWriter(c, i, t.steps[i], t.states[i], t.states[i + 1], w, k);
    }
  }

  lemma EntriesStayTraced(c: ReadConfig, t: Trace, i: nat, key: CacheKey)
    requires Valid(c, t) && i < |t.steps| && Traced(c, t, i) && key in t.states[i + 1].cache
    ensures EntryTraced(c, t, i + 1, key)
  {
    hide Next, SelectedAt;
    var s, a, b := t.steps[i], t.states[i], t.states[i + 1];
    if b.cache[key].raw.Encoded? {
      StepOfEntry(c, i, s, a, b, key);
      if key in a.cache && b.cache[key] == a.cache[key] && !Erases(s, key)
         && (key in a.stamps ==> b.stamps[key] == a.stamps[key]) {
        assert EntryTraced(c, t, i, key);
      } else {
        assert ReaderTraced(c, t, i, s.r);
      }
    }
  }

  /** In every run, whatever is read, held or deleted can be traced to the step it came from. */
  lemma {:induction false} EverythingIsTraced(c: ReadConfig, t: Trace, i: nat)
    requires Valid(c, t) && i < |t.states|
    ensures Traced(c, t, i)
  {
    if i > 0 {
      hide Valid, ReaderTraced, EntryTraced, WriterTraced;
      EverythingIsTraced(c, t, i - 1);
      forall r | r in t.states[i].readers ensures ReaderTraced(c, t, i, r) { ReadersStayTraced(c, t, i - 1, r); }
      forall k | k in t.states[i].cache ensures EntryTraced(c, t, i, k) { EntriesStayTraced(c, t, i - 1, k); }
      forall w | w in t.states[i].writers ensures WriterTraced(t, i, w) { WritersStayTraced(c, t, i - 1, w); }
    }
  }

  // ---- bounded staleness with provenance -------------------------------------------------------

  /** Less than the time set for that kind of request. */
  predicate YoungerThanTtl(s: ApiSettings, q: Request, age: Time) {
    && (q.ReadStatus? ==> age < s.ttlStatus as real)
    && (q.ReadRouting? ==> age < s.ttlRouting as real)
    && (q.ReadDraft? ==> age < s.ttlDraft as real)
    && (q.ReadEvents? ==> age < s.ttlEvents as real)
    && (q.ReadSimilar? ==> age < s.ttlSimilarity as real)
  }

  /** Step `i` is a hit of a request for `q` that finds `d`. */
  ghost predicate HitAt(c: ReadConfig, t: Trace, i: nat, q: Request, d: Dto) {
    && i < |t.steps| && i < |t.states| && Hits(c, t.steps[i], t.states[i])
    && q == t.states[i].readers[t.steps[i].r].q && Some(d) == Found(c.h, t.states[i].cache, t.states[i].clock, q)
  }

  /**
   The value of a hit was loaded by some reader, for a request with this key, from the state committed at its
   SELECT, step `j`; the reader stored it in step `m`, less than one TTL ago, and no delete of the key has
   reached Redis since. A ticket key serves one request only.
   */
  ghost predicate Provenance(c: ReadConfig, t: Trace, i: nat, q: Request, d: Dto, j: nat, m: nat) {
    && j < m < i < |t.steps| == |t.states| - 1
    && (exists r, p :: SelectedAt(c, t, j, r, p, d) && t.steps[m] == Store(r, true) && KeyOf(c.h, p) == KeyOf(c.h, q)
         && (TicketRead(q) ==> p == q)
         && YoungerThanTtl(c.settings, p, t.states[i].clock - t.states[m].clock))
    && forall x :: m < x < i ==> !Erases(t.steps[x], KeyOf(c.h, q))
  }

  lemma HitHasProvenance(c: ReadConfig, t: Trace, i: nat, q: Request, d: Dto)
    requires Valid(c, t) && HitAt(c, t, i, q, d)
    ensures exists j, m :: Provenance(c, t, i, q, d, j, m)
  {
    hide Loads, Fresh;
    EverythingIsTraced(c, t, i);
    var key := KeyOf(c.h, q);
    assert EntryTraced(c, t, i, key);
    var p := t.states[i].stamps[key];
    assert SelectedAt(c, t, p.selected, p.reader, p.q, d);
    assert Provenance(c, t, i, q, d, p.selected, p.stored);
  }

  // ---- when a hit can be stale -----------------------------------------------------------------

  /** The transaction has deleted the key of every ticket read whose rows it changes, or makes the ticket itself. */
  ghost predicate Disciplined(w: Writer) {
    forall q :: TicketRead(q) && TicketKey(q) !in w.deletedAt ==>
      SameView(w.base, w.working, q) || (q.id !in w.base.tickets && q.id in w.working.tickets)
  }

  /** Every transaction that commits is disciplined, and its deletes reached Redis. */
  ghost predicate AllDisciplined(t: Trace) {
    forall i :: 0 <= i < |t.steps| && i < |t.states| && t.steps[i].Commit? && t.steps[i].w in t.states[i].writers ==>
      Disciplined(t.states[i].writers[t.steps[i].w])
  }

  /** What a cached value is worth against the state committed before step `i`. */
  ghost predicate Current(c: ReadConfig, t: Trace, i: nat, q: Request, d: Dto)
    requires i < |t.states|
  {
    Loads(c.settings.eventsMaxItems, c.distance, View(t.states[i].committed, 0.0), q, d)
  }

  /** Step `x` deletes the key of `q` for a transaction that commits in step `y`. */
  ghost predicate Invalidates(t: Trace, x: nat, y: nat, q: Request)
    requires TicketRead(q)
  {
    && x < y < |t.steps| && Erases(t.steps[x], TicketKey(q)) && t.steps[y].Commit? && t.steps[x].w == t.steps[y].w
    && OneTransaction(t, x, y, t.steps[y].w)
  }

  /** The step after which a value selected in step `j` is no longer current. */
  lemma {:induction false} Spoiler(c: ReadConfig, t: Trace, j: nat, i: nat, q: Request, d: Dto) returns (y: nat)
    requires Valid(c, t) && j <= i < |t.states| && Current(c, t, j, q, d) && !Current(c, t, i, q, d)
    ensures j <= y < i && Current(c, t, y, q, d) && !Current(c, t, y + 1, q, d)
  {
    hide Valid, Current;
    if Current(c, t, i - 1, q, d) {
      y := i - 1;
    } else {
      y := Spoiler(c, t, j, i - 1, q, d);
    }
  }

  lemma OnlyCommitsSpoil(c: ReadConfig, t: Trace, y: nat, q: Request, d: Dto)
    requires Valid(c, t) && AllDisciplined(t) && TicketRead(q) && y < |t.steps|
    requires Current(c, t, y, q, d) && !Current(c, t, y + 1, q, d)
    ensures exists x: nat :: Invalidates(t, x, y, q)
  {
    hide Loads, Fresh, Found, ToDto;
    var s, a, b := t.steps[y], t.states[y], t.states[y + 1];
    assert Next(c, y, s, a, b);
    assert s.Commit?;
    EverythingIsTraced(c, t, y);
    if Keeps(a.committed, b.committed, q) {
      KeepsLoads(c.settings.eventsMaxItems, c.distance, View(a.committed, 0.0), View(b.committed, 0.0), q, d);
    }
    assert WriterTraced(t, y, s.w);
    assert Invalidates(t, a.writers[s.w].deletedAt[TicketKey(q)], y, q);
  }

  /**
   If writers are disciplined, a stale hit on a ticket key means two overlapping windows: its loader, between
   SELECT and SET, and some transaction, between its delete of that very key and its commit.
   */
  lemma StaleHitOverlapsWriter(c: ReadConfig, t: Trace, i: nat, q: Request, d: Dto, j: nat, m: nat)
    requires Valid(c, t) && AllDisciplined(t) && TicketRead(q) && HitAt(c, t, i, q, d)
             && Provenance(c, t, i, q, d, j, m)
    requires !Current(c, t, i, q, d)
    ensures exists x: nat, y: nat :: Invalidates(t, x, y, q) && x < m && j < y < i
  {
    hide Valid, Loads, Fresh, HitAt;
    SelectedIsCurrent(c, t, j, q, d);
    var y := Spoiler(c, t, j, i, q, d);
    OnlyCommitsSpoil(c, t, y, q, d);
    var x: nat :| Invalidates(t, x, y, q);
    assert t.steps[j].Select? && t.steps[m].Store?;
  }

  lemma SelectedIsCurrent(c: ReadConfig, t: Trace, j: nat, q: Request, d: Dto)
    requires TicketRead(q) && j < |t.states| && exists r :: SelectedAt(c, t, j, r, q, d)
    ensures Current(c, t, j, q, d)
  {}

  /** No transaction deletes the key of `q` and commits around the window from step `j` to step `m`. */
  ghost predicate Undisturbed(t: Trace, i: nat, q: Request, j: nat, m: nat)
    requires TicketRead(q)
  {
    forall x: nat, y: nat :: Invalidates(t, x, y, q) && y < i ==> m <= x || y <= j
  }

  /** A hit whose loader met no transaction on its key halfway answers like the uncached service. */
  lemma UndisturbedHitIsFresh(c: ReadConfig, t: Trace, i: nat, q: Request, d: Dto, j: nat, m: nat)
    requires Valid(c, t) && AllDisciplined(t) && TicketRead(q) && HitAt(c, t, i, q, d)
             && Provenance(c, t, i, q, d, j, m)
    requires Undisturbed(t, i, q, j, m)
    ensures Current(c, t, i, q, d) && Fits(q, d)
    ensures Refines(c.settings.eventsMaxItems, c.distance, View(t.states[i].committed, 0.0), q, FromDto(q, d))
  {
    hide Valid, Loads, Fresh, Hits, SelectedAt;
    if !Current(c, t, i, q, d) {
      StaleHitOverlapsWriter(c, t, i, q, d, j, m);
    }
    LoadedValueDecodes(c.settings.eventsMaxItems, c.distance, View(t.states[i].committed, 0.0), q, d);
  }

  // ---- convergence -----------------------------------------------------------------------------

  /** A step does not turn back the clock, and only commits change what is committed. */
  lemma StepOfTime(c: ReadConfig, i: nat, s: Step, a: State, b: State)
    requires Next(c, i, s, a, b)
    ensures a.clock <= b.clock && (!s.Commit? ==> a.committed == b.committed)
  {
    hide Fresh, Found, Publishes, ToDto, KeyOf;
  }

  lemma StepAt(c: ReadConfig, t: Trace, i: nat)
    requires Valid(c, t) && i < |t.steps|
    ensures i + 1 < |t.states| && Next(c, i, t.steps[i], t.states[i], t.states[i + 1])
  {
    hide Next;
  }

  lemma {:induction false} ClockGrows(c: ReadConfig, t: Trace, e: nat, i: nat)
    requires Valid(c, t) && e <= i < |t.states|
    ensures t.states[e].clock <= t.states[i].clock
    decreases i - e
  {
    if e < i {
      StepAt(c, t, e);
      hide Next, Valid;
      StepOfTime(c, e, t.steps[e], t.states[e], t.states[e + 1]);
      ClockGrows(c, t, e + 1, i);
    }
  }

  lemma {:induction false} QuietDbStays(c: ReadConfig, t: Trace, e: nat, i: nat)
    requires Valid(c, t) && e <= i < |t.states| && forall x :: e <= x < i ==> !t.steps[x].Commit?
    ensures t.states[e].committed == t.states[i].committed
  {
    if e < i {
      StepAt(c, t, i - 1);
      hide Next, Valid;
      QuietDbStays(c, t, e, i - 1);
      StepOfTime(c, i - 1, t.steps[i - 1], t.states[i - 1], t.states[i]);
    }
  }

  /** A value a reader holds, it has held since it selected it. */
  lemma {:induction false} HeldSince(c: ReadConfig, t: Trace, e: nat, m: nat, r: nat)
    requires Valid(c, t) && e <= m < |t.states| && r in t.states[m].readers && t.states[m].readers[r].Loaded?
    requires t.states[m].readers[r].selected < e
    ensures r in t.states[e].readers && t.states[e].readers[r] == t.states[m].readers[r]
  {
    if e < m {
      hide Next, Loads;
      StepOfReader(c, m - 1, t.steps[m - 1], t.states[m - 1], t.states[m], r);
      HeldSince(c, t, e, m - 1, r);
    }
  }

  /** Before step `e`, no reader holds a value of this key selected before step `y`. */
  ghost predicate Drained(c: ReadConfig, t: Trace, y: nat, e: nat, key: CacheKey) {
    e < |t.states| && forall r :: r in t.states[e].readers ==>
      var p := t.states[e].readers[r]; p.Loaded? && KeyOf(c.h, p.q) == key ==> p.selected >= y
  }

  /**
   Once writers are quiet the cache converges by itself, even if every delete was lost: when the readers that
   selected before the last commit are done and one TTL has passed, every hit on a ticket key is current.
   */
  lemma HitsConverge(c: ReadConfig, t: Trace, y: nat, e: nat, i: nat, q: Request, d: Dto)
    requires Valid(c, t) && TicketRead(q) && HitAt(c, t, i, q, d)
    requires y <= e <= i && forall x :: y <= x < i ==> !t.steps[x].Commit?
    requires Drained(c, t, y, e, TicketKey(q))
    requires !YoungerThanTtl(c.settings, q, t.states[i].clock - t.states[e].clock)
    ensures Current(c, t, i, q, d)
  {
    hide Loads, Fresh;
    EverythingIsTraced(c, t, i);
    var key := TicketKey(q);
    assert EntryTraced(c, t, i, key);
    var p := t.states[i].stamps[key];
    assert e <= p.stored by { if p.stored < e { ClockGrows(c, t, p.stored, e); } }
    assert y <= p.selected by { if p.selected < y { HeldSince(c, t, e, p.stored, p.reader); } }
    SelectedIsCurrent(c, t, p.selected, q, d);
    QuietDbStays(c, t, p.selected, i);
  }

  // ---- the service calls are disciplined -------------------------------------------------------

  /** A transaction made of one service call, whose deletes all reached Redis, is disciplined. */
  lemma ServiceCallsAreDisciplined(c: ReadConfig, s: SerialCoherence.Step, w: SerialCoherence.World, writer: Writer)
    requires SerialCoherence.Enabled(c, s, w)
    requires writer.base == w.db && writer.working == SerialCoherence.Written(s, w.db, w.now)
    requires SerialCoherence.Deleted(s, w.db, w.now) <= writer.deletedAt.Keys
    ensures Disciplined(writer)
  {
    hide SerialCoherence.Enabled, SerialCoherence.Deleted, SerialCoherence.Written;
    SerialCoherence.WriteCovers(c, s, w);
    forall q | TicketRead(q) && q.id !in w.db.tickets && TicketKey(q) !in writer.deletedAt
      ensures SameView(writer.base, writer.working, q) || q.id in writer.working.tickets
    {
      SerialCoherence.UnknownTicketUntouched(c, s, w, q);
    }
  }

  // ---- uninterrupted, these are the serial steps -----------------------------------------------

  lemma UninterruptedHitIsReadStep(c: ReadConfig, i: nat, r: nat, q: Request, now: Time, sure: bool,
                                   s0: State, s1: State, s2: State)
    requires Next(c, i, Start(r, q), s0, s1) && Next(c, i + 1, Get(r, true, false), s1, s2)
             && Hits(c, Get(r, true, false), s1)
    ensures ReadStep(c, View(s0.committed, now), s0.cache, s0.clock, q, if sure then Sure else Unsure,
                     FromDto(q, Found(c.h, s0.cache, s0.clock, q).value), s2.cache)
  {}

  /** `s4` is `s3` when the answer has no cached form. */
  lemma UninterruptedMissIsReadStep(c: ReadConfig, i: nat, r: nat, q: Request, served: bool, dropped: bool,
                                    loaded: Answer,
                                    now: Time, applied: bool, s0: State, s1: State, s2: State, s3: State, s4: State)
    requires Next(c, i, Start(r, q), s0, s1)
    requires Next(c, i + 1, Get(r, served, dropped), s1, s2) && !Hits(c, Get(r, served, dropped), s1)
    requires Next(c, i + 2, Select(r, loaded, now), s2, s3)
    requires if ToDto(c.settings.eventsMaxItems, q, loaded).Some? then Next(c, i + 3, Store(r, applied), s3, s4)
             else s4 == s3
    ensures var sure := served && (applied || Ttl(c.settings, q) <= 0);
            ReadStep(c, View(s0.committed, now), s0.cache, s0.clock, q, if sure then Sure else Unsure,
                     AnswerOf(c, q, loaded), s4.cache)
  {
    hide Found, Fresh, ToDto;
    var sure := served && (applied || Ttl(c.settings, q) <= 0);
    assert MissWith(c, View(s0.committed, now), s2.cache, s0.clock, q, sure, loaded, AnswerOf(c, q, loaded), s4.cache);
    assert Removed(s0.cache, s2.cache, {KeyOf(c.h, q)}, false);
  }

  lemma UninterruptedWriteIsSerialStep(c: ReadConfig, i: nat, w: nat, call: SerialCoherence.Step, now: Time, result: Db,
                                       s0: State, s1: State, s2: State, s3: State, s4: State)
    requires var world := SerialCoherence.World(s0.committed, s0.cache, s0.clock, now);
             var working := SerialCoherence.Written(call, s0.committed, now);
             var keys := SerialCoherence.Deleted(call, s0.committed, now);
             && !call.Read? && !call.Garble? && SerialCoherence.Enabled(c, call, world)
             && Next(c, i, Begin(w), s0, s1) && Next(c, i + 1, Write(w, working), s1, s2)
             && Next(c, i + 2, Delete(w, keys, true), s2, s3) && Next(c, i + 3, Commit(w, result), s3, s4)
    ensures SerialCoherence.Next(c, call, SerialCoherence.World(s0.committed, s0.cache, s0.clock, now),
                                 SerialCoherence.World(s4.committed, s4.cache, s4.clock, now))
  {
    hide SerialCoherence.Written, SerialCoherence.Deleted, SerialCoherence.Enabled, SameView;
  }

  // ---- a stale hit -----------------------------------------------------------------------------

  ghost predicate RunTo(c: ReadConfig, t: Trace, b: State) {
    Valid(c, t) && AllDisciplined(t) && t.states[|t.steps|] == b
  }

  lemma Extend(c: ReadConfig, t: Trace, s: Step, a: State, b: State) returns (u: Trace)
    requires RunTo(c, t, a) && Next(c, |t.steps|, s, a, b)
    requires s.Commit? && s.w in a.writers ==> Disciplined(a.writers[s.w])
    ensures RunTo(c, u, b) && u.steps == t.steps + [s] && u.states == t.states + [b]
  {
    hide Next, Disciplined;
    u := Trace(t.states + [b], t.steps + [s]);
    forall i | 0 <= i < |u.steps| ensures Next(c, i, u.steps[i], u.states[i], u.states[i + 1]) {
      if i < |t.steps| {
        assert u.steps[i] == t.steps[i] && u.states[i] == t.states[i] && u.states[i + 1] == t.states[i + 1];
      }
    }
    forall i | 0 <= i < |u.steps| && u.steps[i].Commit? && u.steps[i].w in u.states[i].writers
      ensures Disciplined(u.states[i].writers[u.steps[i].w])
    {
      if i < |t.steps| { assert u.steps[i] == t.steps[i] && u.states[i] == t.states[i]; }
    }
  }

  lemma FirstErase(i: nat, a: State, w: nat, keys: set<CacheKey>)
    requires a.cache == map[] && w in a.writers && a.writers[w].deletedAt == map[]
    ensures Erase(i, a, w, keys) == a.(writers := a.writers[w := a.writers[w].(deletedAt := Stamped(map[], keys, i))])
  {
    assert map[] - keys == a.cache;
  }

  lemma SelectsStatus(c: ReadConfig, db: Db, id: Uuid)
    requires id in db.tickets
    ensures var s := db.tickets[id].status;
            && Fresh(c.distance, View(db, 0.0), ReadStatus(id), StatusIs(s))
            && ToDto(c.settings.eventsMaxItems, ReadStatus(id), StatusIs(s)) == Some(StatusDto(id, s))
  {}

  /** A reader asks an empty Redis. */
  lemma EarlyMiss(c: ReadConfig, db: Db, q: Request) returns (t: Trace, b: State)
    requires ChecksTicket(q) ==> q.id in db.tickets
    ensures RunTo(c, t, b) && |t.steps| == 2 && b == State(db, map[], 0.0, map[0 := Missed(q)], map[], map[])
  {
    hide Publishes, Disciplined, Fresh, ToDto, Set, Erase;
    var s0 := State(db, map[], 0.0, map[], map[], map[]);
    var s1 := s0.(readers := map[0 := Ready(q)]);
    b := s0.(readers := map[0 := Missed(q)]);
    t := Trace([s0], []);
    t := Extend(c, t, Start(0, q), s0, s1);
    t := Extend(c, t, Get(0, true, false), s1, b);
  }

  /** Then a writer changes its own state and deletes keys. */
  lemma EarlyDelete(c: ReadConfig, db: Db, q: Request, working: Db, keys: set<CacheKey>) returns (t: Trace, b: State)
    requires ChecksTicket(q) ==> q.id in db.tickets
    ensures RunTo(c, t, b) && |t.steps| == 5
    ensures b == State(db, map[], 0.0, map[0 := Missed(q)], map[1 := Writer(db, working, Stamped(map[], keys, 4))],
                       map[])
  {
    hide Publishes, Disciplined, Fresh, ToDto, Stamped, Found, Set, Erase, RunTo;
    var s2: State;
    t, s2 := EarlyMiss(c, db, q);
    var s3 := s2.(writers := map[1 := Writer(db, db, map[])]);
    var s4 := s2.(writers := map[1 := Writer(db, working, map[])]);
    b := Erase(4, s4, 1, keys);
    FirstErase(4, s4, 1, keys);
    t := Extend(c, t, Begin(1), s2, s3);
    t := Extend(c, t, Write(1, working), s3, s4);
    t := Extend(c, t, Delete(1, keys, true), s4, b);
  }

  /**
   Any call of either service that changes the status of a ticket may leave a stale hit: a reader misses, the call
   deletes its keys, the reader selects and stores what is still committed, the call commits, the next reader hits.
   */
  lemma DeleteBeforeCommitMayLeaveStale(c: ReadConfig, call: SerialCoherence.Step, w: SerialCoherence.World, id: Uuid)
    requires SerialCoherence.Enabled(c, call, w) && c.settings.ttlStatus > 0 && id in w.db.tickets
    requires var after := SerialCoherence.Written(call, w.db, w.now);
             id in after.tickets && after.tickets[id].status != w.db.tickets[id].status
    ensures exists t, i, d :: Valid(c, t) && AllDisciplined(t)
                           && HitAt(c, t, i, ReadStatus(id), d) && !Current(c, t, i, ReadStatus(id), d)
  {
    hide SerialCoherence.Enabled, SerialCoherence.Written, SerialCoherence.Deleted;
    var q := ReadStatus(id);
    var after := SerialCoherence.Written(call, w.db, w.now);
    var keys := SerialCoherence.Deleted(call, w.db, w.now);
    var t, s5 := EarlyDelete(c, w.db, q, after, keys);
    ServiceCallsAreDisciplined(c, call, w, s5.writers[1]);
    LateCommit(c, t, s5, id, after);
  }

  /** The reader selects and stores what is still committed. */
  lemma LateStore(c: ReadConfig, t0: Trace, s5: State, id: Uuid) returns (t: Trace, s7: State)
    requires RunTo(c, t0, s5) && |t0.steps| == 5 && c.settings.ttlStatus > 0 && id in s5.committed.tickets
    requires s5.cache == map[] && s5.clock == 0.0 && s5.readers == map[0 := Missed(ReadStatus(id))]
    ensures RunTo(c, t, s7) && |t.steps| == 7
    ensures s7.committed == s5.committed && s7.writers == s5.writers && s7.readers == map[] && s7.clock == 0.0
    ensures s7.cache == map[StatusKey(id) := Entry(Encoded(StatusDto(id, s5.committed.tickets[id].status)),
                                                   c.settings.ttlStatus as real)]
  {
    hide Publishes, Disciplined, Fresh, ToDto, Found, Erase, RunTo;
    var was := s5.committed.tickets[id].status;
    SelectsStatus(c, s5.committed, id);
    var s6 := s5.(readers := map[0 := Loaded(ReadStatus(id), StatusDto(id, was), 5)]);
    s7 := Set(c, 6, s6, 0);
    t := Extend(c, t0, Select(0, StatusIs(was), 0.0), s5, s6);
    t := Extend(c, t, Store(0, true), s6, s7);
  }

  /** The writer commits, and another reader hits. */
  lemma LateCommit(c: ReadConfig, t0: Trace, s5: State, id: Uuid, after: Db)
    requires RunTo(c, t0, s5) && |t0.steps| == 5 && c.settings.ttlStatus > 0 && id in s5.committed.tickets
    requires s5.cache == map[] && s5.clock == 0.0 && s5.readers == map[0 := Missed(ReadStatus(id))]
    requires 1 in s5.writers && s5.writers[1].base == s5.committed && s5.writers[1].working == after
             && Disciplined(s5.writers[1])
    requires id in after.tickets && after.tickets[id].status != s5.committed.tickets[id].status
    ensures exists t, i, d :: Valid(c, t) && AllDisciplined(t)
                           && HitAt(c, t, i, ReadStatus(id), d) && !Current(c, t, i, ReadStatus(id), d)
  {
    hide Disciplined, ToDto, Erase, Set;
    var q, d := ReadStatus(id), StatusDto(id, s5.committed.tickets[id].status);
    var t, s7 := LateStore(c, t0, s5, id);
    var s8 := s7.(committed := after, writers := s7.writers - {1});
    var s9 := s8.(readers := map[2 := Ready(q)]);
    t := Extend(c, t, Commit(1, after), s7, s8);
    t := Extend(c, t, Start(2, q), s8, s9);
    t := Extend(c, t, Get(2, true, false), s9, Done(s9, 2));
    OldStatusIsStale(c, after, d);
    assert HitAt(c, t, 9, q, d) && !Current(c, t, 9, q, d);
  }

  lemma OldStatusIsStale(c: ReadConfig, db: Db, d: Dto)
    requires d.StatusDto? && d.ticketId in db.tickets && db.tickets[d.ticketId].status != d.status
    ensures !Loads(c.settings.eventsMaxItems, c.distance, View(db, 0.0), ReadStatus(d.ticketId), d)
  {}
}
