/** The poll loop of the worker: oldest pending tickets first, a batch at a time, one commit per ticket. */
module PollLoop {
  import opened Common
  import opened CacheKeys
  import opened Domain
  import opened CacheStore
  import opened Postgres
  import opened Provider
  import opened EmbeddingService
  import opened AiWorkflowService
  import opened WorkflowTheorems
  import opened CacheModel
  import opened SerialCoherence
  import TicketQueryService

  // ---- one poll --------------------------------------------------------------------------------

  datatype Progress = Progress(db: Db, feed: Feed)

  /** Runs on the tickets `ids` one after another; run `i` starts at `at(i)` and its search finds `found[i]`. */
  function Worked(env: Env, at: nat -> Time, start: Progress, ids: seq<Uuid>, found: seq<seq<SimilarRow>>): Progress
    requires |found| == |ids|
  {
    if ids == [] then start
    else
      var i := |ids| - 1;
      var p := Worked(env, at, start, ids[..i], found[..i]);
      Progress(Pipeline(env, p.feed, at(i), p.db, ids[i], found[i]).db,
               FeedAfter(env, p.feed, at(i), p.db, ids[i], found[i]))
  }

  /** Every run worked with an answer of its own search. */
  ghost predicate AllMatch(env: Env, distance: (Vector, Vector) -> real, at: nat -> Time, start: Progress,
                           ids: seq<Uuid>,
                           found: seq<seq<SimilarRow>>)
    requires |found| == |ids|
  {
    forall i :: 0 <= i < |ids| ==>
      var p := Worked(env, at, start, ids[..i], found[..i]);
      Matches(env, p.feed, distance, at(i), p.db, ids[i], found[i])
  }

  function IdOf(t: (Uuid, Ticket)): Uuid { t.0 }

  /** The tickets a poll works on. */
  ghost predicate Picks(db: Db, batch: nat, picked: seq<(Uuid, Ticket)>) {
    OrderedLimit(InStatus(db, PendingEmbedding), TicketTime, batch, picked)
  }

  lemma NothingWorked(env: Env, distance: (Vector, Vector) -> real, at: nat -> Time, start: Progress)
    ensures Worked(env, at, start, [], []) == start && AllMatch(env, distance, at, start, [], [])
  {}

  lemma WorkedStep(env: Env, at: nat -> Time, start: Progress, ids: seq<Uuid>, found: seq<seq<SimilarRow>>, id: Uuid,
                   rows: seq<SimilarRow>)
    requires |found| == |ids|
    ensures var p := Worked(env, at, start, ids, found);
            Worked(env, at, start, ids + [id], found + [rows])
            == Progress(Pipeline(env, p.feed, at(|ids|), p.db, id, rows).db,
                        FeedAfter(env, p.feed, at(|ids|), p.db, id, rows))
  {}

  lemma AllMatchStep(env: Env, distance: (Vector, Vector) -> real, at: nat -> Time, start: Progress, ids: seq<Uuid>,
                     found: seq<seq<SimilarRow>>, id: Uuid, rows: seq<SimilarRow>)
    requires |found| == |ids| && AllMatch(env, distance, at, start, ids, found)
    requires var p := Worked(env, at, start, ids, found); Matches(env, p.feed, distance, at(|ids|), p.db, id, rows)
    ensures AllMatch(env, distance, at, start, ids + [id], found + [rows])
  {
    hide Matches, Worked;
    forall i | 0 <= i <= |ids|
      ensures var p := Worked(env, at, start, (ids + [id])[..i], (found + [rows])[..i]);
              Matches(env, p.feed, distance, at(i), p.db, (ids + [id])[i], (found + [rows])[i])
    {
      assert (ids + [id])[..i] == ids[..i] && (found + [rows])[..i] == found[..i];
      if i == |ids| { assert ids[..i] == ids && found[..i] == found; }
    }
  }

  function KeysOf(ids: seq<Uuid>): set<CacheKey> { set id, k | id in ids && k in TicketKeys(id) :: k }

  /** Entries go under keys of these tickets only, and if every delete reaches Redis a coherent cache stays so. */
  ghost predicate Invalidated(c: TicketQueryService.ReadConfig, a: Db, b: Db, before: Cache, after: Cache,
                              ids: seq<Uuid>,
                              all: bool) {
    && Removed(before, after, KeysOf(ids), false)
    && (all && Coherent(c, View(a, 0.0), before) ==> Coherent(c, View(b, 0.0), after))
  }

  lemma NothingInvalidated(c: TicketQueryService.ReadConfig, db: Db, cache: Cache, all: bool)
    ensures Invalidated(c, db, db, cache, cache, [], all)
  {}

  lemma InvalidatedOneMore(c: TicketQueryService.ReadConfig, a: Db, b: Db, d: Db, x: Cache, y: Cache, z: Cache,
                           ids: seq<Uuid>,
                           id: Uuid, all: bool)
    requires Invalidated(c, a, b, x, y, ids, all) && Invalidated(c, b, d, y, z, [id], all)
    ensures Invalidated(c, a, d, x, z, ids + [id], all)
  {
    hide Coherent;
    RemovedTwice(x, y, z, KeysOf(ids), KeysOf([id]), false);
    assert KeysOf(ids) + KeysOf([id]) == KeysOf(ids + [id]);
  }

  lemma RunInvalidates(c: TicketQueryService.ReadConfig, env: Env, feed: Feed, now: Time, db: Db, id: Uuid,
                       rows: seq<SimilarRow>,
                       before: Cache, after: Cache, all: bool)
    requires Removed(before, after, DeletedBy(Pipeline(env, feed, now, db, id, rows).ending, id), all)
    ensures Invalidated(c, db, Pipeline(env, feed, now, db, id, rows).db, before, after, [id], all)
  {
    hide Pipeline, Coherent, Covers;
    RunCovers(env, feed, now, db, id, rows);
    var r := Pipeline(env, feed, now, db, id, rows);
    assert DeletedBy(r.ending, id) <= TicketKeys(id) && KeysOf([id]) == TicketKeys(id);
    if all && Coherent(c, View(db, 0.0), before) {
      WriteKeepsCoherent(c, View(db, 0.0), View(r.db, 0.0), before, after, DeletedBy(r.ending, id));
    }
  }

  /** One ticket, worked and committed in a transaction starting at `at`. */
  method WorkOn(worker: AiWorkflowService, id: Uuid, at: Time, ghost c: TicketQueryService.ReadConfig)
    returns (ghost rows: seq<SimilarRow>)
    requires worker.Valid()
    modifies worker.session, worker.provider.embed`calls, worker.provider.classify`calls, worker.provider.suggest`calls,
      worker.Footprint()
    ensures worker.Valid() && worker.session.committed == worker.session.db
    ensures Matches(worker.env, old(worker.provider.State()), worker.session.distance, at, old(worker.session.db), id,
                    rows)
    ensures worker.session.db == Pipeline(worker.env, old(worker.provider.State()), at, old(worker.session.db), id,
                                          rows).db
    ensures worker.provider.State() == FeedAfter(worker.env, old(worker.provider.State()), at, old(worker.session.db),
                                                 id, rows)
    ensures Invalidated(c, old(worker.session.db), worker.session.db, old(worker.Entries()), worker.Entries(), [id],
                        AllReach(worker.invalidator))
  {
    hide Matches, Pipeline, FeedAfter, Invalidated;
    ghost var before, db, feed := worker.Entries(), worker.session.db, worker.provider.State();
    worker.session.Begin(at);
    rows := worker.ProcessTicket(id);
    worker.session.Commit();
    RunInvalidates(c, worker.env, feed, at, db, id, rows, before, worker.Entries(), AllReach(worker.invalidator));
  }

  /**
   One round of the loop. `at(i)` is the start of the transaction the `i`th ticket is worked in; `c` is how some
   API process reads through the same Redis.
   */
  method PollOnce(worker: AiWorkflowService, batch: nat, at: nat -> Time, ghost c: TicketQueryService.ReadConfig)
    returns (ghost picked: seq<(Uuid, Ticket)>, ghost found: seq<seq<SimilarRow>>)
    requires worker.Valid()
    modifies worker.session, worker.provider.embed`calls, worker.provider.classify`calls, worker.provider.suggest`calls,
      worker.Footprint()
    ensures worker.Valid() && |found| == |picked|
    ensures Picks(old(worker.session.db), batch, picked)
    ensures var start := Progress(old(worker.session.db), old(worker.provider.State()));
            && AllMatch(worker.env, worker.session.distance, at, start, Map(IdOf, picked), found)
            && Progress(worker.session.db, worker.provider.State()) == Worked(worker.env, at, start, Map(IdOf, picked),
                                                                              found)
    ensures worker.session.committed == if picked == [] then old(worker.session.committed) else worker.session.db
    ensures Invalidated(c, old(worker.session.db), worker.session.db, old(worker.Entries()), worker.Entries(),
                        Map(IdOf, picked),
                        AllReach(worker.invalidator))
  {
    hide Matches, Pipeline, FeedAfter, AllMatch, Worked, OrderedLimit, Invalidated;
    ghost var start := Progress(worker.session.db, worker.provider.State());
    NothingWorked(worker.env, worker.session.distance, at, start);
    NothingInvalidated(c, start.db, worker.Entries(), AllReach(worker.invalidator));
    var pending := worker.session.ListByStatus(PendingEmbedding, batch);
    picked, found := pending, [];
    ghost var ids: seq<Uuid> := [];
    var i := 0;
    while i < |pending|
      invariant 0 <= i <= |pending| && worker.Valid() && |found| == |ids| == i
      invariant ids == Map(IdOf, pending[..i])
      invariant AllMatch(worker.env, worker.session.distance, at, start, ids, found)
      invariant Progress(worker.session.db, worker.provider.State()) == Worked(worker.env, at, start, ids, found)
      invariant worker.session.committed == if i == 0 then old(worker.session.committed) else worker.session.db
      invariant Invalidated(c, old(worker.session.db), worker.session.db, old(worker.Entries()), worker.Entries(), ids,
                            AllReach(worker.invalidator))
    {
      ghost var db, entries := worker.session.db, worker.Entries();
      var rows := WorkOn(worker, pending[i].0, at(i), c);
      AllMatchStep(worker.env, worker.session.distance, at, start, ids, found, pending[i].0, rows);
      WorkedStep(worker.env, at, start, ids, found, pending[i].0, rows);
      InvalidatedOneMore(c, old(worker.session.db), db, worker.session.db, old(worker.Entries()), entries,
                         worker.Entries(), ids,
                         pending[i].0, AllReach(worker.invalidator));
      ids, found := ids + [pending[i].0], found + [rows];
      i := i + 1;
    }
    assert pending[..i] == pending;
  }

  // ---- what a poll does to the queue -----------------------------------------------------------

  predicate Pending(db: Db, id: Uuid) { id in db.tickets && db.tickets[id].status == PendingEmbedding }

  predicate Settled(db: Db, id: Uuid) {
    id in db.tickets && (db.tickets[id].status == Routed || db.tickets[id].status == Failed)
  }

  /** The tickets `ids` were settled and no other ticket was touched. */
  ghost predicate Settles(a: Db, b: Db, ids: seq<Uuid>) {
    && b.tickets.Keys == a.tickets.Keys
    && (forall id :: id in a.tickets ==> b.tickets[id] == a.tickets[id].(status := b.tickets[id].status))
    && (forall id :: id in a.tickets && id !in ids ==> b.tickets[id] == a.tickets[id])
    && (forall id :: id in ids ==> Settled(b, id))
  }

  lemma SettlesOneMore(a: Db, b: Db, c: Db, ids: seq<Uuid>, id: Uuid)
    requires Settles(a, b, ids) && id !in ids && id in a.tickets
    requires OnlyTicket(b, c, id) && Settled(c, id)
    ensures Settles(a, c, ids + [id])
  {}

  lemma KeepsWaiting(a: Db, b: Db, ids: seq<Uuid>, id: Uuid)
    requires Settles(a, b, ids) && id !in ids && Pending(a, id)
    ensures id in a.tickets && !Closed(b, id)
  {}

  lemma RunSettles(env: Env, feed: Feed, now: Time, a: Db, b: Db, ids: seq<Uuid>, id: Uuid, rows: seq<SimilarRow>)
    requires Settles(a, b, ids) && id !in ids && Pending(a, id) && b.OneActiveEach() && b.OnePendingEach()
    ensures var c := Pipeline(env, feed, now, b, id, rows).db;
            Settles(a, c, ids + [id]) && c.OneActiveEach() && c.OnePendingEach()
  {
    hide Pipeline, FeedAfter, OnlyTicket, Settles, Pending, Db.OneActiveEach, Db.OnePendingEach;
    KeepsWaiting(a, b, ids, id);
    RunTouchesOnly(env, feed, now, b, id, rows);
    RunKeepsUnique(env, feed, now, b, id, rows);
    SettlesOneMore(a, b, Pipeline(env, feed, now, b, id, rows).db, ids, id);
  }

  /** Working on distinct pending tickets settles each of them, whatever the provider does. */
  lemma {:induction false} WorkSettles(env: Env, at: nat -> Time, start: Progress, ids: seq<Uuid>,
                                       found: seq<seq<SimilarRow>>)
    requires |found| == |ids| && forall i, j :: 0 <= i < j < |ids| ==> ids[i] != ids[j]
    requires forall id :: id in ids ==> Pending(start.db, id)
    requires start.db.OneActiveEach() && start.db.OnePendingEach()
    ensures var after := Worked(env, at, start, ids, found).db;
            Settles(start.db, after, ids) && after.OneActiveEach() && after.OnePendingEach()
  {
    if ids != [] {
      hide Pipeline, FeedAfter, Settles, Pending, Db.OneActiveEach, Db.OnePendingEach;
      var i := |ids| - 1;
      var p := Worked(env, at, start, ids[..i], found[..i]);
      WorkSettles(env, at, start, ids[..i], found[..i]);
      RunSettles(env, p.feed, at(i), start.db, p.db, ids[..i], ids[i], found[i]);
      assert ids[..i] + [ids[i]] == ids;
    }
  }

  /** A poll takes its batch off the front of the queue. */
  ghost predicate Polled(batch: nat, a: Db, b: Db) {
    exists picked :: Picks(a, batch, picked) && Settles(a, b, Map(IdOf, picked))
  }

  /** One round of the loop settles the tickets it lists, whatever the provider does. */
  lemma PollSettles(env: Env, at: nat -> Time, start: Progress, batch: nat, picked: seq<(Uuid, Ticket)>,
                    found: seq<seq<SimilarRow>>)
    requires Picks(start.db, batch, picked) && |found| == |picked|
    requires start.db.OneActiveEach() && start.db.OnePendingEach()
    ensures var after := Worked(env, at, start, Map(IdOf, picked), found).db;
            Polled(batch, start.db, after) && after.OneActiveEach() && after.OnePendingEach()
  {
    hide Worked, Settles;
    PickedIds(start.db, batch, picked);
    WorkSettles(env, at, start, Map(IdOf, picked), found);
  }

  /** The listed tickets are pending, and no ticket is listed twice. */
  lemma PickedIds(db: Db, batch: nat, picked: seq<(Uuid, Ticket)>)
    requires Picks(db, batch, picked)
    ensures var ids := Map(IdOf, picked);
            && (forall id :: id in ids ==> Pending(db, id))
            && (forall i, j :: 0 <= i < j < |ids| ==> ids[i] != ids[j])
  {}
}
