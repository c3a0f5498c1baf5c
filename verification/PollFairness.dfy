/** How long a ticket waits for the worker, whatever arrives in the meantime. */
module PollFairness {
  import opened Common
  import opened CacheKeys
  import opened Domain
  import opened Postgres
  import opened TicketQueryService
  import opened AiWorkflowService
  import opened WorkflowTheorems
  import opened SerialCoherence
  import opened PollLoop

  // ---- no ticket waits forever -----------------------------------------------------------------

  function PendingIds(db: Db): set<Uuid> { set id | id in db.tickets && Pending(db, id) }

  /** The other pending tickets no younger than this one. */
  function Ahead(db: Db, id: Uuid): set<Uuid>
    requires id in db.tickets
  {
    set x | x in db.tickets && Pending(db, x) && x != id && db.tickets[x].createdAt <= db.tickets[id].createdAt
  }

  /** A pending ticket that a poll leaves waiting was preceded by a full batch of tickets ahead of it. */
  lemma LeftBehind(batch: nat, a: Db, picked: seq<(Uuid, Ticket)>, id: Uuid)
    requires Picks(a, batch, picked) && Pending(a, id) && id !in Map(IdOf, picked)
    ensures var done := set x | x in Map(IdOf, picked);
            |done| == batch && done <= Ahead(a, id)
  {
    PickedIds(a, batch, picked);
    DistinctCount(Map(IdOf, picked));
    var rows, own := InStatus(a, PendingEmbedding), (id, a.tickets[id]);
    assert own in rows;
    forall i | 0 <= i < |picked| ensures picked[i].0 in Ahead(a, id) {
      assert Map(IdOf, picked)[i] == picked[i].0;
      assert picked[i] in rows;
      assert TicketTime(picked[i]) <= TicketTime(own);
    }
    if |picked| == |rows| { ListIsComplete(rows, picked); }
  }

  /** Between two polls tickets may arrive, however they are dated, and no old one becomes pending again. */
  ghost predicate Arrives(a: Db, b: Db) {
    && a.tickets.Keys <= b.tickets.Keys
    && forall x :: x in a.tickets ==>
         b.tickets[x].createdAt == a.tickets[x].createdAt && (Pending(b, x) ==> Pending(a, x))
  }

  /** The arrivals that go before `id`, or may, because they are dated no later. */
  function Joined(a: Db, b: Db, id: Uuid): set<Uuid>
    requires id in b.tickets
  {
    set x | x in b.tickets && x !in a.tickets && Pending(b, x) && b.tickets[x].createdAt <= b.tickets[id].createdAt
  }

  /** A poll, and then whatever happens before the next one, when at most `joins` tickets arrive that may go first. */
  ghost predicate Round(batch: nat, a: Db, b: Db, id: Uuid, joins: nat) {
    exists mid :: Polled(batch, a, mid) && Arrives(mid, b) && id in b.tickets && |Joined(mid, b, id)| <= joins
  }

  /** Settled tickets leave the part of the queue ahead of a waiting one, and only such arrivals join it. */
  lemma AheadMoves(a: Db, mid: Db, b: Db, ids: seq<Uuid>, id: Uuid)
    requires Settles(a, mid, ids) && id in a.tickets && Arrives(mid, b) && Pending(b, id)
    ensures Pending(a, id) && id !in ids
    ensures Ahead(b, id) <= (Ahead(a, id) - set x | x in ids) + Joined(mid, b, id)
  {}

  lemma RoundKeeps(batch: nat, a: Db, b: Db, id: Uuid, joins: nat)
    requires id in a.tickets && Round(batch, a, b, id, joins)
    ensures id in b.tickets && b.tickets[id].createdAt == a.tickets[id].createdAt && (Pending(b, id) ==> Pending(a, id))
  {}

  /** A round that does not serve the ticket serves a full batch of those ahead of it. */
  lemma RoundAdvances(batch: nat, a: Db, b: Db, id: Uuid, joins: nat)
    requires id in a.tickets && Round(batch, a, b, id, joins) && Pending(b, id)
    ensures batch <= |Ahead(a, id)| && |Ahead(b, id)| + batch <= |Ahead(a, id)| + joins
  {
    hide Picks, Pending, Ahead, Joined;
    RoundKeeps(batch, a, b, id, joins);
    var mid :| Polled(batch, a, mid) && Arrives(mid, b) && |Joined(mid, b, id)| <= joins;
    var picked :| Picks(a, batch, picked) && Settles(a, mid, Map(IdOf, picked));
    var done := set x | x in Map(IdOf, picked);
    AheadMoves(a, mid, b, Map(IdOf, picked), id);
    LeftBehind(batch, a, picked, id);
    SubsetSize(done, Ahead(a, id));
    SubsetSize(Ahead(b, id), (Ahead(a, id) - done) + Joined(mid, b, id));
  }

  /** `dbs[i]` is the database before poll `i`; at most `joins[i]` tickets that may go first arrive after it. */
  ghost predicate Rounds(batch: nat, dbs: seq<Db>, id: Uuid, joins: seq<nat>) {
    && |dbs| == |joins| + 1 && id in dbs[0].tickets
    && forall i :: 0 <= i < |joins| ==> Round(batch, dbs[i], dbs[i + 1], id, joins[i])
  }

  lemma {:induction false} StillPendingAfter(batch: nat, dbs: seq<Db>, id: Uuid, joins: seq<nat>, n: nat)
    requires Rounds(batch, dbs, id, joins) && n <= |joins|
    ensures id in dbs[n].tickets && (Pending(dbs[n], id) ==> Pending(dbs[0], id))
    ensures Pending(dbs[n], id) ==> |Ahead(dbs[n], id)| + n * batch <= |Ahead(dbs[0], id)| + Sum(joins[..n])
  {
    hide Round, Pending, Ahead;
    if n > 0 {
      StillPendingAfter(batch, dbs, id, joins, n - 1);
      RoundKeeps(batch, dbs[n - 1], dbs[n], id, joins[n - 1]);
      assert joins[..n][..n - 1] == joins[..n - 1];
      if Pending(dbs[n], id) { RoundAdvances(batch, dbs[n - 1], dbs[n], id, joins[n - 1]); }
      assert n * batch == (n - 1) * batch + batch;
    }
  }

  lemma {:induction false} StaysServed(batch: nat, dbs: seq<Db>, id: Uuid, joins: seq<nat>, m: nat, n: nat)
    requires Rounds(batch, dbs, id, joins) && m <= n <= |joins|
    ensures id in dbs[n].tickets && (Pending(dbs[n], id) ==> Pending(dbs[m], id))
  {
    hide Round, Pending;
    StillPendingAfter(batch, dbs, id, joins, n);
    if m < n {
      StaysServed(batch, dbs, id, joins, m, n - 1);
      RoundKeeps(batch, dbs[n - 1], dbs[n], id, joins[n - 1]);
    }
  }

  /**
   A ticket with `k` others ahead of it is served by poll `j` at the latest, counted from 0, if `k` and the arrivals
   before that poll that may go first do not fill `j + 1` batches.
   */
  lemma WaitIsBounded(batch: nat, dbs: seq<Db>, id: Uuid, joins: seq<nat>, j: nat)
    requires Rounds(batch, dbs, id, joins) && j < |joins|
    requires |Ahead(dbs[0], id)| + Sum(joins[..j]) < (j + 1) * batch
    ensures id in dbs[|joins|].tickets && !Pending(dbs[|joins|], id)
  {
    hide Pending, Ahead, Round;
    StillPendingAfter(batch, dbs, id, joins, j);
    StillPendingAfter(batch, dbs, id, joins, j + 1);
    StaysServed(batch, dbs, id, joins, j + 1, |joins|);
    RoundKeeps(batch, dbs[j], dbs[j + 1], id, joins[j]);
    if Pending(dbs[j + 1], id) { RoundAdvances(batch, dbs[j], dbs[j + 1], id, joins[j]); }
    assert (j + 1) * batch == j * batch + batch;
  }

  /** When only younger tickets arrive, `k / batch + 1` polls are enough. */
  lemma NoTicketWaitsForever(batch: nat, dbs: seq<Db>, id: Uuid)
    requires batch >= 1 && dbs != [] && id in dbs[0].tickets && |dbs| == |Ahead(dbs[0], id)| / batch + 2
    requires Rounds(batch, dbs, id, seq(|dbs| - 1, _ => 0))
    ensures id in dbs[|dbs| - 1].tickets && !Pending(dbs[|dbs| - 1], id)
  {
    hide Pending, Ahead, Rounds;
    var k := |Ahead(dbs[0], id)|;
    var none: seq<nat> := seq(|dbs| - 1, _ => 0);
    NothingJoins(none[..k / batch]);
    TooManyBatches(k, batch);
    WaitIsBounded(batch, dbs, id, none, k / batch);
  }

  lemma {:induction false} NothingJoins(s: seq<nat>)
    requires forall i :: 0 <= i < |s| ==> s[i] == 0
    ensures Sum(s) == 0
  {
    if s != [] { NothingJoins(s[..|s| - 1]); }
  }

  lemma TooManyBatches(k: nat, batch: nat)
    requires batch >= 1
    ensures (k / batch + 1) * batch > k
  {}

  /** With no arrivals, a poll takes its batch, or everything, off the queue. */
  lemma PollShortensQueue(batch: nat, a: Db, b: Db)
    requires Polled(batch, a, b)
    ensures |PendingIds(b)| == |PendingIds(a)| - (if batch < |PendingIds(a)| then batch else |PendingIds(a)|)
  {
    var picked :| Picks(a, batch, picked) && Settles(a, b, Map(IdOf, picked));
    hide Settles, Pending;
    var ids := Map(IdOf, picked);
    PickedIds(a, batch, picked);
    DistinctCount(ids);
    QueueLeft(a, b, ids);
    SameSize(a);
  }

  /** Settling pending tickets takes just them off the queue. */
  lemma QueueLeft(a: Db, b: Db, ids: seq<Uuid>)
    requires Settles(a, b, ids) && forall id :: id in ids ==> Pending(a, id)
    ensures var done := set x | x in ids; PendingIds(b) == PendingIds(a) - done && done <= PendingIds(a)
  {}

  /** As many rows are listed as pending as there are pending tickets. */
  lemma SameSize(db: Db)
    ensures |InStatus(db, PendingEmbedding)| == |PendingIds(db)|
  {
    RowsPerId(db, PendingIds(db), InStatus(db, PendingEmbedding));
  }

  lemma {:induction false} RowsPerId(db: Db, ids: set<Uuid>, rows: set<(Uuid, Ticket)>)
    requires forall id :: id in ids ==> id in db.tickets
    requires rows == set id | id in ids :: (id, db.tickets[id])
    ensures |rows| == |ids|
    decreases ids
  {
    if ids != {} {
      var id :| id in ids;
      var row := (id, db.tickets[id]);
      RowsPerId(db, ids - {id}, rows - {row});
    }
  }

  // ---- what arrives ----------------------------------------------------------------------------

  /** Every write of either service is such an arrival: only creating a ticket makes one pending. */
  lemma WritesArrive(c: ReadConfig, s: Step, w: World)
    requires Enabled(c, s, w)
    ensures Arrives(w.db, Written(s, w.db, w.now))
  {
    hide Pipeline, Matches;
    if s.Work? { RunTouchesOnly(s.env, s.feed, w.now, w.db, s.id, s.rows); }
  }

  lemma ArrivalsCompose(a: Db, b: Db, c: Db)
    requires Arrives(a, b) && Arrives(b, c)
    ensures Arrives(a, c)
  {}
}
