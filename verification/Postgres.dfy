/** A database session: the working state of a transaction over the last committed one. */
module Postgres {
  import opened Common
  import opened CacheKeys
  import opened Domain

  function RoutingNewestFirst(r: RoutingRow): real { -r.createdAt }
  function DraftNewestFirst(d: DraftRow): real { -d.createdAt }
  function TicketTime(t: (Uuid, Ticket)): real { t.1.createdAt }

  /** The tickets in a status, each with its id. */
  function InStatus(db: Db, status: TicketStatus): set<(Uuid, Ticket)> {
    set id | id in db.tickets && db.tickets[id].status == status :: (id, db.tickets[id])
  }

  class Session {
    var db: Db
    var committed: Db
    /** The start of the current transaction, which dates its rows. */
    var now: Time
    const distance: (Vector, Vector) -> real

    constructor (db: Db, now: Time, distance: (Vector, Vector) -> real)
      ensures this.db == committed == db && this.now == now && this.distance == distance
    {
      this.db, this.committed, this.now, this.distance := db, db, now, distance;
    }

    method Commit()
      modifies this`committed
      ensures committed == db
    {
      committed := db;
    }

    /** Starts the next transaction. */
    method Begin(at: Time)
      modifies this`now
      ensures now == at
    {
      now := at;
    }

    method LatestRoutingOf(id: Uuid) returns (r: Option<RoutingRow>)
      ensures r.None? <==> db.RoutingOf(id) == {}
      ensures r.Some? ==> LatestRouting(db, id, r.value)
    {
      var rows := OrderByLimit(db.RoutingOf(id), RoutingNewestFirst, 1);
      r := if rows == [] then None else Some(rows[0]);
      if rows != [] {
        forall x | x in db.RoutingOf(id) ensures x.createdAt <= rows[0].createdAt {
          assert x in rows || RoutingNewestFirst(rows[0]) <= RoutingNewestFirst(x);
        }
      }
    }

    method LatestDraftOf(id: Uuid) returns (r: Option<DraftRow>)
      ensures r.None? <==> db.DraftsOf(id) == {}
      ensures r.Some? ==> LatestDraft(db, id, r.value)
    {
      var rows := OrderByLimit(db.DraftsOf(id), DraftNewestFirst, 1);
      r := if rows == [] then None else Some(rows[0]);
      if rows != [] {
        forall x | x in db.DraftsOf(id) ensures x.createdAt <= rows[0].createdAt {
          assert x in rows || DraftNewestFirst(rows[0]) <= DraftNewestFirst(x);
        }
      }
    }

    method ListEvents(id: Uuid) returns (events: seq<EventRow>)
      ensures Listing(db, id, events)
    {
      events := OrderByLimit(db.EventsOf(id), EventTime, |db.EventsOf(id)|);
    }

    method SearchSimilar(s: Search) returns (rows: seq<SimilarRow>)
      ensures NearestRows(distance, db, now, s, rows)
    {
      rows := OrderByLimit(Candidates(distance, db, now, s), Distance, s.limit);
    }

    method ListByStatus(status: TicketStatus, limit: nat) returns (rows: seq<(Uuid, Ticket)>)
      ensures OrderedLimit(InStatus(db, status), TicketTime, limit, rows)
    {
      rows := OrderByLimit(InStatus(db, status), TicketTime, limit);
    }
  }
}
