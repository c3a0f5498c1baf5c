/** Finding past tickets near enough to help with a new one. */
module RetrievalService {
  import opened Common
  import opened CacheKeys
  import opened Domain
  import opened Postgres
  import opened EmbeddingService

  function SearchFor(env: Env, id: Uuid, vector: Vector, model: string, dimension: int): Search {
    Search(vector, env.settings.topK, Some(id), Some(model), Some(dimension), Some(env.settings.maxAgeDays))
  }

  function Near(env: Env): SimilarRow -> bool { (r: SimilarRow) => r.distance <= env.settings.usableMaxDistance }
  function Far(env: Env): SimilarRow -> bool { (r: SimilarRow) => r.distance > env.settings.usableMaxDistance }

  function Usable(env: Env, rows: seq<SimilarRow>): seq<SimilarRow> { Filter(Near(env), rows) }
  function Weak(env: Env, rows: seq<SimilarRow>): seq<SimilarRow> { Filter(Far(env), rows) }

  function Top(usable: seq<SimilarRow>): Option<real> {
    if usable == [] then None else Some(usable[0].distance)
  }

  function RetrievedDb(env: Env, now: Time, db: Db, id: Uuid, rows: seq<SimilarRow>): Db {
    db.WithEvent(now, id, EventType.RetrievalCompleted,
                 RetrievalPayload(|Usable(env, rows)|, |Weak(env, rows)|, Top(Usable(env, rows))))
  }

  /** Announces the search in the log, but deletes no cache key: the run that called it will. */
  method FindUsableMatches(env: Env, session: Session, id: Uuid, vector: Vector, model: string, dimension: int)
    returns (usable: seq<SimilarRow>, weak: seq<SimilarRow>, ghost rows: seq<SimilarRow>)
    modifies session`db
    ensures NearestRows(session.distance, old(session.db), session.now, SearchFor(env, id, vector, model, dimension),
                        rows)
    ensures Finds(env, session.distance, old(session.db), session.now, id, vector, model, dimension, rows)
    ensures usable == Usable(env, rows) && weak == Weak(env, rows)
    ensures usable + weak == rows && Cut(env, rows, |usable|, |weak|, Top(usable))
    ensures session.db == RetrievedDb(env, session.now, old(session.db), id, rows)
  {
    hide Finds, Cut, NearestRows;
    var found := session.SearchSimilar(SearchFor(env, id, vector, model, dimension));
    rows := found;
    usable := Filter(Near(env), found);
    weak := Filter(Far(env), found);
    SearchFinds(env, session.distance, session.db, session.now, id, vector, model, dimension, rows);
    MatchesPartition(env, session.distance, session.db, session.now, SearchFor(env, id, vector, model, dimension),
                     rows);
    session.db := session.db.WithEvent(session.now, id, EventType.RetrievalCompleted,
                                       RetrievalPayload(|usable|, |weak|, Top(usable)));
  }

  /** So many of the rows are near enough, and so many are not: the near ones come first, and `top` heads them. */
  predicate Cut(env: Env, rows: seq<SimilarRow>, usable: nat, weak: nat, top: Option<real>) {
    && usable + weak == |rows|
    && (forall i :: 0 <= i < |rows| ==> (rows[i].distance <= env.settings.usableMaxDistance <==> i < usable))
    && top == if usable == 0 then None else Some(rows[0].distance)
  }

  /** Usable and weak matches partition the answer in order, the usable ones first and the nearest at their head. */
  lemma MatchesPartition(env: Env, distance: (Vector, Vector) -> real, db: Db, now: Time, s: Search,
                         rows: seq<SimilarRow>)
    requires NearestRows(distance, db, now, s, rows)
    ensures Usable(env, rows) + Weak(env, rows) == rows
    ensures Cut(env, rows, |Usable(env, rows)|, |Weak(env, rows)|, Top(Usable(env, rows)))
    ensures forall r :: r in rows ==> (r in Usable(env, rows) <==> r.distance <= env.settings.usableMaxDistance)
    ensures Top(Usable(env, rows)).Some? ==> forall r :: r in rows ==> Top(Usable(env, rows)).value <= r.distance
    ensures Top(Usable(env, rows)).Some? ==> exists r :: r in rows && r.distance == Top(Usable(env, rows)).value
    ensures Top(Usable(env, rows)).None? ==> forall r :: r in rows ==> r.distance > env.settings.usableMaxDistance
  {
    hide Filter, NearestRows;
    RowsAscend(distance, db, now, s, rows);
    UsableThenWeak(env, rows);
  }

  lemma RowsAscend(distance: (Vector, Vector) -> real, db: Db, now: Time, s: Search, rows: seq<SimilarRow>)
    requires NearestRows(distance, db, now, s, rows)
    ensures forall i, j :: 0 <= i < j < |rows| ==> rows[i].distance <= rows[j].distance
  {
    hide Passes, Shows, Candidates;
    SearchMeans(distance, db, now, s, rows);
  }

  lemma UsableThenWeak(env: Env, rows: seq<SimilarRow>)
    requires forall i, j :: 0 <= i < j < |rows| ==> rows[i].distance <= rows[j].distance
    ensures Usable(env, rows) + Weak(env, rows) == rows
    ensures Cut(env, rows, |Usable(env, rows)|, |Weak(env, rows)|, Top(Usable(env, rows)))
  {
    hide Filter;
    SplitFilter(Near(env), Far(env), rows);
    PartsCut(env, Usable(env, rows), Weak(env, rows));
  }

  lemma PartsCut(env: Env, near: seq<SimilarRow>, far: seq<SimilarRow>)
    requires forall r :: r in near ==> r.distance <= env.settings.usableMaxDistance
    requires forall r :: r in far ==> r.distance > env.settings.usableMaxDistance
    ensures Cut(env, near + far, |near|, |far|, Top(near))
  {
    var rows := near + far;
    forall i | 0 <= i < |rows| ensures rows[i].distance <= env.settings.usableMaxDistance <==> i < |near| {
      assert if i < |near| then rows[i] in near else rows[i] in far;
    }
  }

  /** An active embedding of another ticket, of this model and dimension, not older than the setting allows. */
  ghost predicate MayMatch(env: Env, db: Db, now: Time, id: Uuid, model: string, dimension: int, e: EmbeddingRow) {
    && e in db.embeddings && e.active && e.ticketId in db.tickets && e.ticketId != id
    && e.model == model && e.dimension == dimension
    && now - db.tickets[e.ticketId].createdAt <= env.settings.maxAgeDays as real * 86400.0
  }

  /**
   The rows are the nearest of what may match, nearest first, `topK` at most: each shows something that may match, and
   whatever may match is shown, unless the list is full and nothing in it is farther.
   */
  ghost predicate Finds(env: Env, distance: (Vector, Vector) -> real, db: Db, now: Time, id: Uuid, vector: Vector,
                        model: string, dimension: int, rows: seq<SimilarRow>) {
    && |rows| <= env.settings.topK
    && (forall i, j :: 0 <= i < j < |rows| ==> rows[i].distance <= rows[j].distance && rows[i] != rows[j])
    && (forall r :: r in rows ==>
          exists e :: MayMatch(env, db, now, id, model, dimension, e) && Shows(distance, db, vector, e, r))
    && (forall e :: MayMatch(env, db, now, id, model, dimension, e) ==>
          || (exists r :: r in rows && Shows(distance, db, vector, e, r))
          || (|rows| == env.settings.topK && forall r :: r in rows ==> r.distance <= distance(e.vector, vector)))
  }

  /** The worker's search finds just that. */
  lemma SearchFinds(env: Env, distance: (Vector, Vector) -> real, db: Db, now: Time, id: Uuid, vector: Vector,
                    model: string, dimension: int, rows: seq<SimilarRow>)
    requires NearestRows(distance, db, now, SearchFor(env, id, vector, model, dimension), rows)
    ensures Finds(env, distance, db, now, id, vector, model, dimension, rows)
  {
    var s := SearchFor(env, id, vector, model, dimension);
    SearchMeans(distance, db, now, s, rows);
    assert forall e :: MayMatch(env, db, now, id, model, dimension, e) <==> Passes(db, now, s, e);
  }
}
