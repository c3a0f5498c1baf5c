/** Runs of the loop with tickets created between polls, and exactly when a ticket is served whatever the ties. */
module PollPlays {
  import opened Common
  import opened CacheKeys
  import opened Domain
  import opened Postgres
  import opened Provider
  import opened ClassificationService
  import opened EmbeddingService
  import opened RetrievalService
  import opened AiWorkflowService
  import opened PollLoop
  import opened PollFairness
  import ApiWriters

  // ---- creating tickets ------------------------------------------------------------------------

  /** A ticket is dated when its request stores it, but polls see it only once that request has committed. */
  datatype New = New(id: Uuid, source: string, subject: string, body: string, now: Time)

  function Created(db: Db, news: seq<New>): Db {
    if news == [] then db
    else
      var last := news[|news| - 1];
      ApiWriters.CreatedDb(Created(db, news[..|news| - 1]), last.now, last.id, last.source, last.subject, last.body)
  }

  function Ids(news: seq<New>): set<Uuid> { set n | n in news :: n.id }

  /** The new tickets that go before one dated `at`, or may. */
  function Rivals(news: seq<New>, at: Time): set<Uuid> { set n | n in news && n.now <= at :: n.id }

  predicate Distinct(news: seq<New>) { forall i, j :: 0 <= i < j < |news| ==> news[i].id != news[j].id }

  /** Fresh ids throughout: none among `taken`, none twice. */
  predicate FreshIds(taken: set<Uuid>, news: seq<seq<New>>)
    decreases |news|
  {
    news == [] || (Distinct(news[0]) && Ids(news[0]) !! taken && FreshIds(taken + Ids(news[0]), news[1..]))
  }

  ghost predicate Waits(db: Db, n: New) {
    n.id in db.tickets && Pending(db, n.id) && db.tickets[n.id].createdAt == n.now
  }

  /** `b` holds the tickets of `a` as they were, and each new one pending since its date. */
  ghost predicate Holds(a: Db, b: Db, news: seq<New>) {
    && b.tickets.Keys == a.tickets.Keys + Ids(news)
    && (forall x :: x in a.tickets ==> b.tickets[x] == a.tickets[x])
    && (forall n :: n in news ==> Waits(b, n))
    && b.embeddings == a.embeddings && b.drafts == a.drafts
  }

  lemma HoldsOneMore(a: Db, b: Db, c: Db, news: seq<New>, last: New)
    requires Holds(a, b, news) && last.id !in b.tickets
    requires c == ApiWriters.CreatedDb(b, last.now, last.id, last.source, last.subject, last.body)
    ensures Holds(a, c, news + [last])
  {
    assert Ids(news + [last]) == Ids(news) + {last.id};
    forall n | n in news + [last] ensures Waits(c, n) {
      if n in news { assert Waits(b, n); }
    }
  }

  lemma {:induction false} CreatedHolds(db: Db, news: seq<New>)
    requires Distinct(news) && Ids(news) !! db.tickets.Keys
    ensures Holds(db, Created(db, news), news)
  {
    if news != [] {
      hide Holds;
      var init, last := news[..|news| - 1], news[|news| - 1];
      assert news == init + [last];
      assert last.id !in Ids(init) && Ids(init) <= Ids(news);
      CreatedHolds(db, init);
      KeysHeld(db, Created(db, init), init);
      HoldsOneMore(db, Created(db, init), Created(db, news), init, last);
    } else {
      assert Ids(news) == {};
    }
  }

  lemma KeysHeld(a: Db, b: Db, news: seq<New>)
    requires Holds(a, b, news)
    ensures b.tickets.Keys == a.tickets.Keys + Ids(news)
  {}

  // ---- plays -----------------------------------------------------------------------------------

  /** One poll by the worker, on the tickets `picked`, and the tickets created before the next one. */
  ghost predicate Plays(env: Env, distance: (Vector, Vector) -> real, at: nat -> Time, batch: nat, a: Progress,
                        news: seq<New>,
                        b: Progress, picked: seq<(Uuid, Ticket)>, found: seq<seq<SimilarRow>>) {
    && |found| == |picked| && Picks(a.db, batch, picked)
    && AllMatch(env, distance, at, a, Map(IdOf, picked), found)
    && var worked := Worked(env, at, a, Map(IdOf, picked), found);
       b == Progress(Created(worked.db, news), worked.feed)
  }

  ghost predicate PlayRound(env: Env, distance: (Vector, Vector) -> real, at: nat -> Time, batch: nat, a: Progress,
                            news: seq<New>,
                            b: Progress) {
    exists picked, found :: Plays(env, distance, at, batch, a, news, b, picked, found)
  }

  /** `ps[i]` is the state before poll `i`; `ats[i]` dates the transactions of that poll, and `news[i]` follows it. */
  ghost predicate Play(env: Env, distance: (Vector, Vector) -> real, ats: seq<nat -> Time>, batch: nat,
                       ps: seq<Progress>,
                       news: seq<seq<New>>) {
    && |ps| == |news| + 1 && |ats| == |news|
    && forall i :: 0 <= i < |news| ==> PlayRound(env, distance, ats[i], batch, ps[i], news[i], ps[i + 1])
  }

  function RivalCounts(news: seq<seq<New>>, at: Time): seq<nat> { Map((n: seq<New>) => |Rivals(n, at)|, news) }

  ghost predicate Unique(db: Db) { db.OneActiveEach() && db.OnePendingEach() }

  lemma CreatedStayUnique(a: Db, b: Db, news: seq<New>)
    requires Holds(a, b, news) && Unique(a)
    ensures Unique(b)
  {}

  /** Among the tickets created after a poll, just the rivals join the queue ahead of `id`. */
  lemma RivalsJoin(a: Db, b: Db, news: seq<New>, id: Uuid)
    requires Holds(a, b, news) && id in a.tickets && Ids(news) !! a.tickets.Keys
    ensures Arrives(a, b) && id in b.tickets && b.tickets[id] == a.tickets[id]
    ensures Joined(a, b, id) == Rivals(news, a.tickets[id].createdAt)
    ensures Ahead(b, id) == Ahead(a, id) + Joined(a, b, id)
  {
    forall x | x in b.tickets && x !in a.tickets
      ensures x in Joined(a, b, id) <==> x in Rivals(news, a.tickets[id].createdAt)
    {
      var n :| n in news && n.id == x;
      assert Waits(b, n);
    }
    forall n | n in news ensures n.id in b.tickets && n.id !in a.tickets { assert Waits(b, n) && n.id in Ids(news); }
  }

  /** A round of a play is a round of the queue, in which just the rivals join. */
  lemma PlayRoundIsRound(env: Env, distance: (Vector, Vector) -> real, at: nat -> Time, batch: nat, a: Progress,
                         news: seq<New>,
                         b: Progress, id: Uuid)
    requires PlayRound(env, distance, at, batch, a, news, b) && Unique(a.db) && id in a.db.tickets
    requires Distinct(news) && Ids(news) !! a.db.tickets.Keys
    ensures Round(batch, a.db, b.db, id, |Rivals(news, a.db.tickets[id].createdAt)|)
    ensures Unique(b.db) && b.db.tickets.Keys == a.db.tickets.Keys + Ids(news)
    ensures b.db.tickets[id].createdAt == a.db.tickets[id].createdAt
  {
    hide AllMatch, Worked, Picks, Settles, Holds, Arrives, Joined, Rivals, Created;
    var picked, found :| Plays(env, distance, at, batch, a, news, b, picked, found);
    var mid := Worked(env, at, a, Map(IdOf, picked), found).db;
    PollSettles(env, at, a, batch, picked, found);
    PolledTickets(batch, a.db, mid);
    CreatedHolds(mid, news);
    KeysHeld(mid, b.db, news);
    CreatedStayUnique(mid, b.db, news);
    RivalsJoin(mid, b.db, news, id);
  }

  lemma PolledTickets(batch: nat, a: Db, b: Db)
    requires Polled(batch, a, b)
    ensures b.tickets.Keys == a.tickets.Keys && forall x :: x in a.tickets ==>
            b.tickets[x].createdAt == a.tickets[x].createdAt
  {}

  // ---- enough polls always serve ---------------------------------------------------------------

  function DbOf(p: Progress): Db { p.db }

  /** A play on a waiting ticket is a run of rounds in which the rivals join. */
  lemma {:induction false} PlayIsRounds(env: Env, distance: (Vector, Vector) -> real, ats: seq<nat -> Time>, batch: nat,
                                        ps: seq<Progress>, news: seq<seq<New>>, id: Uuid)
    requires Play(env, distance, ats, batch, ps, news) && Unique(ps[0].db) && id in ps[0].db.tickets
    requires FreshIds(ps[0].db.tickets.Keys, news)
    ensures Rounds(batch, Map(DbOf, ps), id, RivalCounts(news, ps[0].db.tickets[id].createdAt))
    decreases |news|
  {
    hide PlayRound, Unique, Round;
    var joins := RivalCounts(news, ps[0].db.tickets[id].createdAt);
    if news != [] {
      PlayRoundIsRound(env, distance, ats[0], batch, ps[0], news[0], ps[1], id);
      forall i | 0 <= i < |news[1..]|
        ensures PlayRound(env, distance, ats[1..][i], batch, ps[1..][i], news[1..][i], ps[1..][i + 1]) {
        assert ats[1..][i] == ats[i + 1] && ps[1..][i] == ps[i + 1] && news[1..][i] == news[i + 1];
      }
      PlayIsRounds(env, distance, ats[1..], batch, ps[1..], news[1..], id);
      var dbs, later := Map(DbOf, ps), Map(DbOf, ps[1..]);
      forall i | 0 <= i < |joins| ensures Round(batch, dbs[i], dbs[i + 1], id, joins[i]) {
        if i > 0 {
          assert later[i - 1] == dbs[i] && later[i] == dbs[i + 1];
          assert RivalCounts(news[1..], ps[0].db.tickets[id].createdAt)[i - 1] == joins[i];
        }
      }
    }
  }

  // ---- fewer may not ---------------------------------------------------------------------------

  /** Every run has matches to work with. */
  lemma SomeMatches(env: Env, feed: Feed, distance: (Vector, Vector) -> real, now: Time, db: Db, id: Uuid)
    returns (rows: seq<SimilarRow>)
    ensures Matches(env, feed, distance, now, db, id, rows)
  {
    hide Embed, AfterEmbed, ClassifiedDb, Candidates;
    rows := [];
    if !Closed(db, id) {
      var e, asked := Embedding(env, feed, now, db, id), AfterEmbed(env, feed, Begun(now, db, id), id);
      if e.EmbedDone? {
        var s := SearchFor(env, id, e.vector, e.model, e.dimension);
        rows := SomeOrder(Candidates(distance, Searchable(env, asked, now, id, e), now, s), Distance, s.limit);
      }
    }
  }

  lemma {:induction false} SomeFound(env: Env, distance: (Vector, Vector) -> real, at: nat -> Time, start: Progress,
                                     ids: seq<Uuid>)
    returns (found: seq<seq<SimilarRow>>)
    ensures |found| == |ids| && AllMatch(env, distance, at, start, ids, found)
  {
    hide AllMatch, Matches, Worked;
    if ids == [] {
      found := [];
      NothingWorked(env, distance, at, start);
    } else {
      var i := |ids| - 1;
      var init := SomeFound(env, distance, at, start, ids[..i]);
      var p := Worked(env, at, start, ids[..i], init);
      var rows := SomeMatches(env, p.feed, distance, at(i), p.db, ids[i]);
      AllMatchStep(env, distance, at, start, ids[..i], init, ids[i], rows);
      found := init + [rows];
      assert ids[..i] + [ids[i]] == ids;
    }
  }

  function RowsOf(db: Db, ids: set<Uuid>): set<(Uuid, Ticket)>
    requires ids <= db.tickets.Keys
  {
    set x | x in ids :: (x, db.tickets[x])
  }

  /** With a full batch ahead of it, a ticket may be left out. */
  lemma WorstPick(db: Db, batch: nat, id: Uuid) returns (picked: seq<(Uuid, Ticket)>)
    requires Pending(db, id) && batch <= |Ahead(db, id)|
    ensures Picks(db, batch, picked) && |picked| == batch && id !in Map(IdOf, picked)
  {
    var rivals, all, own := RowsOf(db, Ahead(db, id)), InStatus(db, PendingEmbedding), (id, db.tickets[id]);
    RowsPerId(db, Ahead(db, id), rivals);
    picked := SomeOrder(rivals, TicketTime, batch);
    assert rivals <= all;
    SubsetSize(rivals, all);
    forall r | r in all && r !in rivals ensures TicketTime(own) <= TicketTime(r) { assert r.0 !in Ahead(db, id); }
    forall r | r in rivals ensures TicketTime(r) <= TicketTime(own) && r.0 != id {}
    assert OrderedLimit(all, TicketTime, batch, picked);
  }

  /** After a poll that left the ticket out, the queue ahead of it is shorter by just the batch. */
  lemma LeftExactly(batch: nat, a: Db, mid: Db, picked: seq<(Uuid, Ticket)>, id: Uuid)
    requires Picks(a, batch, picked) && Settles(a, mid, Map(IdOf, picked)) && Pending(a, id) && id !in Map(IdOf, picked)
    ensures Pending(mid, id) && mid.tickets[id] == a.tickets[id] && |Ahead(mid, id)| == |Ahead(a, id)| - batch
  {
    hide Picks;
    LeftBehind(batch, a, picked, id);
    var done := set x | x in Map(IdOf, picked);
    AheadLoses(a, mid, Map(IdOf, picked), id);
    assert |Ahead(a, id) - done| == |Ahead(a, id)| - |done|;
  }

  lemma AheadLoses(a: Db, mid: Db, ids: seq<Uuid>, id: Uuid)
    requires Settles(a, mid, ids) && Pending(a, id) && id !in ids
    ensures Pending(mid, id) && mid.tickets[id] == a.tickets[id]
    ensures Ahead(mid, id) == Ahead(a, id) - set x | x in ids
  {}

  /** The round that goes worst for a waiting ticket. */
  lemma WorstRound(env: Env, distance: (Vector, Vector) -> real, at: nat -> Time, batch: nat, a: Progress,
                   news: seq<New>, id: Uuid)
    returns (b: Progress)
    requires Unique(a.db) && Pending(a.db, id) && batch <= |Ahead(a.db, id)|
    requires Distinct(news) && Ids(news) !! a.db.tickets.Keys
    ensures PlayRound(env, distance, at, batch, a, news, b) && Pending(b.db, id)
    ensures b.db.tickets[id].createdAt == a.db.tickets[id].createdAt
    ensures |Ahead(b.db, id)| == |Ahead(a.db, id)| - batch + |Rivals(news, a.db.tickets[id].createdAt)|
  {
    hide AllMatch, Worked, Picks, Settles, Holds, Arrives, Rivals, Created, Unique, Ahead;
    var picked := WorstPick(a.db, batch, id);
    var found := SomeFound(env, distance, at, a, Map(IdOf, picked));
    var worked := Worked(env, at, a, Map(IdOf, picked), found);
    b := Progress(Created(worked.db, news), worked.feed);
    assert Plays(env, distance, at, batch, a, news, b, picked, found);
    BothUnique(a.db);
    PickedIds(a.db, batch, picked);
    WorkSettles(env, at, a, Map(IdOf, picked), found);
    LeftExactly(batch, a.db, worked.db, picked, id);
    KeysSettled(a.db, worked.db, Map(IdOf, picked));
    CreatedHolds(worked.db, news);
    RivalsJoin(worked.db, b.db, news, id);
    Apart(worked.db, b.db, id);
  }

  lemma BothUnique(db: Db)
    requires Unique(db)
    ensures db.OneActiveEach() && db.OnePendingEach()
  {}

  lemma KeysSettled(a: Db, b: Db, ids: seq<Uuid>)
    requires Settles(a, b, ids)
    ensures b.tickets.Keys == a.tickets.Keys
  {}

  /** Those ahead already and those that join are different tickets. */
  lemma Apart(a: Db, b: Db, id: Uuid)
    requires id in a.tickets && id in b.tickets && Ahead(b, id) == Ahead(a, id) + Joined(a, b, id)
    ensures |Ahead(b, id)| == |Ahead(a, id)| + |Joined(a, b, id)|
  {
    assert Ahead(a, id) !! Joined(a, b, id);
  }

  /** What is ahead of the ticket and the rivals that join before a poll fill its batch and all those before it. */
  ghost predicate Fills(batch: nat, k: nat, joins: seq<nat>, j: nat)
    requires j < |joins|
  {
    (j + 1) * batch <= k + Sum(joins[..j])
  }

  lemma {:induction false} SumFront(s: seq<nat>, n: nat)
    requires 0 < n <= |s|
    ensures Sum(s[..n]) == s[0] + Sum(s[1..][..n - 1])
  {
    if n > 1 {
      SumFront(s, n - 1);
      assert s[..n][..n - 1] == s[..n - 1] && s[1..][..n - 1][..n - 2] == s[1..][..n - 2];
    } else {
      assert s[..1] == [s[0]];
    }
  }

  lemma FirstFills(batch: nat, k: nat, joins: seq<nat>)
    requires joins != [] && Fills(batch, k, joins, 0)
    ensures batch <= k
  {}

  lemma NextFills(batch: nat, k: nat, l: nat, joins: seq<nat>)
    requires joins != [] && l + batch == k + joins[0] && forall j: nat :: j < |joins| ==> Fills(batch, k, joins, j)
    ensures forall j: nat :: j < |joins| - 1 ==> Fills(batch, l, joins[1..], j)
  {
    forall j: nat | j < |joins| - 1 ensures Fills(batch, l, joins[1..], j) {
      assert Fills(batch, k, joins, j + 1);
      SumFront(joins, j + 1);
      assert (j + 2) * batch == (j + 1) * batch + batch;
    }
  }

  /** If every batch is filled, some play leaves the ticket waiting to the end. */
  lemma {:induction false} WorstPlay(env: Env, distance: (Vector, Vector) -> real, ats: seq<nat -> Time>, batch: nat,
                                     start: Progress,
                                     news: seq<seq<New>>, id: Uuid) returns (ps: seq<Progress>)
    requires Unique(start.db) && Pending(start.db, id) && FreshIds(start.db.tickets.Keys, news) && |ats| == |news|
    requires var joins := RivalCounts(news, start.db.tickets[id].createdAt);
             forall j: nat :: j < |joins| ==> Fills(batch, |Ahead(start.db, id)|, joins, j)
    ensures Play(env, distance, ats, batch, ps, news) && ps[0] == start && Pending(ps[|news|].db, id)
    decreases |news|
  {
    hide PlayRound, Unique, Ahead, Fills, Rivals;
    if news == [] {
      ps := [start];
    } else {
      var joins := RivalCounts(news, start.db.tickets[id].createdAt);
      FirstFills(batch, |Ahead(start.db, id)|, joins);
      var next := WorstRound(env, distance, ats[0], batch, start, news[0], id);
      PlayRoundIsRound(env, distance, ats[0], batch, start, news[0], next, id);
      var later := RivalCounts(news[1..], next.db.tickets[id].createdAt);
      assert later == joins[1..];
      NextFills(batch, |Ahead(start.db, id)|, |Ahead(next.db, id)|, joins);
      var rest := WorstPlay(env, distance, ats[1..], batch, next, news[1..], id);
      ps := [start] + rest;
      forall i | 0 <= i < |news| ensures PlayRound(env, distance, ats[i], batch, ps[i], news[i], ps[i + 1]) {
        if i > 0 { assert ats[i] == ats[1..][i - 1] && news[i] == news[1..][i - 1] && ps[i] == rest[i - 1]; }
      }
    }
  }

  /**
   Whatever the provider does and however ties are broken, a ticket is served within the polls of a schedule exactly
   when at some poll the tickets ahead of it at first, and the rivals that have joined, do not fill the batches.
   */
  lemma WaitIsExact(env: Env, distance: (Vector, Vector) -> real, ats: seq<nat -> Time>, batch: nat, start: Progress,
                    news: seq<seq<New>>, id: Uuid)
    requires Unique(start.db) && Pending(start.db, id) && FreshIds(start.db.tickets.Keys, news) && |ats| == |news|
    ensures var joins := RivalCounts(news, start.db.tickets[id].createdAt);
            (forall ps: seq<Progress> :: Play(env, distance, ats, batch, ps, news) && ps[0] == start ==>
             !Pending(ps[|news|].db, id))
            <==> exists j: nat :: j < |joins| && !Fills(batch, |Ahead(start.db, id)|, joins, j)
  {
    hide PlayRound, Unique, Ahead, Rounds, Fills, FreshIds;
    var joins := RivalCounts(news, start.db.tickets[id].createdAt);
    if j: nat :| j < |joins| && !Fills(batch, |Ahead(start.db, id)|, joins, j) {
      forall ps: seq<Progress> | Play(env, distance, ats, batch, ps, news) && ps[0] == start
        ensures !Pending(ps[|news|].db, id) {
        PlayServes(env, distance, ats, batch, ps, news, id, j);
      }
    } else {
      var ps := WorstPlay(env, distance, ats, batch, start, news, id);
    }
  }

  lemma PlayServes(env: Env, distance: (Vector, Vector) -> real, ats: seq<nat -> Time>, batch: nat, ps: seq<Progress>,
                   news: seq<seq<New>>, id: Uuid, j: nat)
    requires Play(env, distance, ats, batch, ps, news)
    requires Unique(ps[0].db) && Pending(ps[0].db, id) && FreshIds(ps[0].db.tickets.Keys, news)
    requires var joins := RivalCounts(news, ps[0].db.tickets[id].createdAt);
             j < |joins| && !Fills(batch, |Ahead(ps[0].db, id)|, joins, j)
    ensures !Pending(ps[|news|].db, id)
  {
    hide PlayRound, Unique, Ahead, Rounds, FreshIds;
    PlayIsRounds(env, distance, ats, batch, ps, news, id);
    WaitIsBounded(batch, Map(DbOf, ps), id, RivalCounts(news, ps[0].db.tickets[id].createdAt), j);
  }

  // ---- ties starve -----------------------------------------------------------------------------

  function Name(n: nat): (name: Uuid)
    ensures |name| == n
  {
    seq(n, _ => 'a')
  }

  /** `count` new tickets dated `at`, with names of `n` letters and more. */
  function Block(n: nat, count: nat,
                 at: Time): seq<New> { seq(count, i requires i >= 0 => New(Name(n + i), "", "", "", at)) }

  function Blocks(n: nat, count: nat, at: Time, rounds: nat): seq<seq<New>>
    decreases rounds
  {
    if rounds == 0 then [] else [Block(n, count, at)] + Blocks(n + count, count, at, rounds - 1)
  }

  ghost predicate Shorter(taken: set<Uuid>, n: nat) { forall x :: x in taken ==> |x| < n }

  lemma {:induction false} LongerThanAll(taken: set<Uuid>) returns (n: nat)
    ensures Shorter(taken, n)
    decreases taken
  {
    if taken == {} {
      n := 0;
    } else {
      var x :| x in taken;
      var m := LongerThanAll(taken - {x});
      n := if |x| < m then m else |x| + 1;
    }
  }

  lemma BlockIsFresh(taken: set<Uuid>, n: nat, count: nat, at: Time)
    requires Shorter(taken, n)
    ensures var news := Block(n, count, at);
            && Distinct(news) && Ids(news) !! taken && Shorter(taken + Ids(news), n + count)
            && |Rivals(news, at)| == count
  {
    var news := Block(n, count, at);
    assert forall i :: 0 <= i < count ==> news[i].id == Name(n + i);
    forall x | x in Ids(news) ensures n <= |x| < n + count {
      var i :| 0 <= i < |news| && news[i].id == x;
    }
    var names := Map((k: New) => k.id, news);
    assert names == seq(count, i requires i >= 0 => Name(n + i));
    DistinctCount(names);
    assert Rivals(news, at) == set x | x in names;
  }

  lemma {:induction false} BlocksAreFresh(taken: set<Uuid>, n: nat, count: nat, at: Time, rounds: nat)
    requires Shorter(taken, n)
    ensures |Blocks(n, count, at, rounds)| == rounds && FreshIds(taken, Blocks(n, count, at, rounds))
    decreases rounds
  {
    if rounds > 0 {
      hide Block, Shorter, Ids, Distinct, Rivals;
      var block, rest := Block(n, count, at), Blocks(n + count, count, at, rounds - 1);
      BlockIsFresh(taken, n, count, at);
      BlocksAreFresh(taken + Ids(block), n + count, count, at, rounds - 1);
      assert ([block] + rest)[1..] == rest;
    }
  }

  lemma {:induction false} BlocksCount(taken: set<Uuid>, n: nat, count: nat, at: Time, rounds: nat)
    requires Shorter(taken, n)
    ensures |Blocks(n, count, at, rounds)| == rounds
    ensures forall i :: 0 <= i < rounds ==> |Rivals(Blocks(n, count, at, rounds)[i], at)| == count
    decreases rounds
  {
    if rounds > 0 {
      hide Block, Shorter, Ids, Distinct, Rivals;
      var block, rest := Block(n, count, at), Blocks(n + count, count, at, rounds - 1);
      BlockIsFresh(taken, n, count, at);
      BlocksCount(taken + Ids(block), n + count, count, at, rounds - 1);
      assert ([block] + rest)[1..] == rest;
      forall i | 0 <= i < rounds ensures |Rivals(([block] + rest)[i], at)| == count {
        if i > 0 { assert ([block] + rest)[i] == rest[i - 1]; }
      }
    }
  }

  lemma {:induction false} EqualJoins(joins: seq<nat>, count: nat, j: nat)
    requires j <= |joins| && forall i :: 0 <= i < |joins| ==> joins[i] == count
    ensures Sum(joins[..j]) == j * count
  {
    if j > 0 {
      EqualJoins(joins, count, j - 1);
      assert joins[..j][..j - 1] == joins[..j - 1];
    }
  }

  predicate AllDated(news: seq<seq<New>>, at: Time) { forall i, j :: 0 <= i < |news| && 0 <= j < |news[i]| ==>
                                                     news[i][j].now == at }

  lemma {:induction false} BlocksDated(n: nat, count: nat, at: Time, rounds: nat)
    ensures AllDated(Blocks(n, count, at, rounds), at)
    decreases rounds
  {
    if rounds > 0 { BlocksDated(n + count, count, at, rounds - 1); }
  }

  /**
   With a full batch ahead of it, and as many arrivals of its very date after each poll, a ticket may wait for
   any number of polls.
   */
  lemma TiesMayStarve(env: Env, distance: (Vector, Vector) -> real, ats: seq<nat -> Time>, batch: nat, start: Progress,
                      id: Uuid)
    requires Unique(start.db) && Pending(start.db, id) && batch <= |Ahead(start.db, id)|
    ensures exists news, ps: seq<Progress> :: AllDated(news, start.db.tickets[id].createdAt)
                                           && Play(env, distance, ats, batch, ps, news)
                                           && ps[0] == start && Pending(ps[|news|].db, id)
  {
    hide Unique, Ahead, FreshIds, Play, Blocks;
    var at := start.db.tickets[id].createdAt;
    var n := LongerThanAll(start.db.tickets.Keys);
    var news := Blocks(n, batch, at, |ats|);
    BlocksAreFresh(start.db.tickets.Keys, n, batch, at, |ats|);
    BlocksCount(start.db.tickets.Keys, n, batch, at, |ats|);
    BlocksDated(n, batch, at, |ats|);
    var joins := RivalCounts(news, at);
    forall j: nat | j < |joins| ensures Fills(batch, |Ahead(start.db, id)|, joins, j) {
      EqualJoins(joins, batch, j);
      assert (j + 1) * batch == j * batch + batch;
    }
    var ps := WorstPlay(env, distance, ats, batch, start, news, id);
  }
}
