/** Which similarity requests share a cache key, and when that matters. */
module SimilarityKeys {
  import opened Common
  import opened CacheKeys
  import opened Domain
  import opened CacheModel
  import Json

  /** The request names its model and dimension itself. */
  predicate Explicit(s: Search) {
    s.model.Some? && s.model.value != "" && s.dimension.Some? && s.dimension.value != 0
  }

  /** Explicit requests with one key ask for the same rows of the same query to eight decimals, or break SHA-256. */
  lemma ExplicitSearchesShareKeys(h: Hashing, s: Search, t: Search)
    requires Json.Printer(h.repr) && Explicit(s) && Explicit(t)
    requires KeyOf(DigestsBy(h), ReadSimilar(s)) == KeyOf(DigestsBy(h), ReadSimilar(t))
    ensures Collides(h, FiltersJson(FiltersOf(s)), FiltersJson(FiltersOf(t))) || s.(query := []) == t.(query := [])
    ensures Collides(h, QueryJson(h, s.query), QueryJson(h, t.query))
         || (|s.query| == |t.query| && forall i :: 0 <= i < |s.query| ==> SameToEight(s.query[i], t.query[i]))
  {
    SearchKeyDecides(h, s.query, FiltersOf(s), t.query, FiltersOf(t));
  }

  /** Every database answers the two requests alike, whatever the distance. */
  ghost predicate SameAnswers(s: Search, t: Search) {
    forall distance: (Vector, Vector) -> real, v: View, a: Answer ::
      Fresh(distance, v, ReadSimilar(s), a) <==> Fresh(distance, v, ReadSimilar(t), a)
  }

  /** Requests for the same query whose filters go into the key alike are answered alike. */
  ghost predicate KeyDecides(s: Search) {
    forall t: Search :: t.query == s.query && FiltersOf(t) == FiltersOf(s) ==> SameAnswers(s, t)
  }

  function Flat(a: Vector, b: Vector): real { 0.0 }

  /** An embedding that only one of two requests accepts is answered to that one only. */
  lemma OneRowTells(s: Search, t: Search, id: Uuid, model: string, dimension: Dimension, now: Time)
    requires s.limit > 0
    requires var e := EmbeddingRow(0, id, SOME_VECTOR, model, dimension, "", true);
             var db := Db(map[id := Ticket("", "", "", Routed, 0.0)], [e], [], [], [], 1);
             Eligible(db, now, s, e) && !Eligible(db, now, t, e)
    ensures !SameAnswers(s, t) && !SameAnswers(t, s)
  {
    var e := EmbeddingRow(0, id, SOME_VECTOR, model, dimension, "", true);
    var db := Db(map[id := Ticket("", "", "", Routed, 0.0)], [e], [], [], [], 1);
    var row := SimilarRow(id, 0, "", "", Routed, 0.0);
    assert e in db.embeddings;
    assert Candidates(Flat, db, now, s) == {row} && Candidates(Flat, db, now, t) == {};
    var v, a := View(db, now), SimilarAre([row]);
    assert Fresh(Flat, v, ReadSimilar(s), a) && !Fresh(Flat, v, ReadSimilar(t), a);
  }

  /** A ticket the request does not exclude, and a moment at which it is young enough. */
  function Other(s: Search): Uuid { if s.exclude == Some("") then "-" else "" }
  function Soon(s: Search): Time { if s.maxAgeDays.Some? then s.maxAgeDays.value as real * 86400.0 else 0.0 }

  /** Leaving out the dimension is not the same as any way of naming the default one. */
  lemma DimensionTells(s: Search)
    requires s.limit > 0 && EffectiveDimension(s) == EMBEDDING_DIMENSION
    ensures !KeyDecides(s)
  {
    var model := if s.model.Some? then s.model.value else "";
    var t := s.(dimension := if s.dimension.None? then Some(0) else None);
    OneRowTells(if s.dimension.None? then s else t, if s.dimension.None? then t else s, Other(s), model, 1, Soon(s));
  }

  /** Leaving out the model is not the same as any way of naming the default one. */
  lemma ModelTells(s: Search)
    requires s.limit > 0 && EffectiveModel(s) == DEFAULT_EMBEDDING_MODEL && s.dimension.Some? && s.dimension.value >= 1
    ensures !KeyDecides(s)
  {
    assert DEFAULT_EMBEDDING_MODEL != "" && DEFAULT_EMBEDDING_MODEL != "-";
    var t := s.(model := if s.model.None? then Some(DEFAULT_EMBEDDING_MODEL) else None);
    OneRowTells(if s.model.None? then s else t, if s.model.None? then t else s, Other(s), "-", s.dimension.value,
                Soon(s));
  }

  /**
   A key decides the answers exactly for requests that can have none, because of their limit or a dimension
   no row has, and for those that name a model and a dimension other than the defaults.
   */
  lemma KeyDecidesAnswers(s: Search)
    ensures KeyDecides(s) <==>
      || s.limit == 0 || EffectiveDimension(s) < 0
      || (EffectiveModel(s) != DEFAULT_EMBEDDING_MODEL && EffectiveDimension(s) != EMBEDDING_DIMENSION)
  {
    if s.limit == 0 || EffectiveDimension(s) < 0 {
      forall t: Search | t.query == s.query && FiltersOf(t) == FiltersOf(s)
        ensures SameAnswers(s, t) { NoAnswers(s, t); }
    } else if EffectiveDimension(s) == EMBEDDING_DIMENSION {
      DimensionTells(s);
    } else if EffectiveModel(s) == DEFAULT_EMBEDDING_MODEL {
      ModelTells(s);
    } else {
      forall t: Search | t.query == s.query && FiltersOf(t) == FiltersOf(s) ensures SameAnswers(s, t) { assert t == s; }
    }
  }

  lemma NoAnswers(s: Search, t: Search)
    requires FiltersOf(t) == FiltersOf(s) && (s.limit == 0 || EffectiveDimension(s) < 0)
    ensures SameAnswers(s, t)
  {
    forall distance: (Vector, Vector) -> real, v: View, a: Answer
      ensures Fresh(distance, v, ReadSimilar(s), a) <==> Fresh(distance, v, ReadSimilar(t), a)
    {
      if s.limit > 0 {
        assert Candidates(distance, v.db, v.now, s) == {} && Candidates(distance, v.db, v.now, t) == {};
      }
    }
  }

  /** The request with the default model spelled out. */
  function Named(s: Search): Search { s.(model := Some(DEFAULT_EMBEDDING_MODEL)) }

  /** An omitted model shares its key with the default one, and is answered alike only where nothing is found. */
  lemma OmittedModelSharesKey(h: Digests, s: Search)
    requires s.model.None?
    ensures KeyOf(h, ReadSimilar(s)) == KeyOf(h, ReadSimilar(Named(s)))
    ensures SameAnswers(s, Named(s)) <==> s.limit == 0 || (s.dimension.Some? && s.dimension.value < 1)
  {
    assert DEFAULT_EMBEDDING_MODEL != "" && DEFAULT_EMBEDDING_MODEL != "-";
    assert FiltersOf(s) == FiltersOf(Named(s));
    if s.limit == 0 || (s.dimension.Some? && s.dimension.value < 1) {
      NothingFound(s, Named(s));
    } else {
      OneRowTells(s, Named(s), Other(s), "-", if s.dimension.Some? then s.dimension.value else 1, Soon(s));
    }
  }

  lemma NothingFound(s: Search, t: Search)
    requires s.limit == t.limit && s.dimension == t.dimension
             && (s.limit == 0 || (s.dimension.Some? && s.dimension.value < 1))
    ensures SameAnswers(s, t)
  {
    forall distance: (Vector, Vector) -> real, v: View, a: Answer
      ensures Fresh(distance, v, ReadSimilar(s), a) <==> Fresh(distance, v, ReadSimilar(t), a)
    {
      if s.limit > 0 {
        assert Candidates(distance, v.db, v.now, s) == {} && Candidates(distance, v.db, v.now, t) == {};
      }
    }
  }
}
