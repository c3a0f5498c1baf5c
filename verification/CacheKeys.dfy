/**
 Builders of the Redis keys: four per ticket and one per similarity search, all under one namespace.
 Distinct keys have distinct texts, so a Redis keyed by text is one keyed by `CacheKey`.
 */
module CacheKeys {
  import opened Common
  import Json

  predicate ColonFree(s: string) { ':' !in s }

  /** The printed form of a UUID. */
  type Uuid = s: string | ColonFree(s)

  /** The hexadecimal form of a SHA-256 digest. */
  type Digest = s: string | ColonFree(s)

  datatype CacheKey =
    | StatusKey(id: Uuid)
    | RoutingKey(id: Uuid)
    | DraftKey(id: Uuid)
    | EventsKey(id: Uuid)
    | SimilarityKey(model: string, dimension: int, queryHash: Digest, filtersHash: Digest)

  predicate IsTicketKey(k: CacheKey) { !k.SimilarityKey? }

  const VENDOR := "ai-ticket"
  const VERSION := "v1"
  const TICKET := "ticket"
  const SIMILARITY := "similarity"

  /** `a:b`. */
  function Join(a: string, b: string): string { a + (":" + b) }

  /** The word a ticket key's kind goes by. */
  function KindWord(k: CacheKey): (r: string)
    requires IsTicketKey(k)
    ensures r != [] && ColonFree(r)
  {
    match k
    case StatusKey(_) => "status"
    case RoutingKey(_) => "routing"
    case DraftKey(_) => "draft"
    case EventsKey(_) => "events"
  }

  /** The part of a ticket key after the ticket id: `status`, `routing:latest`, `draft:latest`, `events`. */
  function Suffix(k: CacheKey): string
    requires IsTicketKey(k)
  {
    if k.RoutingKey? || k.DraftKey? then Join(KindWord(k), "latest") else KindWord(k)
  }

  function SimilarityTail(model: string, dimension: int, queryHash: Digest, filtersHash: Digest): string {
    Join(Join(Join(model, Json.Decimal(dimension)), queryHash), filtersHash)
  }

  function Kind(k: CacheKey): (r: string)
    ensures ColonFree(r)
  {
    if IsTicketKey(k) then TICKET else SIMILARITY
  }

  function Tail(k: CacheKey): string {
    match k
    case SimilarityKey(m, d, q, f) => SimilarityTail(m, d, q, f)
    case _ => Join(k.id, Suffix(k))
  }

  /** The text sent to Redis. */
  function Text(k: CacheKey): string { Join(VENDOR, Join(VERSION, Join(Kind(k), Tail(k)))) }

  predicate NotColon(c: char) { c != ':' }

  /** A first part without colons is found from the left. */
  lemma FirstColon(u: string, x: string, v: string, y: string)
    requires Join(u, x) == Join(v, y) && ColonFree(u) && ColonFree(v)
    ensures u == v && x == y
  {
    SameCut(NotColon, u, ":" + x, v, ":" + y);
    DropPrefix(":", x, y);
  }

  /** A last part without colons is found from the right. */
  lemma LastColon(u: string, x: string, v: string, y: string)
    requires Join(u, x) == Join(v, y) && ColonFree(x) && ColonFree(y)
    ensures u == v && x == y
  {
    if |x| != |y| {
      if |x| < |y| { ColonFreeLonger(u, x, v, y); } else { ColonFreeLonger(v, y, u, x); }
    }
    assert Join(u, x)[..|u|] == u && Join(v, y)[..|v|] == v;
    DropPrefix(u, ":" + x, ":" + y);
    DropPrefix(":", x, y);
  }

  lemma ColonFreeLonger(u: string, x: string, v: string, y: string)
    requires |x| < |y| && ColonFree(y)
    ensures Join(u, x) != Join(v, y)
  {
    if |Join(u, x)| == |Join(v, y)| {
      assert Join(u, x)[|u|] == ':';
      assert Join(v, y)[|u|] == y[|u| - |v| - 1];
    }
  }

  /** Every key has its own text, even when the model name contains colons. */
  lemma TextInjective(k: CacheKey, l: CacheKey)
    requires Text(k) == Text(l)
    ensures k == l
  {
    FirstColon(VENDOR, Join(VERSION, Join(Kind(k), Tail(k))), VENDOR, Join(VERSION, Join(Kind(l), Tail(l))));
    FirstColon(VERSION, Join(Kind(k), Tail(k)), VERSION, Join(Kind(l), Tail(l)));
    FirstColon(Kind(k), Tail(k), Kind(l), Tail(l));
    assert TICKET[0] != SIMILARITY[0];
    if IsTicketKey(k) {
      FirstColon(k.id, Suffix(k), l.id, Suffix(l));
      assert Suffix(k)[0] == KindWord(k)[0] && Suffix(l)[0] == KindWord(l)[0];
    } else {
      var a, b := Join(k.model, Json.Decimal(k.dimension)), Join(l.model, Json.Decimal(l.dimension));
      LastColon(Join(a, k.queryHash), k.filtersHash, Join(b, l.queryHash), l.filtersHash);
      LastColon(a, k.queryHash, b, l.queryHash);
      LastColon(k.model, Json.Decimal(k.dimension), l.model, Json.Decimal(l.dimension));
      Json.DecimalInjective(k.dimension, l.dimension);
    }
  }

  // ---- the log-safe family of a key ----------------------------------------------------------

  /** The text up to the first separator. */
  function UpTo(s: string, sep: char): (r: string)
    ensures r <= s && sep !in r && (r == s || s[|r|] == sep)
  {
    if s == [] || s[0] == sep then [] else [s[0]] + UpTo(s[1..], sep)
  }

  /** Python's `s.split(sep)`. */
  function Split(s: string, sep: char): (r: seq<string>)
    ensures r != []
    decreases |s|
  {
    var head := UpTo(s, sep);
    if head == s then [s] else [head] + Split(s[|head| + 1..], sep)
  }

  function KeyFamily(key: string): string { Family(Split(key, ':')) }

  function Family(parts: seq<string>): string {
    if |parts| >= 3 && parts[0] == VENDOR && parts[1] == VERSION then
      if parts[2] == TICKET && |parts| >= 5 then "ticket:" + parts[4]
      else if parts[2] == SIMILARITY then "similarity"
      else "unknown"
    else "unknown"
  }

  lemma {:induction false} UpToFirst(a: string, sep: char, b: string)
    requires sep !in a
    ensures UpTo(a + ([sep] + b), sep) == a && UpTo(a, sep) == a
  {
    if a != [] {
      UpToFirst(a[1..], sep, b);
      assert (a + ([sep] + b))[1..] == a[1..] + ([sep] + b);
    }
  }

  lemma SplitJoin(a: string, b: string)
    requires ColonFree(a)
    ensures Split(Join(a, b), ':') == [a] + Split(b, ':') && Split(a, ':') == [a]
  {
    UpToFirst(a, ':', b);
    assert Join(a, b)[|a| + 1..] == b;
  }

  /** What a log line may say about a key. */
  function FamilyOf(k: CacheKey): string {
    if IsTicketKey(k) then "ticket:" + KindWord(k) else "similarity"
  }

  lemma SplitThree(a: string, b: string, c: string, x: string)
    requires ColonFree(a) && ColonFree(b) && ColonFree(c)
    ensures Split(Join(a, Join(b, Join(c, x))), ':') == [a, b, c] + Split(x, ':')
  {
    SplitJoin(a, Join(b, Join(c, x)));
    SplitJoin(b, Join(c, x));
    SplitJoin(c, x);
  }

  lemma SplitFive(a: string, b: string, c: string, id: string, word: string, suffix: string, more: string)
    requires ColonFree(a) && ColonFree(b) && ColonFree(c) && ColonFree(id) && ColonFree(word)
    requires suffix == word || suffix == Join(word, more)
    ensures var parts := Split(Join(a, Join(b, Join(c, Join(id, suffix)))), ':');
            |parts| >= 5 && parts[..3] == [a, b, c] && parts[4] == word
  {
    SplitThree(a, b, c, Join(id, suffix));
    SplitJoin(id, suffix);
    SplitJoin(word, more);
  }

  /** The family read off a built key names its kind and nothing of the id, the model or the hashes. */
  lemma KeyFamilyOfText(k: CacheKey)
    ensures KeyFamily(Text(k)) == FamilyOf(k)
  {
    if IsTicketKey(k) {
      SplitFive(VENDOR, VERSION, TICKET, k.id, KindWord(k), Suffix(k), "latest");
      FamilyOfTicketParts(k, Split(Text(k), ':'));
    } else {
      SplitThree(VENDOR, VERSION, SIMILARITY, Tail(k));
      FamilyOfSearchParts(k, Split(Text(k), ':'));
    }
  }

  lemma FamilyOfTicketParts(k: CacheKey, parts: seq<string>)
    requires IsTicketKey(k) && |parts| >= 5 && parts[..3] == [VENDOR, VERSION, TICKET] && parts[4] == KindWord(k)
    ensures Family(parts) == FamilyOf(k)
  {}

  lemma FamilyOfSearchParts(k: CacheKey, parts: seq<string>)
    requires !IsTicketKey(k) && |parts| >= 3 && parts[..3] == [VENDOR, VERSION, SIMILARITY]
    ensures Family(parts) == FamilyOf(k)
  {}

  // ---- similarity requests -------------------------------------------------------------------

  datatype SimilarityFilters = SimilarityFilters(
    limit: int, excludeTicketId: Option<Uuid>, model: string, dimension: int, maxAgeDays: Option<int>)

  /** The payload hashed for the filters, members in the order of their keys. */
  function FilterMembers(f: SimilarityFilters): seq<Json.Member> {
    [ ("embedding_dimension", Json.Int(f.dimension)),
      ("embedding_model", Json.Str(f.model)),
      ("exclude_ticket_id", if f.excludeTicketId.Some? then Json.Str(f.excludeTicketId.value) else Json.Null),
      ("limit", Json.Int(f.limit)),
      ("max_ticket_age_days", if f.maxAgeDays.Some? then Json.Int(f.maxAgeDays.value) else Json.Null) ]
  }

  /** Code point order with `n` leading characters in common. */
  predicate LessAt(a: string, b: string, n: nat) {
    n < |a| && n < |b| && a[..n] == b[..n] && a[n] < b[n]
  }

  /** The members stand in the order `sort_keys` gives them. */
  lemma FilterMembersSorted(f: SimilarityFilters, i: nat)
    requires i + 1 < |FilterMembers(f)|
    ensures var a, b := FilterMembers(f)[i].0, FilterMembers(f)[i + 1].0; exists n: nat :: LessAt(a, b, n)
  {
    var a, b := FilterMembers(f)[i].0, FilterMembers(f)[i + 1].0;
    assert LessAt(a, b, if i == 0 then 10 else if i == 1 then 1 else 0);
  }

  function FiltersJson(f: SimilarityFilters): string { Json.RenderObject(FilterMembers(f)) }

  /** Filters are recovered from their canonical JSON. */
  lemma FiltersJsonInjective(f: SimilarityFilters, g: SimilarityFilters)
    requires FiltersJson(f) == FiltersJson(g)
    ensures f == g
  {
    Json.ObjectInjective(FilterMembers(f), FilterMembers(g));
    var a, b := FilterMembers(f), FilterMembers(g);
    assert a[0] == b[0] && a[1] == b[1] && a[2] == b[2] && a[3] == b[3] && a[4] == b[4];
  }

  /** `x` rounded to eight decimals, half to even, counted in units of the eighth decimal. */
  function Round8(x: real): (r: int)
    ensures -0.5 <= x * 100000000.0 - r as real <= 0.5
    ensures x * 100000000.0 - r as real == 0.5 || x * 100000000.0 - r as real == -0.5 ==> r % 2 == 0
  {
    var scaled := x * 100000000.0;
    var low := scaled.Floor;
    var rest := scaled - low as real;
    if rest < 0.5 || (rest == 0.5 && low % 2 == 0) then low else low + 1
  }

  /** The floats that rounding to eight decimals yields: so many units of the eighth decimal, or one of the rest. */
  datatype Rounded = Units(n: int) | NegativeZero | NotANumber | Infinite(negative: bool)

  /** Small negative numbers round to the negative zero, which prints differently from zero. */
  function RoundFloat(x: real): Rounded {
    if Round8(x) == 0 && x < 0.0 then NegativeZero else Units(Round8(x))
  }

  /** The functions the keys rest on: SHA-256 and the printing of floats. */
  datatype Hashing = Hashing(sha: string -> Digest, repr: Rounded -> string)

  function QueryJson(h: Hashing, vector: seq<real>): string {
    Json.RenderArray(h.repr, Map(RoundFloat, vector))
  }

  /** The digests a similarity key is built from. */
  datatype Digests = Digests(ofQuery: seq<real> -> Digest, ofFilters: SimilarityFilters -> Digest)

  function DigestsBy(h: Hashing): Digests {
    Digests((vector: seq<real>) => h.sha(QueryJson(h, vector)), (f: SimilarityFilters) => h.sha(FiltersJson(f)))
  }

  function KeyOfSearch(digests: Digests, vector: seq<real>, f: SimilarityFilters): CacheKey {
    SimilarityKey(f.model, f.dimension, digests.ofQuery(vector), digests.ofFilters(f))
  }

  /** The same number to eight decimals, so at most 1e-8 apart. */
  predicate SameToEight(x: real, y: real) {
    Round8(x) == Round8(y) && -0.00000001 <= x - y <= 0.00000001
  }

  /** Two different texts with the same digest. */
  ghost predicate Collides(h: Hashing, a: string, b: string) { a != b && h.sha(a) == h.sha(b) }

  /**
   Searches sharing a key have the same filters and query vectors that agree to eight decimals,
   unless their very payloads exhibit a SHA-256 collision.
   */
  lemma SearchKeyDecides(h: Hashing, v: seq<real>, f: SimilarityFilters, w: seq<real>, g: SimilarityFilters)
    requires Json.Printer(h.repr)
    requires Text(KeyOfSearch(DigestsBy(h), v, f)) == Text(KeyOfSearch(DigestsBy(h), w, g))
    ensures f.model == g.model && f.dimension == g.dimension
    ensures f == g || Collides(h, FiltersJson(f), FiltersJson(g))
    ensures Collides(h, QueryJson(h, v), QueryJson(h, w))
         || (|v| == |w| && forall i :: 0 <= i < |v| ==> SameToEight(v[i], w[i]))
  {
    hide Text, Collides, FiltersJson, QueryJson, SameToEight;
    TextInjective(KeyOfSearch(DigestsBy(h), v, f), KeyOfSearch(DigestsBy(h), w, g));
    SameDigestFilters(h, f, g);
    SameDigestQuery(h, v, w);
  }

  lemma SameDigestFilters(h: Hashing, f: SimilarityFilters, g: SimilarityFilters)
    requires h.sha(FiltersJson(f)) == h.sha(FiltersJson(g))
    ensures f == g || Collides(h, FiltersJson(f), FiltersJson(g))
  {
    hide FiltersJson;
    if FiltersJson(f) == FiltersJson(g) { FiltersJsonInjective(f, g); }
  }

  lemma SameDigestQuery(h: Hashing, v: seq<real>, w: seq<real>)
    requires Json.Printer(h.repr) && h.sha(QueryJson(h, v)) == h.sha(QueryJson(h, w))
    ensures Collides(h, QueryJson(h, v), QueryJson(h, w))
         || (|v| == |w| && forall i :: 0 <= i < |v| ==> SameToEight(v[i], w[i]))
  {
    if QueryJson(h, v) == QueryJson(h, w) {
      Json.ArrayInjective(h.repr, Map(RoundFloat, v), Map(RoundFloat, w));
      forall i | 0 <= i < |v| ensures SameToEight(v[i], w[i]) {
        assert Map(RoundFloat, v)[i] == Map(RoundFloat, w)[i];
      }
    }
  }
}
