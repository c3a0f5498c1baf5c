/** Asking for a classification, with one second chance for malformed output, and persisting the result. */
module ClassificationService {
  import opened Common
  import opened CacheKeys
  import opened Domain
  import opened CacheStore
  import opened Postgres
  import opened Provider
  import opened ClassificationPolicy
  import opened EmbeddingService

  // ---- the loop --------------------------------------------------------------------------------

  /** What one call amounts to: a usable classification, malformed output, or a provider error. */
  datatype Sight = Parsed(parsed: ParsedClassification) | Malformed | Failing

  function See(t: Thresholds, o: Outcome<ClassificationResult>): Sight {
    match o
    case Ok(raw) => if ValidRaw(raw) then Parsed(Policy(raw, t)) else Malformed
    case Raise(e) => if e.MalformedModelOutput? then Malformed else Failing
  }

  type Sights = nat -> Sight

  function SightsOf(env: Env, script: nat -> Outcome<ClassificationResult>): Sights {
    (i: nat) => See(env.settings.thresholds, script(i))
  }

  /** How the loop ends. */
  datatype Verdict = Accepted(parsed: ParsedClassification) | MalformedTwice | ProviderDown | Exhausted

  function ParsedOf(v: Verdict): ParsedClassification {
    match v
    case Accepted(p) => p
    case MalformedTwice => Fallback("malformed_model_output")
    case ProviderDown => Fallback("classification_provider_error")
    case Exhausted => Fallback("classification_exhausted_retries")
  }

  datatype Classified = Classified(verdict: Verdict, calls: nat)

  /** The loop from call `at` on, with `left` attempts left; `retried` if malformed output was seen before. */
  function Loop(see: Sights, at: nat, left: int, retried: bool): Classified
    decreases left
  {
    if left <= 0 then Classified(Exhausted, 0)
    else match see(at)
      case Parsed(p) => Classified(Accepted(p), 1)
      case Malformed => if retried then Classified(MalformedTwice, 1) else After(1, Loop(see, at + 1, left - 1, true))
      case Failing => if left == 1 then Classified(ProviderDown, 1) else After(1, Loop(see, at + 1, left - 1, retried))
  }

  function After(n: nat, c: Classified): Classified { Classified(c.verdict, n + c.calls) }

  /** The malformed outputs among the first `n` calls. */
  function MalformedCount(see: Sights, at: nat, n: nat): nat
    decreases n
  {
    if n == 0 then 0 else (if see(at).Malformed? then 1 else 0) + MalformedCount(see, at + 1, n - 1)
  }

  ghost predicate NoneParsed(see: Sights, at: nat, n: nat) {
    forall i :: at <= i < at + n ==> !see(i).Parsed?
  }

  /**
   The end of the loop read off the stream of calls: the call that decides it, and what came before.
   `seen` is 1 if malformed output was seen before call `at`.
   */
  ghost predicate ClosedForm(see: Sights, at: nat, left: int, seen: nat, c: Classified) {
    && c.calls <= (if left < 0 then 0 else left)
    && (c.calls == 0 ==> left <= 0 && c.verdict == Exhausted)
    && (c.calls > 0 ==>
         var before := c.calls - 1;
         var last := see(at + before);
         var malformed := seen + MalformedCount(see, at, before);
         && NoneParsed(see, at, before)
         && match c.verdict
            case Accepted(p) => last == Parsed(p) && malformed <= 1
            case MalformedTwice => last == Malformed && malformed == 1
            case ProviderDown => c.calls == left && last == Failing && malformed <= 1
            case Exhausted => c.calls == left && last == Malformed && malformed == 0)
  }

  lemma {:induction false} LoopHasClosedForm(see: Sights, at: nat, left: int, retried: bool)
    ensures left > 0 ==> ClosedForm(see, at, left, if retried then 1 else 0, Loop(see, at, left, retried))
    decreases left
  {
    if left > 1 && see(at) == Failing { LoopHasClosedForm(see, at + 1, left - 1, retried); }
    if left > 1 && see(at) == Malformed && !retried { LoopHasClosedForm(see, at + 1, left - 1, true); }
  }

  lemma {:induction false} MalformedCountGrows(see: Sights, at: nat, m: nat, n: nat)
    requires m <= n
    ensures MalformedCount(see, at, m) <= MalformedCount(see, at, n)
    ensures m < n && see(at + m) == Malformed ==> MalformedCount(see, at, m) < MalformedCount(see, at, n)
    decreases m
  {
    if m > 0 { MalformedCountGrows(see, at + 1, m - 1, n - 1); }
  }

  lemma ClosedFormIsUnique(see: Sights, at: nat, left: int, c: Classified, d: Classified)
    requires ClosedForm(see, at, left, 0, c) && ClosedForm(see, at, left, 0, d)
    ensures c == d
  {
    if c.calls > 0 && d.calls > 0 {
      if c.calls < d.calls {
        MalformedCountGrows(see, at, c.calls - 1, d.calls - 1);
      } else {
        MalformedCountGrows(see, at, d.calls - 1, c.calls - 1);
      }
    }
  }

  /** The loop ends as the closed form says, within its attempts, and the closed form admits no other end. */
  lemma LoopIsClosedForm(see: Sights, at: nat, maxRetries: int, c: Classified)
    ensures c == Loop(see, at, maxRetries + 1, false) <==> ClosedForm(see, at, maxRetries + 1, 0, c)
  {
    LoopHasClosedForm(see, at, maxRetries + 1, false);
    var l := Loop(see, at, maxRetries + 1, false);
    assert ClosedForm(see, at, maxRetries + 1, 0, l);
    if ClosedForm(see, at, maxRetries + 1, 0, c) { ClosedFormIsUnique(see, at, maxRetries + 1, c, l); }
  }

  /** Whatever the provider returns, what is persisted is sound. */
  lemma {:induction false} LoopIsSound(t: Thresholds, script: nat -> Outcome<ClassificationResult>, see: Sights,
                                      at: nat, left: int, retried: bool)
    requires forall i: nat :: see(i) == See(t, script(i))
    ensures Sound(ParsedOf(Loop(see, at, left, retried).verdict))
    decreases left
  {
    if left > 0 {
      match script(at) {
        case Ok(raw) => if ValidRaw(raw) { PolicyIsSound(raw, t); }
        case Raise(_) =>
      }
      LoopIsSound(t, script, see, at + 1, left - 1, retried);
      LoopIsSound(t, script, see, at + 1, left - 1, true);
    }
    FallbackIsSound("malformed_model_output");
    FallbackIsSound("classification_provider_error");
    FallbackIsSound("classification_exhausted_retries");
  }

  // ---- the same, over what the provider returned -----------------------------------------------

  /** Output that breaks the format, or carries labels out of the taxonomy. */
  predicate IsMalformed(o: Outcome<ClassificationResult>) {
    if o.Ok? then !Labelled(o.value) else o.exc.MalformedModelOutput?
  }

  predicate Classifies(o: Outcome<ClassificationResult>) { o.Ok? && Labelled(o.value) }

  ghost predicate MalformedBefore(script: nat -> Outcome<ClassificationResult>, start: nat, end: nat) {
    exists i: nat :: start <= i < end && IsMalformed(script(i))
  }

  ghost predicate TwiceMalformed(script: nat -> Outcome<ClassificationResult>, start: nat, end: nat) {
    exists i: nat, j: nat :: start <= i < j < end && IsMalformed(script(i)) && IsMalformed(script(j))
  }

  /** What stands in for a classification when none was usable. */
  predicate Stands(p: ParsedClassification, reason: string) {
    p == ParsedClassification("unknown", "triage", "normal", "none", 0.0, 0.0, true, Some(reason))
  }

  /** Why none was usable, judging by the last of the `n` calls and those before it. */
  ghost function Excuse(script: nat -> Outcome<ClassificationResult>, start: nat, n: nat): string {
    if n == 0 then "classification_exhausted_retries"
    else if !IsMalformed(script(start + n - 1)) then "classification_provider_error"
    else if MalformedBefore(script, start, start + n - 1) then "malformed_model_output"
    else "classification_exhausted_retries"
  }

  /**
   What `n` calls settle on: the tiers of the raw result in the last of them, if that is usable, else a stand-in.
   The calls stop at the first usable result, at the second malformed one, or at the limit, whichever comes first.
   */
  ghost predicate SettlesOn(env: Env, script: nat -> Outcome<ClassificationResult>, start: nat, n: nat,
                          p: ParsedClassification) {
    var limit := env.settings.classificationRetries;
    && (forall i :: start <= i < start + n - 1 ==> !Classifies(script(i)))
    && (n > 0 ==> !TwiceMalformed(script, start, start + n - 1))
    && (if limit < 0 then n == 0 else 1 <= n <= limit + 1)
    && if n > 0 && Classifies(script(start + n - 1)) then
         Tiered(script(start + n - 1).value, env.settings.thresholds, p)
       else
         Stands(p, Excuse(script, start, n))
             && (n == limit + 1 || limit < 0 || TwiceMalformed(script, start, start + n))
  }

  lemma SeesAs(t: Thresholds, o: Outcome<ClassificationResult>)
    ensures See(t, o).Parsed? <==> Classifies(o)
    ensures See(t, o).Malformed? <==> IsMalformed(o)
    ensures Classifies(o) ==> Tiered(o.value, t, See(t, o).parsed)
  {
    hide Tiered, Labelled, ValidRaw;
    if o.Ok? { PolicyTiers(o.value, t, Policy(o.value, t)); }
  }

  /** Counting the malformed outputs tells whether there is one, and whether there are two. */
  lemma {:induction false} CountsMalformed(see: Sights, script: nat -> Outcome<ClassificationResult>, at: nat, n: nat)
    requires forall i: nat :: see(i).Malformed? <==> IsMalformed(script(i))
    ensures MalformedCount(see, at, n) > 0 <==> MalformedBefore(script, at, at + n)
    ensures MalformedCount(see, at, n) > 1 <==> TwiceMalformed(script, at, at + n)
    decreases n
  {
    hide IsMalformed;
    if n > 0 {
      CountsMalformed(see, script, at + 1, n - 1);
    }
  }

  // ---- what is persisted -----------------------------------------------------------------------

  function Classify(env: Env, feed: Feed): Classified {
    Loop(SightsOf(env, feed.classify), feed.classifyCalls, env.settings.classificationRetries + 1, false)
  }

  /** The provider after the classification. */
  function AfterClassify(env: Env, feed: Feed): Feed {
    feed.(classifyCalls := feed.classifyCalls + Classify(env, feed).calls)
  }

  function ParsedBy(env: Env, feed: Feed): ParsedClassification { ParsedOf(Classify(env, feed).verdict) }

  /** The loop settles on what the provider's outcomes say. */
  lemma ClassifySettles(env: Env, feed: Feed)
    ensures SettlesOn(env, feed.classify, feed.classifyCalls, Classify(env, feed).calls, ParsedBy(env, feed))
  {
    hide Loop, Labelled, IsMalformed, Tiered, See, MalformedCount, MalformedBefore, TwiceMalformed;
    var t, script, at, limit := env.settings.thresholds, feed.classify, feed.classifyCalls,
        env.settings.classificationRetries;
    var see, c := SightsOf(env, script), Classify(env, feed);
    forall i: nat
      ensures (see(i).Parsed? <==> Classifies(script(i))) && (see(i).Malformed? <==> IsMalformed(script(i)))
      ensures Classifies(script(i)) ==> Tiered(script(i).value, t, see(i).parsed)
    {
      SeesAs(t, script(i));
    }
    LoopIsClosedForm(see, at, limit, c);
    if c.calls > 0 {
      CountsMalformed(see, script, at, c.calls - 1);
      CountsMalformed(see, script, at, c.calls);
      MalformedCountGrows(see, at, c.calls - 1, c.calls);
    }
  }

  /** And on nothing else: the outcomes leave one number of calls and one classification to settle on. */
  lemma SettlesOnce(env: Env, script: nat -> Outcome<ClassificationResult>, start: nat, m: nat, n: nat,
                    p: ParsedClassification, q: ParsedClassification)
    requires SettlesOn(env, script, start, m, p) && SettlesOn(env, script, start, n, q)
    ensures m == n && p == q
  {
    hide IsMalformed, Classifies;
  }

  /** The four decisions of a classification, in the order they are inserted. */
  function Decisions(p: ParsedClassification): seq<(DecisionType, string, Confidence)> {
    [ (Category, p.category, p.classificationConfidence), (Team, p.team, p.routingConfidence),
      (Priority, p.priority, p.classificationConfidence), (Escalation, p.escalation, p.classificationConfidence) ]
  }

  function WithDecisions(now: Time, db: Db, id: Uuid, reason: Option<string>,
                         ds: seq<(DecisionType, string, Confidence)>): Db {
    if ds == [] then db
    else
      var last := ds[|ds| - 1];
      WithDecisions(now, db, id, reason, ds[..|ds| - 1]).WithRouting(now, id, last.1, last.0, Worker, Some(last.2),
                                                                     reason)
  }

  function ClassifiedDb(now: Time, db: Db, id: Uuid, p: ParsedClassification): Db {
    WithDecisions(now, db, id, ReasonOf(p), Decisions(p)).WithStatus(id, RoutingPending)
      .WithEvent(now, id, EventType.ClassificationCompleted, ClassificationPayload(p))
  }

  function ClassifyKeys(id: Uuid): set<CacheKey> { {RoutingKey(id), StatusKey(id), EventsKey(id)} }

  function DecisionRow(now: Time, rowId: nat, id: Uuid, reason: Option<string>,
                       d: (DecisionType, string, Confidence)): RoutingRow {
    RoutingRow(rowId, id, d.1, d.0, Some(d.2), reason, Worker, now)
  }

  /** The rows the decisions add: one per decision, same reason and transaction, nothing else touched. */
  lemma {:induction false} DecisionRows(now: Time, db: Db, id: Uuid, reason: Option<string>,
                                        ds: seq<(DecisionType, string, Confidence)>)
    ensures var after := WithDecisions(now, db, id, reason, ds);
            && after == db.(routing := after.routing, nextId := db.nextId + |ds|)
            && db.routing <= after.routing && |after.routing| == |db.routing| + |ds|
            && forall i :: 0 <= i < |ds| ==>
                after.routing[|db.routing| + i] == DecisionRow(now, db.nextId + i, id, reason, ds[i])
  {
    if ds != [] { DecisionRows(now, db, id, reason, ds[..|ds| - 1]); }
  }

  method ClassifyAndPersist(env: Env, session: Session, provider: AiProvider, invalidator: TicketCacheInvalidator?,
                            id: Uuid)
    returns (parsed: ParsedClassification)
    requires InvalidatorValid(invalidator)
    modifies session`db, provider.classify`calls, InvalidatorFootprint(invalidator)
    ensures parsed == ParsedBy(env, old(provider.State()))
    ensures provider.State() == AfterClassify(env, old(provider.State()))
    ensures session.db == ClassifiedDb(session.now, old(session.db), id, parsed)
    ensures InvalidatorValid(invalidator)
    ensures Removed(old(InvalidatorEntries(invalidator)), InvalidatorEntries(invalidator), ClassifyKeys(id),
                    AllReach(invalidator))
  {
    hide Loop, ClassifiedDb, ParsedOf, Removed;
    var verdict := AskForClassification(env, provider);
    parsed := ParsedOf(verdict);
    Persist(session, id, parsed);
    ForgetClassified(invalidator, id);
  }

  method Persist(session: Session, id: Uuid, parsed: ParsedClassification)
    modifies session`db
    ensures session.db == ClassifiedDb(session.now, old(session.db), id, parsed)
  {
    InsertDecisions(session, id, ReasonOf(parsed), Decisions(parsed));
    session.db := session.db.WithStatus(id, RoutingPending);
    session.db := session.db.WithEvent(session.now, id, EventType.ClassificationCompleted,
                                       ClassificationPayload(parsed));
  }

  method ForgetClassified(invalidator: TicketCacheInvalidator?, id: Uuid)
    requires InvalidatorValid(invalidator)
    modifies InvalidatorFootprint(invalidator)
    ensures InvalidatorValid(invalidator)
    ensures Removed(old(InvalidatorEntries(invalidator)), InvalidatorEntries(invalidator), ClassifyKeys(id),
                    AllReach(invalidator))
  {
    if invalidator != null {
      ghost var before := InvalidatorEntries(invalidator);
      invalidator.InvalidateRouting(id);
      ghost var first := InvalidatorEntries(invalidator);
      invalidator.InvalidateStatus(id);
      ghost var second := InvalidatorEntries(invalidator);
      invalidator.InvalidateEvents(id);
      RemovedTwice(before, first, second, {RoutingKey(id)}, {StatusKey(id)}, AllReach(invalidator));
      RemovedTwice(before, second, InvalidatorEntries(invalidator), {RoutingKey(id)} + {StatusKey(id)}, {EventsKey(id)},
                   AllReach(invalidator));
      assert {RoutingKey(id)} + {StatusKey(id)} + {EventsKey(id)} == ClassifyKeys(id);
    }
  }

  method InsertDecisions(session: Session, id: Uuid, reason: Option<string>,
                         ds: seq<(DecisionType, string, Confidence)>)
    modifies session`db
    ensures session.db == WithDecisions(session.now, old(session.db), id, reason, ds)
  {
    for i := 0 to |ds|
      invariant session.db == WithDecisions(session.now, old(session.db), id, reason, ds[..i])
    {
      assert ds[..i + 1][..i] == ds[..i];
      session.db := session.db.WithRouting(session.now, id, ds[i].1, ds[i].0, Worker, Some(ds[i].2), reason);
    }
    assert ds[..|ds|] == ds;
  }

  method AskForClassification(env: Env, provider: AiProvider) returns (verdict: Verdict)
    modifies provider.classify`calls
    ensures verdict == Classify(env, old(provider.State())).verdict
    ensures provider.classify.calls == old(provider.classify.calls) + Classify(env, old(provider.State())).calls
  {
    hide Policy, ParsedOf;
    ghost var see := SightsOf(env, provider.classify.script);
    ghost var start := provider.classify.calls;
    var maxRetries := env.settings.classificationRetries;
    var jsonRetried := false;
    var attempt := 0;
    while attempt < maxRetries + 1
      invariant 0 <= attempt && (attempt == 0 || attempt <= maxRetries + 1)
      invariant provider.classify.calls == start + attempt
      invariant Loop(see, start, maxRetries + 1, false)
             == After(attempt, Loop(see, start + attempt, maxRetries + 1 - attempt, jsonRetried))
    {
      var o := WithRetries(provider.classify, 0);
      var sight := Interpret(env.settings.thresholds, o);
      assert see(start + attempt) == sight;
      match sight {
        case Parsed(parsed) => return Accepted(parsed);
        case Malformed =>
          if jsonRetried { return MalformedTwice; }
          jsonRetried := true;
        case Failing =>
          if attempt >= maxRetries { return ProviderDown; }
      }
      attempt := attempt + 1;
    }
    return Exhausted;
  }

  /** Validates a raw result and applies the policy; labels outside the taxonomy are malformed output. */
  method Interpret(t: Thresholds, o: Outcome<ClassificationResult>) returns (s: Sight)
    ensures s == See(t, o)
  {
    if o.Raise? { return if o.exc.MalformedModelOutput? then Malformed else Failing; }
    if !ValidRaw(o.value) { return Malformed; }
    var parsed := ApplyClassificationPolicy(o.value, t);
    return Parsed(parsed);
  }
}
