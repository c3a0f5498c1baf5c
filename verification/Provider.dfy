/** The AI provider as an arbitrary stream of outcomes, and the retry loop around it. */
module Provider {
  import opened Domain

  /** `NothingToRaise` is the `TypeError` of raising a missing exception. */
  datatype Exc = MalformedModelOutput(message: string) | ProviderError(name: string, message: string) | NothingToRaise

  function ExcName(e: Exc): string {
    match e
    case MalformedModelOutput(_) => "MalformedModelOutput"
    case ProviderError(name, _) => name
    case NothingToRaise => "TypeError"
  }

  function ExcMessage(e: Exc): string {
    if e.NothingToRaise? then "exceptions must derive from BaseException" else e.message
  }

  datatype Outcome<+T> = Ok(value: T) | Raise(exc: Exc)

  /** Like `Confidence`, confined to what the schema stores; a dimension of 0 means the configured one. */
  datatype EmbeddingResult = EmbeddingResult(vector: StoredVector, model: string, provider: string, dimension: nat)

  datatype ClassificationResult = ClassificationResult(
    category: string, team: string, priority: string, escalation: string,
    classificationConfidence: Confidence, routingConfidence: Confidence)

  datatype DraftResult = DraftResult(text: string, confidence: Confidence, model: string, provider: string)

  /** One operation of the provider: its calls so far, and what each call does. */
  class Endpoint<T> {
    const script: nat -> Outcome<T>
    var calls: nat

    constructor (script: nat -> Outcome<T>)
      ensures this.script == script && calls == 0
    {
      this.script, calls := script, 0;
    }

    method Call() returns (o: Outcome<T>)
      modifies this`calls
      ensures calls == old(calls) + 1 && o == script(old(calls))
    {
      o := script(calls);
      calls := calls + 1;
    }
  }

  class AiProvider {
    const name: string
    const embed: Endpoint<EmbeddingResult>
    const classify: Endpoint<ClassificationResult>
    const suggest: Endpoint<DraftResult>

    constructor (name: string, embed: Endpoint<EmbeddingResult>, classify: Endpoint<ClassificationResult>,
                 suggest: Endpoint<DraftResult>)
      ensures this.name == name && this.embed == embed && this.classify == classify && this.suggest == suggest
    {
      this.name, this.embed, this.classify, this.suggest := name, embed, classify, suggest;
    }

    function State(): Feed
      reads embed, classify, suggest
    {
      Feed(name, embed.script, classify.script, suggest.script, embed.calls, classify.calls, suggest.calls)
    }
  }

  /** The state of a provider as a value. */
  datatype Feed = Feed(
    name: string, embed: nat -> Outcome<EmbeddingResult>, classify: nat -> Outcome<ClassificationResult>,
    suggest: nat -> Outcome<DraftResult>, embedCalls: nat, classifyCalls: nat, suggestCalls: nat)

  // ---- retries ---------------------------------------------------------------------------------

  /** The calls made from `start` on: up to the first success, at most `limit + 1`. */
  function Attempts<T>(script: nat -> Outcome<T>, start: nat, limit: int): nat
    decreases limit + 1
  {
    if limit < 0 then 0
    else if script(start).Ok? || limit == 0 then 1
    else 1 + Attempts(script, start + 1, limit - 1)
  }

  /** What the retry loop returns or raises: the outcome of its last call. */
  function Retry<T>(script: nat -> Outcome<T>, start: nat, limit: int): Outcome<T> {
    var n := Attempts(script, start, limit);
    if n == 0 then Raise(NothingToRaise) else script(start + n - 1)
  }

  /** Some call of those the limit allows succeeds. */
  ghost predicate SomeOk<T>(script: nat -> Outcome<T>, start: nat, limit: int) {
    exists i: nat :: start <= i <= start + limit && script(i).Ok?
  }

  /** Only the last call may succeed, and a failure is raised only once every allowed call has failed. */
  lemma {:induction false} RetryIsFirstSuccess<T>(script: nat -> Outcome<T>, start: nat, limit: int)
    ensures var n := Attempts(script, start, limit);
            && (limit < 0 ==> n == 0) && (limit >= 0 ==> 1 <= n <= limit + 1)
            && (forall i :: start <= i < start + n - 1 ==> script(i).Raise?)
            && (Retry(script, start, limit).Raise? && limit >= 0 ==> n == limit + 1)
            && (Retry(script, start, limit).Ok? <==> SomeOk(script, start, limit))
    decreases limit + 1
  {
    if limit > 0 && script(start).Raise? { RetryIsFirstSuccess(script, start + 1, limit - 1); }
  }

  method WithRetries<T>(e: Endpoint<T>, maxRetries: int) returns (o: Outcome<T>)
    modifies e`calls
    ensures o == Retry(e.script, old(e.calls), maxRetries)
    ensures e.calls == old(e.calls) + Attempts(e.script, old(e.calls), maxRetries)
  {
    var lastExc := NothingToRaise;
    var attempt := 0;
    while attempt < maxRetries + 1
      invariant 0 <= attempt && (attempt == 0 || attempt <= maxRetries)
      invariant e.calls == old(e.calls) + attempt
      invariant attempt == 0 ==> lastExc == NothingToRaise
      invariant Attempts(e.script, old(e.calls), maxRetries) == attempt + Attempts(e.script, e.calls,
                                                                                   maxRetries - attempt)
    {
      o := e.Call();
      if o.Ok? { return o; }
      lastExc := o.exc;
      if attempt >= maxRetries { return o; }
      attempt := attempt + 1;
    }
    return Raise(lastExc);
  }
}
