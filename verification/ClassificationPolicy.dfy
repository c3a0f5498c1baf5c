/** Turning a provider's classification into the one that is persisted. */
module ClassificationPolicy {
  import opened Common
  import opened Domain
  import opened Provider

  const UNKNOWN := "unknown"
  const TRIAGE := "triage"
  const NORMAL := "normal"

  const CATEGORIES := ["billing", "account_access", "technical_issue", "bug_report", "feature_request", "security",
                       "general_support", UNKNOWN]
  const TEAMS := [TRIAGE, "billing_support", "technical_support", "account_support", "security_review",
                  "customer_success"]
  const PRIORITIES := ["low", NORMAL, "high", "urgent"]

  /** The provider's labels belong to the taxonomy. */
  predicate ValidRaw(raw: ClassificationResult) {
    raw.category in CATEGORIES && raw.team in TEAMS && raw.priority in PRIORITIES
  }

  datatype Thresholds = Thresholds(high: real, medium: real, routingMin: real)

  method ApplyClassificationPolicy(raw: ClassificationResult, t: Thresholds) returns (parsed: ParsedClassification)
    ensures parsed == Policy(raw, t)
  {
    var category, team, priority := raw.category, raw.team, raw.priority;
    var escalation := if raw.escalation != "" then raw.escalation else "none";
    var review := false;
    var fallback: Option<string> := None;
    if raw.classificationConfidence < t.medium {
      category, team, priority := UNKNOWN, TRIAGE, NORMAL;
      review := true;
      fallback := Some("low_classification_confidence");
    } else if raw.classificationConfidence < t.high {
      review := true;
    }
    if raw.routingConfidence < t.routingMin {
      team := TRIAGE;
      review := true;
      fallback := if fallback.Some? then fallback else Some("low_routing_confidence");
    }
    parsed := ParsedClassification(category, team, priority, escalation, raw.classificationConfidence,
                                   raw.routingConfidence, review, fallback);
  }

  /** The tiers of the policy, decision by decision. */
  function Policy(raw: ClassificationResult, t: Thresholds): ParsedClassification {
    var low := raw.classificationConfidence < t.medium;
    var unrouted := raw.routingConfidence < t.routingMin;
    ParsedClassification(
      if low then UNKNOWN else raw.category,
      if low || unrouted then TRIAGE else raw.team,
      if low then NORMAL else raw.priority,
      if raw.escalation != "" then raw.escalation else "none",
      raw.classificationConfidence, raw.routingConfidence,
      low || unrouted || raw.classificationConfidence < t.high,
      if low then Some("low_classification_confidence") else if unrouted then Some("low_routing_confidence") else None)
  }

  /** Labels out of the taxonomy are malformed output, and no others. */
  predicate Labelled(raw: ClassificationResult) {
    && (exists i :: 0 <= i < |CATEGORIES| && CATEGORIES[i] == raw.category)
    && (exists i :: 0 <= i < |TEAMS| && TEAMS[i] == raw.team)
    && (exists i :: 0 <= i < |PRIORITIES| && PRIORITIES[i] == raw.priority)
  }

  /** Each field of a decision, by the bars the two confidences of the raw result reach. */
  predicate Tiered(raw: ClassificationResult, t: Thresholds, p: ParsedClassification) {
    var sure, routed := raw.classificationConfidence, raw.routingConfidence;
    && p.category == (if sure >= t.medium then raw.category else "unknown")
    && p.priority == (if sure >= t.medium then raw.priority else "normal")
    && p.team == (if sure >= t.medium && routed >= t.routingMin then raw.team else "triage")
    && p.escalation == (if raw.escalation == "" then "none" else raw.escalation)
    && p.classificationConfidence == sure && p.routingConfidence == routed
    && (p.requiresHumanReview <==> !(sure >= t.medium && sure >= t.high && routed >= t.routingMin))
    && p.fallbackReason == (if sure < t.medium then Some("low_classification_confidence")
                            else if routed < t.routingMin then Some("low_routing_confidence") else None)
  }

  /** The policy follows the tiers, and nothing else does; its reason names the first bar missed. */
  lemma PolicyTiers(raw: ClassificationResult, t: Thresholds, p: ParsedClassification)
    ensures p == Policy(raw, t) <==> Tiered(raw, t, p)
    ensures Tiered(raw, t, p) ==>
              ReasonOf(p) == Reason(t, raw.classificationConfidence, raw.routingConfidence)
    ensures ValidRaw(raw) <==> Labelled(raw)
  {
    assert "low_classification_confidence" != "" && "low_routing_confidence" != "";
  }

  /** The first bar missed names the reason; above the lower bars only a human is asked to look. */
  function Reason(t: Thresholds, sure: Confidence, routed: Confidence): Option<string> {
    if sure < t.medium then Some("low_classification_confidence")
    else if routed < t.routingMin then Some("low_routing_confidence")
    else if sure < t.high then Some("human_review_required")
    else None
  }

  function Fallback(reason: string): ParsedClassification {
    ParsedClassification(UNKNOWN, TRIAGE, NORMAL, "none", 0.0, 0.0, true, Some(reason))
  }

  /** The reason written on all four routing rows. */
  function ReasonOf(p: ParsedClassification): Option<string> {
    if p.fallbackReason.Some? && p.fallbackReason.value != "" then p.fallbackReason
    else if p.requiresHumanReview then Some("human_review_required") else None
  }

  /** What is persisted: labels of the taxonomy, and a reason exactly when a human must look. */
  ghost predicate Sound(p: ParsedClassification) {
    && p.category in CATEGORIES && p.team in TEAMS && p.priority in PRIORITIES
    && (ReasonOf(p).None? <==> !p.requiresHumanReview)
    && (p.fallbackReason.Some? ==> p.requiresHumanReview && p.team == TRIAGE)
  }

  lemma PolicyIsSound(raw: ClassificationResult, t: Thresholds)
    requires ValidRaw(raw)
    ensures Sound(Policy(raw, t))
  {}

  lemma FallbackIsSound(reason: string)
    ensures Sound(Fallback(reason))
  {}

  predicate LessSure(a: ClassificationResult, b: ClassificationResult) {
    a.classificationConfidence <= b.classificationConfidence && a.routingConfidence <= b.routingConfidence
  }

  /** More confidence never adds a review, a triage or a reset of the labels. */
  lemma ReviewIsAntitone(a: ClassificationResult, b: ClassificationResult, t: Thresholds)
    requires LessSure(a, b)
    ensures Policy(b, t).requiresHumanReview ==> Policy(a, t).requiresHumanReview
    ensures Policy(b, t).fallbackReason.Some? ==> Policy(a, t).fallbackReason.Some?
    ensures Policy(b, t).category != b.category ==> Policy(a, t).category == UNKNOWN
  {}

  /** No review means both confidences reached their bars and the provider's labels went through untouched. */
  lemma UnreviewedIsVerbatim(raw: ClassificationResult, t: Thresholds)
    ensures !Policy(raw, t).requiresHumanReview <==>
      raw.classificationConfidence >= t.medium && raw.classificationConfidence >= t.high
          && raw.routingConfidence >= t.routingMin
    ensures !Policy(raw, t).requiresHumanReview ==>
      var p := Policy(raw, t); p.category == raw.category && p.team == raw.team && p.priority == raw.priority
    ensures raw.classificationConfidence < t.medium || raw.routingConfidence < t.routingMin ==>
            Policy(raw, t).team == TRIAGE
  {}
}
