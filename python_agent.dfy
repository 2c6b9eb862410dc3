/** The demonstration AI agent of python_ai_agent_example.py: a batch of audit
    items is scored by the share of items the intern judged compliant, severity
    findings are counted, and rule-driven recommendations are produced. */
module PythonAgent {
  import opened Common

  // ---------------------------------------------------------------------------
  // Data model
  // ---------------------------------------------------------------------------

  /** The fields of a request item that the analysis reads. */
  datatype AgentItem = AgentItem(riskLevel: string, internVerdict: Option<string>)

  datatype AgentRequest = AgentRequest(
    batchId: string,
    companyName: string,
    location: string,
    auditItems: seq<AgentItem>)

  /** The figures the summary text is formatted from (the text's layout and
      number formatting are not modelled). */
  datatype Summary = Summary(
    companyName: string,
    location: string,
    totalItems: nat,
    compliantItems: nat,
    compliantPercent: real,
    nonCompliantItems: nat,
    overallScore: real,
    criticalFindings: nat,
    highRiskFindings: nat)

  datatype AgentResponse = AgentResponse(
    status: string,
    batchId: string,
    overallComplianceScore: real,
    criticalFindings: nat,
    highRiskFindings: nat,
    recommendations: seq<string>,
    summary: Summary,
    processedItems: nat)

  /** The endpoint's answer: a response, or HTTP 500 with its detail text. */
  datatype Outcome = Success(response: AgentResponse) | ServerError(detail: string)

  // ---------------------------------------------------------------------------
  // Counts and score
  // ---------------------------------------------------------------------------

  function HasVerdict(v: string): AgentItem -> bool
  {
    (item: AgentItem) => item.internVerdict == Some(v)
  }

  function IsFinding(level: string): AgentItem -> bool
  {
    (item: AgentItem) => item.riskLevel == level && item.internVerdict == Some("Non-Compliant")
  }

  /** Compliant and non-compliant items are disjoint, so together they are at
      most all items; a finding needs a non-compliant verdict, so critical and
      high findings together are at most the non-compliant items. */
  lemma CountsBounded(items: seq<AgentItem>)
    ensures Count(items, HasVerdict("Compliant")) + Count(items, HasVerdict("Non-Compliant")) <= |items|
    ensures Count(items, IsFinding("Critical")) + Count(items, IsFinding("High"))
            <= Count(items, HasVerdict("Non-Compliant"))
  {
    var either := (item: AgentItem) => item.internVerdict == Some("Compliant") || item.internVerdict == Some("Non-Compliant");
    CountDisjoint(items, HasVerdict("Compliant"), HasVerdict("Non-Compliant"), either);
    var finding := (item: AgentItem) => (item.riskLevel == "Critical" || item.riskLevel == "High") && item.internVerdict == Some("Non-Compliant");
    CountDisjoint(items, IsFinding("Critical"), IsFinding("High"), finding);
    CountMono(items, finding, HasVerdict("Non-Compliant"));
  }

  /** The score is below the review threshold exactly when fewer than 70 in
      100 items are compliant. */
  lemma BelowReviewThreshold(compliant: nat, total: nat)
    requires compliant <= total && total > 0
    ensures CompliancePercent(compliant, total) < ReviewThreshold <==> 100 * compliant < 70 * total
  {
    var r := CompliancePercent(compliant, total);
    var t := total as real;
    ScaleLess(r, ReviewThreshold, t, (100 * compliant) as real, (70 * total) as real);
  }

  /** Multiplying by a positive factor keeps `<`. */
  lemma ScaleLess(a: real, b: real, t: real, at: real, bt: real)
    requires t > 0.0 && a * t == at && b * t == bt
    ensures at < bt <==> a < b
  {
    assert bt - at == (b - a) * t;
    if a < b {
      assert (b - a) * t > 0.0;
    } else {
      assert (a - b) * t >= 0.0;
    }
  }

  // ---------------------------------------------------------------------------
  // Recommendations
  // ---------------------------------------------------------------------------

  const ReviewThreshold: real := 70.0

  /** The four recommendation rules; `Text` gives the message each one adds. */
  datatype Recommendation =
    | Urgent(critical: nat)
    | HighRisk(high: nat)
    | BelowThreshold
    | ActionPlan(nonCompliant: nat)

  // Each message is split after its first character, which is what tells
  // the rules apart.
  const UrgentPre: string := "\U{26A0}" + "\U{FE0F} URGENT: "
  const UrgentPost: string := " " + "critical compliance issues require immediate attention"
  const HighRiskPre: string := "A" + "ddress "
  const HighRiskPost: string := " " + "high-risk findings within 30 days"
  const BelowThresholdText: string :=
    "O" + "verall compliance is below acceptable threshold. Schedule comprehensive review."
  const ActionPlanPre: string := "D" + "evelop action plan for "
  const ActionPlanPost: string := " " + "non-compliant items"

  function Text(r: Recommendation): string
  {
    match r
    case Urgent(n) => UrgentPre + NatToString(n) + UrgentPost
    case HighRisk(n) => HighRiskPre + NatToString(n) + HighRiskPost
    case BelowThreshold => BelowThresholdText
    case ActionPlan(n) => ActionPlanPre + NatToString(n) + ActionPlanPost
  }

  /** The first character of each rule's message. */
  function Initial(r: Recommendation): char
  {
    match r
    case Urgent(_) => '\U{26A0}'
    case HighRisk(_) => 'A'
    case BelowThreshold => 'O'
    case ActionPlan(_) => 'D'
  }

  lemma TextInitial(r: Recommendation)
    ensures |Text(r)| > 0 && Text(r)[0] == Initial(r)
  {
    match r
    case Urgent(n) =>
      assert UrgentPre[0] == '\U{26A0}';
      assert Text(r)[0] == (UrgentPre + NatToString(n))[0];
    case HighRisk(n) =>
      assert HighRiskPre[0] == 'A';
      assert Text(r)[0] == (HighRiskPre + NatToString(n))[0];
    case BelowThreshold =>
      assert BelowThresholdText[0] == 'O';
    case ActionPlan(n) =>
      assert ActionPlanPre[0] == 'D';
      assert Text(r)[0] == (ActionPlanPre + NatToString(n))[0];
  }

  /** Messages of different rules differ (already in their first character),
      and within a rule they differ with the count they report. */
  lemma TextInjective(a: Recommendation, b: Recommendation)
    requires Text(a) == Text(b)
    ensures a == b
  {
    TextInitial(a);
    TextInitial(b);
    match a
    case Urgent(n) =>
      assert UrgentPost[0] == ' ';
      NumberInMessage(UrgentPre, n, b.critical, UrgentPost);
    case HighRisk(n) =>
      assert HighRiskPost[0] == ' ';
      NumberInMessage(HighRiskPre, n, b.high, HighRiskPost);
    case BelowThreshold =>
    case ActionPlan(n) =>
      assert ActionPlanPost[0] == ' ';
      NumberInMessage(ActionPlanPre, n, b.nonCompliant, ActionPlanPost);
  }

  /** A message that frames a number with fixed text on both sides determines
      the number, because the text after it does not start with a digit. */
  lemma NumberInMessage(pre: string, m: nat, n: nat, post: string)
    requires post != [] && !('0' <= post[0] <= '9')
    requires pre + NatToString(m) + post == pre + NatToString(n) + post
    ensures m == n
  {
    var a, b := NatToString(m), NatToString(n);
    assert (pre + a + post)[|pre|..] == a + post;
    assert (pre + b + post)[|pre|..] == b + post;
    DigitsThenText(a, b, post);
    NatToStringInjective(m, n);
  }

  lemma DigitsThenText(a: string, b: string, post: string)
    requires forall i :: 0 <= i < |a| ==> '0' <= a[i] <= '9'
    requires forall i :: 0 <= i < |b| ==> '0' <= b[i] <= '9'
    requires post != [] && !('0' <= post[0] <= '9')
    requires a + post == b + post
    ensures a == b
  {
    if |a| < |b| {
      assert false;
    } else if |b| < |a| {
      assert false;
    } else {
      assert a == (a + post)[..|a|];
      assert b == (b + post)[..|b|];
    }
  }

  /** Which rule a recommendation comes from, in the order the rules are
      applied. */
  function Rank(r: Recommendation): nat
  {
    match r
    case Urgent(_) => 0
    case HighRisk(_) => 1
    case BelowThreshold => 2
    case ActionPlan(_) => 3
  }

  /** A recommendation one of the rules can add for these figures. */
  predicate Candidate(r: Recommendation, critical: nat, high: nat, nonCompliant: nat)
  {
    match r
    case Urgent(n) => n == critical
    case HighRisk(n) => n == high
    case BelowThreshold => true
    case ActionPlan(n) => n == nonCompliant
  }

  /** Strictly increasing rule order. */
  predicate Ranked(rules: seq<Recommendation>)
  {
    forall i, j :: 0 <= i < j < |rules| ==> Rank(rules[i]) < Rank(rules[j])
  }

  /** The recommendation `r` when its rule fires, nothing otherwise. */
  function When(fires: bool, r: Recommendation): (s: seq<Recommendation>)
    ensures forall x :: x in s <==> fires && x == r
    ensures |s| <= 1
  {
    if fires then [r] else []
  }

  /** The recommendations the four rules add, in the order they are applied. */
  function Rules(critical: nat, high: nat, score: real, nonCompliant: nat): seq<Recommendation>
  {
    When(critical > 0, Urgent(critical)) + (When(high > 0, HighRisk(high))
      + (When(score < ReviewThreshold, BelowThreshold) + When(nonCompliant > 0, ActionPlan(nonCompliant))))
  }

  /** Two rule-ordered runs, the first all before rank `k` and the second
      all from rank `k` on, join into a rule-ordered run. */
  lemma RankedJoin(a: seq<Recommendation>, b: seq<Recommendation>, k: nat)
    requires Ranked(a) && Ranked(b)
    requires forall x :: x in a ==> Rank(x) < k
    requires forall y :: y in b ==> Rank(y) >= k
    ensures Ranked(a + b)
  {
    var s := a + b;
    forall i, j | 0 <= i < j < |s| ensures Rank(s[i]) < Rank(s[j]) {
      if i < |a| && j >= |a| {
        assert s[i] in a && s[j] in b;
      }
    }
  }

  /** Each rule adds its recommendation exactly when its condition holds, and
      the rules add nothing else. */
  lemma RulesMembers(critical: nat, high: nat, score: real, nonCompliant: nat)
    ensures var rules := Rules(critical, high, score, nonCompliant);
      && (Urgent(critical) in rules <==> critical > 0)
      && (HighRisk(high) in rules <==> high > 0)
      && (BelowThreshold in rules <==> score < ReviewThreshold)
      && (ActionPlan(nonCompliant) in rules <==> nonCompliant > 0)
      && (forall r :: r in rules ==> Candidate(r, critical, high, nonCompliant))
  {
    var u := When(critical > 0, Urgent(critical));
    var h := When(high > 0, HighRisk(high));
    var t := When(score < ReviewThreshold, BelowThreshold);
    var p := When(nonCompliant > 0, ActionPlan(nonCompliant));
    assert forall x :: x in Rules(critical, high, score, nonCompliant) <==> x in u || x in h || x in t || x in p;
  }

  /** The rules add at most one recommendation each, in rule order. */
  lemma RulesRanked(critical: nat, high: nat, score: real, nonCompliant: nat)
    ensures Ranked(Rules(critical, high, score, nonCompliant))
    ensures |Rules(critical, high, score, nonCompliant)| <= 4
  {
    var u := When(critical > 0, Urgent(critical));
    var h := When(high > 0, HighRisk(high));
    var t := When(score < ReviewThreshold, BelowThreshold);
    var p := When(nonCompliant > 0, ActionPlan(nonCompliant));
    RankedJoin(t, p, 3);
    RankedJoin(h, t + p, 2);
    RankedJoin(u, h + (t + p), 1);
  }

  /** The rules are applied in a fixed order, and each adds its recommendation
      exactly when its condition holds: at most four, none twice, in rule
      order. */
  method BuildRules(critical: nat, high: nat, score: real, nonCompliant: nat)
    returns (rules: seq<Recommendation>)
    ensures Urgent(critical) in rules <==> critical > 0
    ensures HighRisk(high) in rules <==> high > 0
    ensures BelowThreshold in rules <==> score < ReviewThreshold
    ensures ActionPlan(nonCompliant) in rules <==> nonCompliant > 0
    ensures forall r :: r in rules ==> Candidate(r, critical, high, nonCompliant)
    ensures Ranked(rules)
    ensures |rules| <= 4
    ensures rules == Rules(critical, high, score, nonCompliant)
  {
    rules := [];
    if critical > 0 {
      rules := rules + [Urgent(critical)];
    }
    ghost var r1 := rules;
    if high > 0 {
      rules := rules + [HighRisk(high)];
    }
    ghost var r2 := rules;
    if score < ReviewThreshold {
      rules := rules + [BelowThreshold];
    }
    ghost var r3 := rules;
    if nonCompliant > 0 {
      rules := rules + [ActionPlan(nonCompliant)];
    }
    assert rules == r3 + When(nonCompliant > 0, ActionPlan(nonCompliant));
    assert r3 == r2 + When(score < ReviewThreshold, BelowThreshold);
    assert r2 == r1 + When(high > 0, HighRisk(high));
    assert r1 == When(critical > 0, Urgent(critical));
    assert rules == Rules(critical, high, score, nonCompliant);
    RulesMembers(critical, high, score, nonCompliant);
    RulesRanked(critical, high, score, nonCompliant);
  }

  /** Recommendations in strict rule order are pairwise distinct. */
  lemma RankedDistinct(rules: seq<Recommendation>)
    requires Ranked(rules)
    ensures Distinct(rules)
  {
  }

  function Texts(recs: seq<Recommendation>): (r: seq<string>)
    ensures |r| == |recs|
    ensures forall i :: 0 <= i < |recs| ==> r[i] == Text(recs[i])
  {
    if recs == [] then [] else [Text(recs[0])] + Texts(recs[1..])
  }

  /** A rule's message is listed exactly when the rule is. */
  lemma TextsMember(rules: seq<Recommendation>, x: Recommendation)
    ensures Text(x) in Texts(rules) <==> x in rules
  {
    var t := Texts(rules);
    if Text(x) in t {
      var i :| 0 <= i < |t| && t[i] == Text(x);
      TextInjective(rules[i], x);
    }
  }

  /** Distinct rules give distinct messages. */
  lemma TextsDistinct(recs: seq<Recommendation>)
    requires Distinct(recs)
    ensures Distinct(Texts(recs))
  {
    var t := Texts(recs);
    forall i, j | 0 <= i < j < |t| ensures t[i] != t[j] {
      if t[i] == t[j] {
        TextInjective(recs[i], recs[j]);
      }
    }
  }

  /** A rendered rule is listed exactly when the rule fired. */
  lemma RuleTextsMembers(rules: seq<Recommendation>, critical: nat, high: nat, score: real, nonCompliant: nat)
    requires Urgent(critical) in rules <==> critical > 0
    requires HighRisk(high) in rules <==> high > 0
    requires BelowThreshold in rules <==> score < ReviewThreshold
    requires ActionPlan(nonCompliant) in rules <==> nonCompliant > 0
    ensures Text(Urgent(critical)) in Texts(rules) <==> critical > 0
    ensures Text(HighRisk(high)) in Texts(rules) <==> high > 0
    ensures Text(BelowThreshold) in Texts(rules) <==> score < ReviewThreshold
    ensures Text(ActionPlan(nonCompliant)) in Texts(rules) <==> nonCompliant > 0
  {
    TextsMember(rules, Urgent(critical));
    TextsMember(rules, HighRisk(high));
    TextsMember(rules, BelowThreshold);
    TextsMember(rules, ActionPlan(nonCompliant));
  }

  /** When only the low score fires, the review message is the only one. */
  lemma OnlyReview(rules: seq<Recommendation>, critical: nat, high: nat, score: real, nonCompliant: nat)
    requires critical == 0 && high == 0 && nonCompliant == 0 && score < ReviewThreshold
    requires BelowThreshold in rules
    requires forall r :: r in rules ==> Candidate(r, critical, high, nonCompliant)
    requires Urgent(critical) !in rules && HighRisk(high) !in rules && ActionPlan(nonCompliant) !in rules
    requires Distinct(rules)
    ensures rules == [BelowThreshold]
  {
    assert forall r :: r in rules <==> r in [BelowThreshold];
    SameElementsSameLength(rules, [BelowThreshold]);
    assert rules[0] in rules;
  }

  /** The recommendation messages of a batch, in rule order. */
  method BuildRecommendations(critical: nat, high: nat, score: real, nonCompliant: nat)
    returns (recommendations: seq<string>)
    ensures Text(Urgent(critical)) in recommendations <==> critical > 0
    ensures Text(HighRisk(high)) in recommendations <==> high > 0
    ensures Text(BelowThreshold) in recommendations <==> score < ReviewThreshold
    ensures Text(ActionPlan(nonCompliant)) in recommendations <==> nonCompliant > 0
    ensures |recommendations| <= 4 && Distinct(recommendations)
    ensures recommendations == Texts(Rules(critical, high, score, nonCompliant))
    ensures critical == 0 && high == 0 && nonCompliant == 0 && score < ReviewThreshold ==>
      recommendations == [Text(BelowThreshold)]
  {
    var rules := BuildRules(critical, high, score, nonCompliant);
    RuleTextsMembers(rules, critical, high, score, nonCompliant);
    RankedDistinct(rules);
    TextsDistinct(rules);
    if critical == 0 && high == 0 && nonCompliant == 0 && score < ReviewThreshold {
      OnlyReview(rules, critical, high, score, nonCompliant);
    }
    recommendations := Texts(rules);
  }

  // ---------------------------------------------------------------------------
  // The endpoint
  // ---------------------------------------------------------------------------

  const DivisionByZero: string := "Failed to process audit batch: division by zero"

  /** The figures of the summary. The compliant percentage divides by the
      number of items without the guard the score has. */
  function SummaryAsWritten(request: AgentRequest, compliant: nat, nonCompliant: nat, score: real,
                            critical: nat, high: nat): (r: Option<Summary>)
    ensures r.None? <==> |request.auditItems| == 0
  {
    var total := |request.auditItems|;
    if total == 0 then None
    else Some(Summary(request.companyName, request.location, total, compliant,
                      (compliant as real / total as real) * 100.0, nonCompliant, score, critical, high))
  }

  /** The summary figures with the compliant percentage guarded like the score:
      0 for an empty batch. */
  function SummaryGuarded(request: AgentRequest, compliant: nat, nonCompliant: nat, score: real,
                          critical: nat, high: nat): (r: Summary)
    requires compliant <= |request.auditItems|
    ensures r.compliantPercent == CompliancePercent(compliant, |request.auditItems|)
    ensures |request.auditItems| > 0 ==>
      SummaryAsWritten(request, compliant, nonCompliant, score, critical, high) == Some(r)
  {
    Summary(request.companyName, request.location, |request.auditItems|, compliant,
            CompliancePercent(compliant, |request.auditItems|), nonCompliant, score, critical, high)
  }

  /** What a successful answer to `request` promises: the batch's counts,
      its rounded score, the recommendations keyed to those counts (exactly
      the fired rules' messages, in rule order), and the summary's
      percentage. */
  predicate Answers(request: AgentRequest, response: AgentResponse)
  {
    var items := request.auditItems;
    var compliant := Count(items, HasVerdict("Compliant"));
    var nonCompliant := Count(items, HasVerdict("Non-Compliant"));
    var recs := response.recommendations;
    CountsBounded(items);
    && response.status == "success" && response.batchId == request.batchId
    && response.processedItems == |items|
    && response.criticalFindings == Count(items, IsFinding("Critical"))
    && response.highRiskFindings == Count(items, IsFinding("High"))
    && response.criticalFindings + response.highRiskFindings <= nonCompliant
    && 0.0 <= response.overallComplianceScore <= 100.0
    && response.overallComplianceScore == PyRound2(CompliancePercent(compliant, |items|))
    && (Text(Urgent(response.criticalFindings)) in recs <==> response.criticalFindings > 0)
    && (Text(HighRisk(response.highRiskFindings)) in recs <==> response.highRiskFindings > 0)
    && (Text(ActionPlan(nonCompliant)) in recs <==> nonCompliant > 0)
    && |recs| <= 4 && Distinct(recs)
    && (|items| > 0 ==> (Text(BelowThreshold) in recs <==> 100 * compliant < 70 * |items|))
    && response.summary.compliantPercent == CompliancePercent(compliant, |items|)
    && recs == Texts(Rules(response.criticalFindings, response.highRiskFindings,
                           CompliancePercent(compliant, |items|), nonCompliant))
  }

/** `submit_audit_batch` as written: an empty batch reaches the summary's
      unguarded division, the exception is caught, and the endpoint answers
      HTTP 500. */
  method SubmitAuditBatchAsWritten(request: AgentRequest) returns (outcome: Outcome)
    ensures |request.auditItems| == 0 <==> outcome == ServerError(DivisionByZero)
    ensures outcome.Success? ==> Answers(request, outcome.response)
  {
    var items := request.auditItems;
    var total := |items|;
    var compliant := Count(items, HasVerdict("Compliant"));
    var nonCompliant := Count(items, HasVerdict("Non-Compliant"));
    var critical := Count(items, IsFinding("Critical"));
    var high := Count(items, IsFinding("High"));
    CountsBounded(items);
    var score := CompliancePercent(compliant, total);
    var recommendations := BuildRecommendations(critical, high, score, nonCompliant);
    var summary := SummaryAsWritten(request, compliant, nonCompliant, score, critical, high);
    if summary.None? {
      return ServerError(DivisionByZero);
    }
    assert summary.value == SummaryGuarded(request, compliant, nonCompliant, score, critical, high);
    PyRound2Bounds(score);
    BelowReviewThreshold(compliant, total);
    outcome := Success(AgentResponse("success", request.batchId, PyRound2(score), critical, high,
                                     recommendations, summary.value, total));
  }

  /** `submit_audit_batch` with the summary's percentage guarded: every batch,
      the empty one included, gets a response. */
  method SubmitAuditBatch(request: AgentRequest) returns (response: AgentResponse)
    ensures Answers(request, response)
    ensures |request.auditItems| == 0 ==>
      response.overallComplianceScore == 0.0 && response.recommendations == [Text(BelowThreshold)]
  {
    var items := request.auditItems;
    var total := |items|;
    var compliant := Count(items, HasVerdict("Compliant"));
    var nonCompliant := Count(items, HasVerdict("Non-Compliant"));
    var critical := Count(items, IsFinding("Critical"));
    var high := Count(items, IsFinding("High"));
    CountsBounded(items);
    var score := CompliancePercent(compliant, total);
    var recommendations := BuildRecommendations(critical, high, score, nonCompliant);
    var summary := SummaryGuarded(request, compliant, nonCompliant, score, critical, high);
    PyRound2Bounds(score);
    if total == 0 {
      assert compliant == 0 && nonCompliant == 0 && critical == 0 && high == 0;
      PyRound2OfHalves(0);
    } else {
      BelowReviewThreshold(compliant, total);
    }
    response := AgentResponse("success", request.batchId, PyRound2(score), critical, high,
                              recommendations, summary, total);
  }
}
