/** The multi-act master audit orchestrator of MASTER_AUDIT_ORCHESTRATOR_EXAMPLE.py:
    audit items are partitioned by identifier prefix into a Code on Wages bucket,
    an OSH Code bucket and an "other" bucket; a (mock) specialist is invoked once
    for each non-empty specialist bucket; and the partial results are merged into
    one unified report. */
module MasterOrchestrator {
  import opened Common

  // ---------------------------------------------------------------------------
  // Data model
  // ---------------------------------------------------------------------------

  /** A value read from a Python dict with `item.get(key, default)`: the key may
      be absent, present with `None`, or present with a string. */
  datatype Field = Missing | Null | Str(s: string)

  /** `item.get(key, default)`: the default only replaces an absent key. */
  function Get(f: Field, default: string): Option<string>
  {
    match f
    case Missing => Some(default)
    case Null => None
    case Str(s) => Some(s)
  }

  /** `item.get(key)`: absent and `None` both read as `None`. */
  function GetOrNone(f: Field): Option<string>
  {
    match f
    case Str(s) => Some(s)
    case _ => None
  }

  /** The fields of one audit item (a dict) that the orchestrator reads. */
  datatype RawItem = RawItem(
    auditItemId: Field,
    riskLevel: Field,
    category: Field,
    internVerdict: Field,
    internComment: Field)

  datatype BatchMeta = BatchMeta(
    batchId: Option<string>,
    sessionId: Option<string>,
    companyName: Option<string>,
    location: Option<string>,
    submittedAt: Option<string>)

  /** The batch dict handed to `run_master_audit`; `audit_items` may be absent. */
  datatype BatchData = BatchData(meta: BatchMeta, auditItems: Option<seq<RawItem>>)

  /** The context dict passed to a specialist. */
  datatype Context = Context(batchId: Option<string>, companyName: Option<string>, location: Option<string>)

  datatype Finding = Finding(
    itemId: Option<string>,
    status: Option<string>,
    category: Option<string>,
    severity: Option<string>,
    comment: Option<string>,
    recommendation: string)

  /** The result dict of one specialist invocation. */
  datatype PartialResult = PartialResult(
    agentName: string,
    score: int,
    critical: nat,
    high: nat,
    medium: nat,
    low: nat,
    analyzedItems: nat,
    findings: seq<Finding>,
    recommendations: seq<string>)

  datatype ScoreCard = ScoreCard(score: int, critical: nat, high: nat, itemsAnalyzed: nat)

  /** One entry of the `act_scores` dict, in insertion order. */
  datatype ActScore = ActScore(act: string, card: ScoreCard)

  datatype UnifiedReport = UnifiedReport(
    meta: BatchMeta,
    actScores: seq<ActScore>,
    overallScore: real,
    totalFindings: nat,
    critical: nat,
    high: nat,
    medium: nat,
    low: nat,
    findings: seq<Finding>,
    recommendations: seq<string>,
    agentsInvoked: seq<string>)

  // ---------------------------------------------------------------------------
  // Partitioning
  // ---------------------------------------------------------------------------

  datatype Bucket = Wages | Safety | Other

  const WagesPrefix: string := "CW-2019-SEC-"
  const SafetyPrefix: string := "OSHWC-SEC-"

  /** `item.get('audit_item_id', '')`. An identifier present with the value
      `None` makes `.startswith` raise; the partitioning methods exclude it by
      precondition (`IdsReadable`), and it reads as "" here only so that this
      function is total. */
  function ItemId(item: RawItem): string
  {
    match item.auditItemId
    case Str(id) => id
    case _ => ""
  }

  /** Every identifier is absent or a string, so that `startswith` can be
      called on `item.get('audit_item_id', '')`. */
  predicate IdsReadable(items: seq<RawItem>)
  {
    forall i :: 0 <= i < |items| ==> items[i].auditItemId != Null
  }

  /** The bucket the partitioning loop appends an item to: the wages prefix is
      tested first, then the safety prefix, and everything else is "other". */
  function Classify(item: RawItem): Bucket
  {
    if StartsWith(ItemId(item), WagesPrefix) then Wages
    else if StartsWith(ItemId(item), SafetyPrefix) then Safety
    else Other
  }

  function InBucket(b: Bucket): RawItem -> bool
  {
    x => Classify(x) == b
  }

  /** The items of one bucket, in input order. */
  function BucketItems(items: seq<RawItem>, b: Bucket): seq<RawItem>
  {
    Filter(items, InBucket(b))
  }

  datatype Partitions = Partitions(wages: seq<RawItem>, safety: seq<RawItem>, other: seq<RawItem>)

  /** Classification is decided by the identifier prefix alone: a wages item is
      exactly one whose identifier starts with the wages prefix, a safety item
      one whose identifier starts with the safety prefix, and an item without an
      identifier is "other". The two prefixes exclude each other, so the order
      in which they are tested does not change any outcome. */
  lemma ClassifyByPrefix(item: RawItem)
    ensures Classify(item) == Wages <==> StartsWith(ItemId(item), WagesPrefix)
    ensures Classify(item) == Safety <==> StartsWith(ItemId(item), SafetyPrefix)
    ensures item.auditItemId == Missing ==> Classify(item) == Other
  {
    if StartsWith(ItemId(item), WagesPrefix) {
      assert ItemId(item)[0] == 'C';
    }
    if StartsWith(ItemId(item), SafetyPrefix) {
      assert ItemId(item)[0] == 'O';
    }
  }

  /** Appending one item to the input appends it to the bucket of its
      classification and leaves the other two buckets as they were. */
  lemma BucketsStep(s: seq<RawItem>, x: RawItem)
    ensures BucketItems(s + [x], Wages) == BucketItems(s, Wages) + (if Classify(x) == Wages then [x] else [])
    ensures BucketItems(s + [x], Safety) == BucketItems(s, Safety) + (if Classify(x) == Safety then [x] else [])
    ensures BucketItems(s + [x], Other) == BucketItems(s, Other) + (if Classify(x) == Other then [x] else [])
  {
    FilterSnoc(s, x, InBucket(Wages));
    FilterSnoc(s, x, InBucket(Safety));
    FilterSnoc(s, x, InBucket(Other));
  }

  /** `partition_audit_items`: one pass over the items, appending each to the
      list of its bucket. */
  method PartitionAuditItems(items: seq<RawItem>) returns (p: Partitions)
    requires IdsReadable(items)
    ensures p.wages == BucketItems(items, Wages)
    ensures p.safety == BucketItems(items, Safety)
    ensures p.other == BucketItems(items, Other)
  {
    var wages, safety, other := [], [], [];
    var i := 0;
    while i < |items|
      invariant 0 <= i <= |items|
      invariant wages == BucketItems(items[..i], Wages)
      invariant safety == BucketItems(items[..i], Safety)
      invariant other == BucketItems(items[..i], Other)
    {
      var item := items[i];
      assert items[..i + 1] == items[..i] + [item];
      BucketsStep(items[..i], item);
      var id := ItemId(item);
      if StartsWith(id, WagesPrefix) {
        wages := wages + [item];
      } else if StartsWith(id, SafetyPrefix) {
        safety := safety + [item];
      } else {
        other := other + [item];
      }
      i := i + 1;
    }
    assert items[..i] == items;
    p := Partitions(wages, safety, other);
  }

  /** The three buckets split the input: their sizes add up to the number of
      items, and together they hold every item exactly as often as the input. */
  lemma {:induction false} PartitionCovers(items: seq<RawItem>)
    ensures multiset(BucketItems(items, Wages)) + multiset(BucketItems(items, Safety))
            + multiset(BucketItems(items, Other)) == multiset(items)
    ensures |BucketItems(items, Wages)| + |BucketItems(items, Safety)| + |BucketItems(items, Other)| == |items|
  {
    if items != [] {
      var init, last := items[..|items| - 1], items[|items| - 1];
      PartitionCovers(init);
      assert items == init + [last];
      BucketsStep(init, last);
    }
    MultisetCard(BucketItems(items, Wages), BucketItems(items, Safety), BucketItems(items, Other), items);
  }

  lemma MultisetCard(a: seq<RawItem>, b: seq<RawItem>, c: seq<RawItem>, s: seq<RawItem>)
    requires multiset(a) + multiset(b) + multiset(c) == multiset(s)
    ensures |a| + |b| + |c| == |s|
  {
    assert |multiset(a) + multiset(b) + multiset(c)| == |multiset(s)|;
  }

  /** Every item lands in the bucket of its classification and in no other. */
  lemma EachItemInOneBucket(items: seq<RawItem>, x: RawItem, b: Bucket)
    requires x in items
    ensures x in BucketItems(items, b) <==> b == Classify(x)
  {
    FilterMembers(items, InBucket(b));
  }

  // ---------------------------------------------------------------------------
  // Specialist invocation (the mock of `invoke_specialist_agent`)
  // ---------------------------------------------------------------------------

  predicate IsCritical(item: RawItem) { GetOrNone(item.riskLevel) == Some("Critical") }
  predicate IsHigh(item: RawItem) { GetOrNone(item.riskLevel) == Some("High") }
  predicate IsNonCompliant(item: RawItem) { GetOrNone(item.internVerdict) == Some("Non-Compliant") }

  const BaseScore: int := 100
  const PenaltyPerCritical: int := 15
  const PenaltyPerHigh: int := 8
  const PenaltyPerNonCompliant: int := 5

  /** `max(0, min(100, score))`. */
  function Clamp(x: int): int
  {
    if x < 0 then 0 else if x > 100 then 100 else x
  }

  /** The mock score: 100 minus 15 per critical, 8 per high and 5 per
      non-compliant item, clamped into [0, 100]. */
  function MockScore(critical: nat, high: nat, nonCompliant: nat): (r: int)
    ensures 0 <= r <= 100
    ensures r == 100 <==> critical == 0 && high == 0 && nonCompliant == 0
    ensures BaseScore - PenaltyPerCritical * critical - PenaltyPerHigh * high
            - PenaltyPerNonCompliant * nonCompliant >= 0
            ==> r == BaseScore - PenaltyPerCritical * critical - PenaltyPerHigh * high
                     - PenaltyPerNonCompliant * nonCompliant
  {
    Clamp(BaseScore - critical * PenaltyPerCritical - high * PenaltyPerHigh - nonCompliant * PenaltyPerNonCompliant)
  }

  /** Python's `f"{x}"` of an optional string: `None` prints as "None". */
  function PyStr(x: Option<string>): string
  {
    match x
    case Some(s) => s
    case None => "None"
  }

  function MockFinding(item: RawItem, context: Context): Finding
  {
    Finding(
      GetOrNone(item.auditItemId),
      Get(item.internVerdict, "Not Assessed"),
      GetOrNone(item.category),
      GetOrNone(item.riskLevel),
      Get(item.internComment, ""),
      "Review " + PyStr(GetOrNone(item.category)) + " compliance for " + PyStr(context.companyName))
  }

  function MockFindings(items: seq<RawItem>, context: Context): (r: seq<Finding>)
    ensures |r| == |items|
    ensures forall i :: 0 <= i < |items| ==> r[i] == MockFinding(items[i], context)
  {
    if items == [] then [] else [MockFinding(items[0], context)] + MockFindings(items[1..], context)
  }

  function AddressRec(n: nat): string { "Address " + NatToString(n) + " non-compliance findings" }
  function FocusRec(n: nat): string { "Focus on " + NatToString(n) + " critical items" }
  function ImproveRec(n: nat): string { "Improve " + NatToString(n) + " high-risk areas" }

  /** The recommendation list before `None` entries are filtered out. */
  function RawRecommendations(critical: nat, high: nat, nonCompliant: nat): seq<Option<string>>
  {
    [Some(AddressRec(nonCompliant)),
     if critical > 0 then Some(FocusRec(critical)) else None,
     if high > 0 then Some(ImproveRec(high)) else None]
  }

  /** After filtering, the "address" entry always comes first, the "critical"
      entry is present exactly when there are critical items, and the
      "high-risk" entry exactly when there are high-risk items. */
  lemma MockRecommendationsShape(critical: nat, high: nat, nonCompliant: nat)
    ensures var recs := Somes(RawRecommendations(critical, high, nonCompliant));
      && |recs| == 1 + (if critical > 0 then 1 else 0) + (if high > 0 then 1 else 0)
      && recs[0] == AddressRec(nonCompliant)
      && (FocusRec(critical) in recs <==> critical > 0)
      && (ImproveRec(high) in recs <==> high > 0)
  {
    var raw := RawRecommendations(critical, high, nonCompliant);
    assert raw[..1] == [Some(AddressRec(nonCompliant))];
    assert raw[..2] == raw[..1] + [raw[1]];
    assert raw[..3] == raw;
    assert AddressRec(nonCompliant)[0] == 'A' && FocusRec(critical)[0] == 'F' && ImproveRec(high)[0] == 'I';
  }

  /** `invoke_specialist_agent` with its mock response. Nothing is invoked for
      an empty list; otherwise the result analyses every item: it counts the
      critical and high-risk items, scores them with the mock penalty formula,
      and recommends addressing the non-compliant items, plus focusing on the
      critical ones and improving the high-risk ones when there are any. */
  function InvokeSpecialistAgent(agentName: string, items: seq<RawItem>, context: Context): (r: Option<PartialResult>)
    ensures r.None? <==> items == []
    ensures r.Some? ==>
      && r.value.agentName == agentName
      && r.value.analyzedItems == |items|
      && |r.value.findings| == |items|
      && (forall i :: 0 <= i < |items| ==> r.value.findings[i].itemId == GetOrNone(items[i].auditItemId))
      && r.value.critical == Count(items, IsCritical)
      && r.value.high == Count(items, IsHigh)
      && r.value.critical + r.value.high <= |items|
      && r.value.medium == 0 && r.value.low == 0
      && r.value.score == MockScore(r.value.critical, r.value.high, Count(items, IsNonCompliant))
      && 0 <= r.value.score <= 100
    ensures r.Some? ==>
      var recs := r.value.recommendations;
      && recs == Somes(RawRecommendations(r.value.critical, r.value.high, Count(items, IsNonCompliant)))
      && recs[0] == AddressRec(Count(items, IsNonCompliant))
      && (FocusRec(r.value.critical) in recs <==> r.value.critical > 0)
      && (ImproveRec(r.value.high) in recs <==> r.value.high > 0)
  {
    if items == [] then None else
      var critical := Count(items, IsCritical);
      var high := Count(items, IsHigh);
      var nonCompliant := Count(items, IsNonCompliant);
      SeverityCountsBounded(items);
      MockRecommendationsShape(critical, high, nonCompliant);
      Some(PartialResult(
        agentName,
        MockScore(critical, high, nonCompliant),
        critical, high, 0, 0,
        |items|,
        MockFindings(items, context),
        Somes(RawRecommendations(critical, high, nonCompliant))))
  }

  /** A risk level is either "Critical" or "High" or neither, so the two counts
      together never exceed the number of items analysed. */
  lemma SeverityCountsBounded(items: seq<RawItem>)
    ensures Count(items, IsCritical) + Count(items, IsHigh) <= |items|
  {
    var either := (x: RawItem) => IsCritical(x) || IsHigh(x);
    CountDisjoint(items, IsCritical, IsHigh, either);
  }

  // ---------------------------------------------------------------------------
  // Synthesis
  // ---------------------------------------------------------------------------

  const WagesAct: string := "Code on Wages, 2019"
  const SafetyAct: string := "OSH Code, 2020"

  function CardOf(r: PartialResult): ScoreCard
  {
    ScoreCard(r.score, r.critical, r.high, r.analyzedItems)
  }

  function FindingsOf(r: Option<PartialResult>): seq<Finding>
  {
    match r
    case Some(x) => x.findings
    case None => []
  }

  function RecommendationsOf(r: Option<PartialResult>): seq<string>
  {
    match r
    case Some(x) => x.recommendations
    case None => []
  }

  function CriticalOf(r: Option<PartialResult>): nat { match r case Some(x) => x.critical case None => 0 }
  function HighOf(r: Option<PartialResult>): nat { match r case Some(x) => x.high case None => 0 }
  function MediumOf(r: Option<PartialResult>): nat { match r case Some(x) => x.medium case None => 0 }
  function LowOf(r: Option<PartialResult>): nat { match r case Some(x) => x.low case None => 0 }

  function Keys(scores: seq<ActScore>): (r: seq<string>)
    ensures |r| == |scores|
    ensures forall i :: 0 <= i < |scores| ==> r[i] == scores[i].act
  {
    if scores == [] then [] else [scores[0].act] + Keys(scores[1..])
  }

  /** The overall score: 0 when no act was scored, the single act's score when
      one was, and otherwise the arithmetic mean of the act scores. */
  function OverallScore(scores: seq<ActScore>): real
  {
    if |scores| == 0 then 0.0
    else if |scores| == 1 then scores[0].card.score as real
    else SumScores(scores) as real / |scores| as real
  }

  function SumScores(scores: seq<ActScore>): int
  {
    if scores == [] then 0 else scores[0].card.score + SumScores(scores[1..])
  }

  /** The act scores of the partial results that came back, wages first. */
  function ScoresOf(wages: Option<PartialResult>, safety: Option<PartialResult>): seq<ActScore>
  {
    (if wages.Some? then [ActScore(WagesAct, CardOf(wages.value))] else [])
    + (if safety.Some? then [ActScore(SafetyAct, CardOf(safety.value))] else [])
  }

  /** The rounded overall score: none, one score, or the mean of two, which
      rounding to two places leaves as it is. */
  lemma RoundedOverall(wages: Option<PartialResult>, safety: Option<PartialResult>)
    ensures var r := PyRound2(OverallScore(ScoresOf(wages, safety)));
      && (wages.None? && safety.None? ==> r == 0.0)
      && (wages.Some? && safety.None? ==> r == wages.value.score as real)
      && (wages.None? && safety.Some? ==> r == safety.value.score as real)
      && (wages.Some? && safety.Some? ==> r == (wages.value.score + safety.value.score) as real / 2.0)
  {
    var scores := ScoresOf(wages, safety);
    if |scores| == 2 {
      assert SumScores(scores[1..][1..]) == 0;
      assert SumScores(scores[1..]) == scores[1].card.score;
      PyRound2OfHalves(SumScores(scores));
    } else {
      PyRound2OfHalves(2 * (if scores == [] then 0 else scores[0].card.score));
    }
  }

  /** `synthesize_results`: folds the (at most two) partial results into one
      report, wages first and safety second. */
  method SynthesizeResults(meta: BatchMeta, wages: Option<PartialResult>, safety: Option<PartialResult>)
    returns (report: UnifiedReport)
    ensures report.meta == meta
    ensures report.findings == FindingsOf(wages) + FindingsOf(safety)
    ensures report.totalFindings == |FindingsOf(wages)| + |FindingsOf(safety)|
    ensures report.critical == CriticalOf(wages) + CriticalOf(safety)
    ensures report.high == HighOf(wages) + HighOf(safety)
    ensures report.medium == MediumOf(wages) + MediumOf(safety)
    ensures report.low == LowOf(wages) + LowOf(safety)
    ensures Distinct(report.recommendations)
    ensures forall x :: x in report.recommendations <==> x in RecommendationsOf(wages) + RecommendationsOf(safety)
    ensures report.actScores ==
      (if wages.Some? then [ActScore(WagesAct, CardOf(wages.value))] else [])
      + (if safety.Some? then [ActScore(SafetyAct, CardOf(safety.value))] else [])
    ensures report.agentsInvoked == Keys(report.actScores)
    ensures report.agentsInvoked ==
      (if wages.Some? then [WagesAct] else []) + (if safety.Some? then [SafetyAct] else [])
    ensures wages.None? && safety.None? ==> report.overallScore == 0.0
    ensures wages.Some? && safety.None? ==> report.overallScore == wages.value.score as real
    ensures wages.None? && safety.Some? ==> report.overallScore == safety.value.score as real
    ensures wages.Some? && safety.Some? ==>
      report.overallScore == (wages.value.score + safety.value.score) as real / 2.0
  {
    var actScores: seq<ActScore> := [];
    var allFindings: seq<Finding> := [];
    var allRecommendations: seq<string> := [];
    var totalCritical, totalHigh, totalMedium, totalLow := 0, 0, 0, 0;

    if wages.Some? {
      var w := wages.value;
      actScores := actScores + [ActScore(WagesAct, CardOf(w))];
      allFindings := allFindings + w.findings;
      allRecommendations := allRecommendations + w.recommendations;
      totalCritical := totalCritical + w.critical;
      totalHigh := totalHigh + w.high;
      totalMedium := totalMedium + w.medium;
      totalLow := totalLow + w.low;
    }

    if safety.Some? {
      var s := safety.value;
      actScores := actScores + [ActScore(SafetyAct, CardOf(s))];
      allFindings := allFindings + s.findings;
      allRecommendations := allRecommendations + s.recommendations;
      totalCritical := totalCritical + s.critical;
      totalHigh := totalHigh + s.high;
      totalMedium := totalMedium + s.medium;
      totalLow := totalLow + s.low;
    }

    var overall := OverallScore(actScores);
    assert actScores == ScoresOf(wages, safety);
    RoundedOverall(wages, safety);

    report := UnifiedReport(
      meta,
      actScores,
      PyRound2(overall),
      |allFindings|,
      totalCritical, totalHigh, totalMedium, totalLow,
      allFindings,
      Dedup(allRecommendations),
      Keys(actScores));
  }

  /** The overall score of two act scores is their unweighted mean: 80 and 40
      give 60, whatever the number of items behind each. */
  lemma OverallScoreUnweighted(a: ScoreCard, b: ScoreCard)
    requires a.score == 80 && b.score == 40
    ensures OverallScore([ActScore(WagesAct, a), ActScore(SafetyAct, b)]) == 60.0
  {
    var scores := [ActScore(WagesAct, a), ActScore(SafetyAct, b)];
    assert SumScores(scores[1..][1..]) == 0;
    assert SumScores(scores[1..]) == 40;
  }

  // ---------------------------------------------------------------------------
  // Orchestration
  // ---------------------------------------------------------------------------

  function ContextOf(meta: BatchMeta): Context
  {
    Context(meta.batchId, meta.companyName, meta.location)
  }

  /** `batch_data.get('audit_items', [])`. */
  function ItemsOf(batch: BatchData): seq<RawItem>
  {
    match batch.auditItems
    case Some(items) => items
    case None => []
  }

  /** `run_master_audit`: partition, invoke each specialist whose bucket is not
      empty, synthesize. Items of the "other" bucket are never passed on, so
      they do not appear in the report. */
  method RunMasterAudit(batch: BatchData) returns (report: UnifiedReport)
    requires IdsReadable(ItemsOf(batch))
    ensures report.meta == batch.meta
    ensures report.findings ==
      MockFindings(BucketItems(ItemsOf(batch), Wages), ContextOf(batch.meta))
      + MockFindings(BucketItems(ItemsOf(batch), Safety), ContextOf(batch.meta))
    ensures report.totalFindings + |BucketItems(ItemsOf(batch), Other)| == |ItemsOf(batch)|
    ensures report.agentsInvoked ==
      (if BucketItems(ItemsOf(batch), Wages) != [] then [WagesAct] else [])
      + (if BucketItems(ItemsOf(batch), Safety) != [] then [SafetyAct] else [])
    ensures 0.0 <= report.overallScore <= 100.0
  {
    var items := ItemsOf(batch);
    var partitions := PartitionAuditItems(items);
    var context := ContextOf(batch.meta);

    var wagesResults: Option<PartialResult> := None;
    var safetyResults: Option<PartialResult> := None;
    if partitions.wages != [] {
      wagesResults := InvokeSpecialistAgent("wages_expert", partitions.wages, context);
    }
    if partitions.safety != [] {
      safetyResults := InvokeSpecialistAgent("safety_expert", partitions.safety, context);
    }

    assert FindingsOf(wagesResults) == MockFindings(partitions.wages, context);
    assert FindingsOf(safetyResults) == MockFindings(partitions.safety, context);
    report := SynthesizeResults(batch.meta, wagesResults, safetyResults);
    PartitionCovers(items);
  }
}
