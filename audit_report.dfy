/** The figures and badge colours of the AI audit report page
    (src/components/AuditReport.jsx). The page reads the same
    `audit_agent_submissions` rows as the session report. */
module AuditReport {
  import opened Common
  import opened ReportService

  // ---------------------------------------------------------------------------
  // Summary statistics
  // ---------------------------------------------------------------------------

  datatype Stats = Stats(complianceScore: int, criticalIssues: nat, aiConfidence: int, totalItems: nat)

  /** A critical row whose AI score is present and below 50. */
  function IsCriticalIssue(): Submission -> bool
  {
    (x: Submission) => x.riskLevel == "Critical" && x.aiScore.Some? && x.aiScore.value < 50
  }

  /** `calculateStats`: the rounded mean AI score (also shown as the AI
      confidence), the critical rows scored below 50, and the number of rows.
      A missing result list is shown as an empty one. */
  function CalculateStats(aiResults: seq<Submission>): (r: Stats)
    ensures r.totalItems == |aiResults|
    ensures r.aiConfidence == r.complianceScore
    ensures r.criticalIssues == Count(aiResults, IsCriticalIssue())
    ensures aiResults != [] ==> r.complianceScore == MeanScore(aiResults)
    ensures aiResults == [] ==> r == Stats(0, 0, 0, 0)
  {
    if aiResults == [] then Stats(0, 0, 0, 0)
    else
      var score := MeanScore(aiResults);
      Stats(score, Count(aiResults, IsCriticalIssue()), score, |aiResults|)
  }

  /** Only scored rows can be critical issues, so there are at most as many
      critical issues as scored rows, and at most as many as rows. */
  lemma CriticalIssuesBounded(aiResults: seq<Submission>)
    ensures CalculateStats(aiResults).criticalIssues <= Count(aiResults, HasScore())
    ensures CalculateStats(aiResults).criticalIssues <= CalculateStats(aiResults).totalItems
  {
    CountMono(aiResults, IsCriticalIssue(), HasScore());
  }

  /** The compliance score is the rounded mean of the present AI scores (0
      without any), and lies within [0, 100] when they all do. */
  lemma ComplianceScoreMeaning(aiResults: seq<Submission>)
    requires forall i :: 0 <= i < |aiResults| && aiResults[i].aiScore.Some? ==> 0 <= aiResults[i].aiScore.value <= 100
    ensures CalculateStats(aiResults).complianceScore == MeanScore(aiResults)
    ensures 0 <= CalculateStats(aiResults).complianceScore <= 100
  {
    MeanScoreBounds(aiResults);
  }

  // ---------------------------------------------------------------------------
  // Colour bands
  // ---------------------------------------------------------------------------

  /** The four bands `getScoreColor` paints a score in, lowest first. */
  datatype Band = Red | Orange | Yellow | Green

  function BandRank(b: Band): nat
  {
    match b
    case Red => 0
    case Orange => 1
    case Yellow => 2
    case Green => 3
  }

  function ScoreBand(score: int): (b: Band)
    ensures b == Green <==> score >= 80
    ensures b == Yellow <==> 60 <= score < 80
    ensures b == Orange <==> 40 <= score < 60
    ensures b == Red <==> score < 40
  {
    if score >= 80 then Green
    else if score >= 60 then Yellow
    else if score >= 40 then Orange
    else Red
  }

  function BandClass(b: Band): string
  {
    match b
    case Green => "bg-green-500"
    case Yellow => "bg-yellow-500"
    case Orange => "bg-orange-500"
    case Red => "bg-red-500"
  }

  /** `getScoreColor`. */
  function ScoreColor(score: int): string
  {
    BandClass(ScoreBand(score))
  }

  /** A higher score never gets a lower band. */
  lemma ScoreBandMonotone(a: int, b: int)
    requires a <= b
    ensures BandRank(ScoreBand(a)) <= BandRank(ScoreBand(b))
  {
  }

  /** Different bands are painted differently. */
  lemma BandClassInjective(a: Band, b: Band)
    requires BandClass(a) == BandClass(b)
    ensures a == b
  {
    assert BandClass(a)[3] == BandClass(b)[3];
  }

  datatype Confidence = Low | Medium | High

  /** The AI confidence label: High from 80, Medium from 60, Low below. */
  function ConfidenceLabel(confidence: int): (c: Confidence)
    ensures c == High <==> confidence >= 80
    ensures c == Medium <==> 60 <= confidence < 80
    ensures c == Low <==> confidence < 60
  {
    if confidence >= 80 then High else if confidence >= 60 then Medium else Low
  }

  /** The confidence label and the score bar agree: High exactly on green,
      Medium exactly on yellow. */
  lemma LabelMatchesBand(score: int)
    ensures ConfidenceLabel(score) == High <==> ScoreBand(score) == Green
    ensures ConfidenceLabel(score) == Medium <==> ScoreBand(score) == Yellow
  {
  }

  /** The risk badge classes. */
  datatype RiskBadge = RedBadge | OrangeBadge | YellowBadge | GreenBadge

  /** `getRiskColor`: compares the lower-cased level; a missing or unknown
      level is green. */
  function RiskColor(riskLevel: Option<string>): (r: RiskBadge)
    ensures riskLevel.None? ==> r == GreenBadge
    ensures riskLevel.Some? ==>
      && (r == RedBadge <==> Lower(riskLevel.value) == "critical")
      && (r == OrangeBadge <==> Lower(riskLevel.value) == "high")
      && (r == YellowBadge <==> Lower(riskLevel.value) == "medium")
  {
    if riskLevel.None? then GreenBadge
    else
      var level := Lower(riskLevel.value);
      if level == "critical" then RedBadge
      else if level == "high" then OrangeBadge
      else if level == "medium" then YellowBadge
      else GreenBadge
  }

  function RiskBadgeClass(b: RiskBadge): string
  {
    match b
    case RedBadge => "bg-red-100 text-red-800 border-red-200"
    case OrangeBadge => "bg-orange-100 text-orange-800 border-orange-200"
    case YellowBadge => "bg-yellow-100 text-yellow-800 border-yellow-200"
    case GreenBadge => "bg-green-100 text-green-800 border-green-200"
  }

  /** The risk badge ignores letter case. */
  lemma RiskColorIgnoresCase(level: string)
    ensures RiskColor(Some(level)) == RiskColor(Some(Lower(level)))
  {
    LowerIdempotent(level);
  }

  /** The category badge classes. `Inherited` is what the lookup returns for
      a name the object inherits from `Object.prototype` (`constructor`,
      `__proto__`): a truthy non-string, so it is not replaced by gray. */
  datatype CategoryBadge = Emerald | Blue | Purple | Pink | Indigo | Gray | Inherited

  /** The lower-case keys every plain JavaScript object inherits. */
  predicate IsInheritedKey(key: string)
  {
    key == "constructor" || key == "__proto__"
  }

  /** `getCategoryColor`: a lookup of the lower-cased category in a plain
      object of five known ones, falling back to gray when the lookup is
      falsy. A missing category looks up `undefined`, which is not a key. */
  function CategoryColor(category: Option<string>): (r: CategoryBadge)
    ensures category.None? ==> r == Gray
    ensures category.Some? ==>
      && (r == Emerald <==> Lower(category.value) == "environment")
      && (r == Blue <==> Lower(category.value) == "safety")
      && (r == Purple <==> Lower(category.value) == "compliance")
      && (r == Pink <==> Lower(category.value) == "labour")
      && (r == Indigo <==> Lower(category.value) == "documentation")
      && (r == Inherited <==> IsInheritedKey(Lower(category.value)))
      && (r == Gray <==> Lower(category.value) !in KnownCategories && !IsInheritedKey(Lower(category.value)))
  {
    if category.None? then Gray
    else
      match Lower(category.value)
      case "environment" => Emerald
      case "safety" => Blue
      case "compliance" => Purple
      case "labour" => Pink
      case "documentation" => Indigo
      case "constructor" => Inherited
      case "__proto__" => Inherited
      case _ => Gray
  }

  const KnownCategories: set<string> := {"environment", "safety", "compliance", "labour", "documentation"}

  /** The category badge ignores letter case. */
  lemma CategoryColorIgnoresCase(category: string)
    ensures CategoryColor(Some(category)) == CategoryColor(Some(Lower(category)))
  {
    LowerIdempotent(category);
  }
}
