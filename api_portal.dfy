/** The routing API of src/api_portal.py: each audit item is routed by its
    category and identifier to a specialist agent (only the environment agent
    is active), and a batch of items is routed one by one and aggregated into
    compliance metrics. The environment agent itself is outside this model and
    is passed in as a function from request payload to response. */
module ApiPortal {
  import opened Common

  // ---------------------------------------------------------------------------
  // Data model
  // ---------------------------------------------------------------------------

  /** The fields of an `AuditItem` request record that routing reads. */
  datatype AuditItem = AuditItem(
    auditItemId: string,
    questionText: string,
    legalText: string,
    riskLevel: string,
    category: string,
    evidenceUrl: Option<string>,
    internEvidence: Option<string>)

  datatype Agent = EnvironmentAgent | WagesAgent | SafetyAgent | Unknown | Error

  /** The agent name as it appears in responses. */
  function AgentName(a: Agent): string
  {
    match a
    case EnvironmentAgent => "EnvironmentAgent"
    case WagesAgent => "WagesAgent"
    case SafetyAgent => "SafetyAgent"
    case Unknown => "Unknown"
    case Error => "Error"
  }

  /** The `audit_queue` payload sent to the environment agent. */
  datatype AgentPayload = AgentPayload(
    auditItemId: string,
    query: string,
    evidenceText: string,
    legalText: string,
    riskLevel: string)

  /** The keys of an agent's final report that the batch aggregation reads:
      `compliance_verdict` (absent or `None` as `None`) and `recommendations`
      (`None` when the key is absent). */
  datatype Report = Report(complianceVerdict: Option<string>, recommendations: Option<seq<string>>)

  /** What calling the environment agent yields: an exception with its message,
      or a response dict with its `status`, `final_report` and `error` keys. */
  datatype AgentResponse =
    | Raised(message: string)
    | Returned(status: Option<string>, finalReport: Option<Report>, error: Option<string>)

  /** The analysis attached to a routed item: the agent's final report, `None`
      (a successful response without a final report), or an error dict whose
      `audit_item_id` key is absent when `auditItemId` is `None`. */
  datatype Analysis =
    | FinalReport(report: Report)
    | NoReport
    | ErrorDict(error: Option<string>, auditItemId: Option<string>)

  datatype Routed = Routed(agent: Agent, analysis: Analysis)

  // ---------------------------------------------------------------------------
  // Routing
  // ---------------------------------------------------------------------------

  const EnvironmentKeyword: string := "environment"
  const EnvironmentIdPrefix: string := "ACT-RULE"

  /** `should_route_to_environment_agent`. */
  predicate ShouldRouteToEnvironmentAgent(item: AuditItem)
  {
    Contains(Lower(item.category), EnvironmentKeyword) || StartsWith(item.auditItemId, EnvironmentIdPrefix)
  }

  /** An item goes to the environment agent exactly when "environment" occurs
      somewhere in its lower-cased category or its identifier starts with
      "ACT-RULE". */
  lemma EnvironmentRoutingRule(item: AuditItem)
    ensures (exists k :: OccursAt(Lower(item.category), EnvironmentKeyword, k)) ==> ShouldRouteToEnvironmentAgent(item)
    ensures StartsWith(item.auditItemId, EnvironmentIdPrefix) ==> ShouldRouteToEnvironmentAgent(item)
    ensures ShouldRouteToEnvironmentAgent(item) ==>
      (exists k :: OccursAt(Lower(item.category), EnvironmentKeyword, k))
      || StartsWith(item.auditItemId, EnvironmentIdPrefix)
  {
    var c := Lower(item.category);
    ContainsAt(c, EnvironmentKeyword);
    if ShouldRouteToEnvironmentAgent(item) && !StartsWith(item.auditItemId, EnvironmentIdPrefix) {
      assert Contains(c, EnvironmentKeyword);
      var k :| OccursAt(c, EnvironmentKeyword, k);
      assert exists k :: OccursAt(Lower(item.category), EnvironmentKeyword, k);
    }
  }

  /** `should_route_to_wages_agent`: the wages route is switched off. */
  function ShouldRouteToWagesAgent(item: AuditItem): (r: bool)
    ensures !r
  {
    false
  }

  /** `should_route_to_safety_agent`: the safety route is switched off. */
  function ShouldRouteToSafetyAgent(item: AuditItem): (r: bool)
    ensures !r
  {
    false
  }

  /** `x or ''` for an optional string. */
  function OrEmpty(s: Option<string>): string
  {
    match s
    case Some(x) => x
    case None => ""
  }

  /** The payload's `evidence_text`: the intern's evidence and the evidence URL
      joined by one space, then stripped. */
  function EvidenceText(item: AuditItem): string
  {
    Strip(OrEmpty(item.internEvidence) + " " + OrEmpty(item.evidenceUrl))
  }

  /** With both parts given and free of outer whitespace, the evidence text is
      the two parts separated by exactly one space. */
  lemma EvidenceTextBoth(item: AuditItem, evidence: string, url: string)
    requires item.internEvidence == Some(evidence) && item.evidenceUrl == Some(url)
    requires evidence != [] && !IsSpace(evidence[0]) && !IsSpace(evidence[|evidence| - 1])
    requires url != [] && !IsSpace(url[0]) && !IsSpace(url[|url| - 1])
    ensures EvidenceText(item) == evidence + " " + url
  {
    StripClean(evidence + " " + url);
  }

  /** With only one part given (the other absent), the evidence text is that
      part with its outer whitespace removed: the joining space disappears. */
  lemma EvidenceTextOne(item: AuditItem, part: string)
    requires (item.internEvidence == Some(part) && item.evidenceUrl == None)
          || (item.internEvidence == None && item.evidenceUrl == Some(part))
    ensures EvidenceText(item) == Strip(part)
  {
    if item.evidenceUrl == None {
      assert OrEmpty(item.internEvidence) + " " + OrEmpty(item.evidenceUrl) == part + " ";
      StripSpaceEnd(part);
    } else {
      assert OrEmpty(item.internEvidence) + " " + OrEmpty(item.evidenceUrl) == " " + part;
      StripSpaceStart(part);
    }
  }

  lemma {:induction false} StripSpaceEnd(s: string)
    ensures Strip(s + " ") == Strip(s)
  {
    TrimStartSpaceEnd(s);
    var t := TrimStart(s);
    assert (t + " ")[..|t + " "| - 1] == t;
  }

  lemma {:induction false} TrimStartSpaceEnd(s: string)
    ensures TrimStart(s + " ") == if TrimStart(s) == [] then [] else TrimStart(s) + " "
    decreases |s|
  {
    if s == [] {
      assert TrimStart([' ']) == TrimStart([]);
    } else {
      var s' := s + " ";
      assert s'[0] == s[0] && s'[1..] == s[1..] + " ";
      if IsSpace(s[0]) {
        assert TrimStart(s') == TrimStart(s[1..] + " ");
        assert TrimStart(s) == TrimStart(s[1..]);
        TrimStartSpaceEnd(s[1..]);
      } else {
        assert TrimStart(s') == s' && TrimStart(s) == s;
      }
    }
  }

  lemma {:induction false} StripSpaceStart(s: string)
    ensures Strip(" " + s) == Strip(s)
  {
    assert (" " + s)[1..] == s;
  }

  function PayloadOf(item: AuditItem): AgentPayload
  {
    AgentPayload(item.auditItemId, item.questionText, EvidenceText(item), item.legalText, item.riskLevel)
  }

  function UnknownMessage(item: AuditItem): string
  {
    "No agent available for category '" + item.category + "' or ID '" + item.auditItemId + "'"
  }

  const WagesDeprecated: string := "WagesAgent is deprecated for this phase"
  const SafetyDeprecated: string := "SafetyAgent is deprecated for this phase"

  /** `route_audit_item`, with the environment agent passed in as `analyze`. */
  function RouteAuditItem(item: AuditItem, analyze: AgentPayload -> AgentResponse): (r: Routed)
    ensures r.agent == EnvironmentAgent || r.agent == Unknown || r.agent == Error
    ensures r.agent == Unknown <==> !ShouldRouteToEnvironmentAgent(item)
    ensures r.agent == Error <==> ShouldRouteToEnvironmentAgent(item) && analyze(PayloadOf(item)).Raised?
    ensures r.agent != EnvironmentAgent ==> r.analysis.ErrorDict? && r.analysis.auditItemId == Some(item.auditItemId)
    ensures r.agent == EnvironmentAgent ==>
      (r.analysis.ErrorDict? <==> analyze(PayloadOf(item)).status != Some("success"))
      && (r.analysis.ErrorDict? ==> r.analysis == ErrorDict(analyze(PayloadOf(item)).error, None))
      && (r.analysis.FinalReport? ==> analyze(PayloadOf(item)).finalReport == Some(r.analysis.report))
      && (r.analysis.NoReport? ==> analyze(PayloadOf(item)).finalReport == None)
  {
    if ShouldRouteToEnvironmentAgent(item) then
      match analyze(PayloadOf(item))
      case Raised(message) => Routed(Error, ErrorDict(Some(message), Some(item.auditItemId)))
      case Returned(status, finalReport, error) =>
        if status == Some("success") then
          Routed(EnvironmentAgent, match finalReport case Some(rep) => FinalReport(rep) case None => NoReport)
        else
          Routed(EnvironmentAgent, ErrorDict(error, None))
    else if ShouldRouteToWagesAgent(item) then
      Routed(WagesAgent, ErrorDict(Some(WagesDeprecated), None))
    else if ShouldRouteToSafetyAgent(item) then
      Routed(SafetyAgent, ErrorDict(Some(SafetyDeprecated), None))
    else
      Routed(Unknown, ErrorDict(Some(UnknownMessage(item)), Some(item.auditItemId)))
  }

  // ---------------------------------------------------------------------------
  // Batch submission
  // ---------------------------------------------------------------------------

  datatype BatchRequest = BatchRequest(
    batchId: string,
    sessionId: string,
    companyName: string,
    location: string,
    submittedAt: string,
    auditItems: seq<AuditItem>)

  /** One entry of `analysis_results`. */
  datatype AnalysisResult = AnalysisResult(
    auditItemId: string,
    questionText: string,
    riskLevel: string,
    agent: Agent,
    analysis: Analysis)

  /** One entry of the `items_routed` dict, in insertion order. */
  datatype RouteCount = RouteCount(agent: Agent, count: nat)

  datatype BatchResponse = BatchResponse(
    status: string,
    batchId: string,
    sessionId: string,
    companyName: string,
    location: string,
    agentsInvoked: seq<string>,
    itemsRouted: seq<RouteCount>,
    totalItemsAnalyzed: nat,
    compliantItems: nat,
    nonCompliantItems: nat,
    needsReviewItems: nat,
    overallComplianceScore: real,
    criticalFindings: nat,
    highRiskFindings: nat,
    analysisResults: seq<AnalysisResult>,
    recommendations: seq<string>)

  /** The endpoint either completes or turns an exception into HTTP 500. */
  datatype BatchOutcome = Completed(response: BatchResponse) | InternalServerError

  /** One `analysis_results` entry: the item's identifier, question and risk
      level with the agent it was routed to and that agent's analysis. */
  function ResultRecord(item: AuditItem, analyze: AgentPayload -> AgentResponse): AnalysisResult
  {
    var routed := RouteAuditItem(item, analyze);
    AnalysisResult(item.auditItemId, item.questionText, item.riskLevel, routed.agent, routed.analysis)
  }

  // --- items_routed ----------------------------------------------------------

  /** `items_by_agent.get(agent, 0)`. */
  function CountFor(counts: seq<RouteCount>, a: Agent): nat
  {
    if counts == [] then 0
    else if counts[0].agent == a then counts[0].count
    else CountFor(counts[1..], a)
  }

  function Total(counts: seq<RouteCount>): nat
  {
    if counts == [] then 0 else counts[0].count + Total(counts[1..])
  }

  /** The keys of the `items_routed` dict, in dict order. */
  function KeyAgents(counts: seq<RouteCount>): (r: seq<Agent>)
    ensures |r| == |counts| && forall k :: 0 <= k < |counts| ==> r[k] == counts[k].agent
  {
    if counts == [] then [] else [counts[0].agent] + KeyAgents(counts[1..])
  }

  /** `items_by_agent[agent] = items_by_agent.get(agent, 0) + 1`: the count of
      `a` goes up by one and every other count stays; a key already present
      keeps its place and a new key goes at the end, as in a Python dict. */
  function Bump(counts: seq<RouteCount>, a: Agent): (r: seq<RouteCount>)
    ensures KeyAgents(r) == if a in KeyAgents(counts) then KeyAgents(counts) else KeyAgents(counts) + [a]
    ensures forall b :: CountFor(r, b) == CountFor(counts, b) + (if a == b then 1 else 0)
    ensures Total(r) == Total(counts) + 1
  {
    if counts == [] then
      [RouteCount(a, 1)]
    else if counts[0].agent == a then
      [RouteCount(a, counts[0].count + 1)] + counts[1..]
    else
      var rest := Bump(counts[1..], a);
      var r := [counts[0]] + rest;
      assert r[1..] == rest;
      r
  }

  /** How many of the routed results went to agent `a`. */
  function RoutedTo(results: seq<AnalysisResult>, a: Agent): nat
  {
    if results == [] then 0
    else RoutedTo(results[..|results| - 1], a) + (if results[|results| - 1].agent == a then 1 else 0)
  }

  // --- agents_invoked ----------------------------------------------------------

  /** Position of an agent's name in sorted order. */
  function Rank(a: Agent): nat
  {
    match a
    case EnvironmentAgent => 0
    case Error => 1
    case SafetyAgent => 2
    case Unknown => 3
    case WagesAgent => 4
  }

  function AgentOfRank(k: nat): Agent
    requires k < 5
  {
    if k == 0 then EnvironmentAgent
    else if k == 1 then Error
    else if k == 2 then SafetyAgent
    else if k == 3 then Unknown
    else WagesAgent
  }

  /** The rank order is the order of the agents' names under Python's string
      comparison. */
  lemma RankIsNameOrder(a: Agent, b: Agent)
    requires Rank(a) < Rank(b)
    ensures LexLess(AgentName(a), AgentName(b))
  {
  }

  /** The agents of `s` whose rank is at least `k`, in rank order. */
  function AgentsFrom(s: set<Agent>, k: nat): (r: seq<Agent>)
    ensures forall i, j :: 0 <= i < j < |r| ==> Rank(r[i]) < Rank(r[j])
    ensures forall a :: a in r <==> a in s && Rank(a) >= k
    decreases 5 - k
  {
    if k >= 5 then [] else
      var rest := AgentsFrom(s, k + 1);
      assert forall a :: Rank(a) >= k <==> Rank(a) == k || Rank(a) >= k + 1;
      assert forall a :: Rank(a) == k <==> a == AgentOfRank(k);
      if AgentOfRank(k) in s then [AgentOfRank(k)] + rest else rest
  }

  function Names(agents: seq<Agent>): (r: seq<string>)
    ensures |r| == |agents|
    ensures forall i :: 0 <= i < |agents| ==> r[i] == AgentName(agents[i])
  {
    if agents == [] then [] else [AgentName(agents[0])] + Names(agents[1..])
  }

  /** Names of agents in rank order are in Python's string order. */
  lemma NamesInOrder(agents: seq<Agent>)
    requires forall i, j :: 0 <= i < j < |agents| ==> Rank(agents[i]) < Rank(agents[j])
    ensures forall i, j :: 0 <= i < j < |Names(agents)| ==> LexLess(Names(agents)[i], Names(agents)[j])
  {
    forall i, j | 0 <= i < j < |agents| ensures LexLess(Names(agents)[i], Names(agents)[j]) {
      RankIsNameOrder(agents[i], agents[j]);
    }
  }

  /** An agent's name is listed exactly when the agent is. */
  lemma NamesMembers(agents: seq<Agent>)
    ensures forall a :: AgentName(a) in Names(agents) <==> a in agents
  {
    var r := Names(agents);
    forall a | AgentName(a) in r ensures a in agents {
      var i :| 0 <= i < |r| && r[i] == AgentName(a);
      NameInjective(agents[i], a);
    }
  }

  /** `sorted(list(agents_invoked))`: one name per agent of the set, and
      nothing else, in Python's string order. */
  function SortedAgentNames(s: set<Agent>): (r: seq<string>)
    ensures forall i, j :: 0 <= i < j < |r| ==> LexLess(r[i], r[j])
    ensures forall a :: AgentName(a) in r <==> a in s
    ensures forall x :: x in r ==> exists a :: a in s && x == AgentName(a)
    ensures |r| == |s|
  {
    var agents := AgentsFrom(s, 0);
    NamesInOrder(agents);
    NamesMembers(agents);
    AgentsFromAll(s);
    NamesOnlyOf(agents, s);
    Names(agents)
  }

  /** The names of agents drawn from `s` are names of agents of `s`. */
  lemma NamesOnlyOf(agents: seq<Agent>, s: set<Agent>)
    requires forall a :: a in agents ==> a in s
    ensures forall x :: x in Names(agents) ==> exists a :: a in s && x == AgentName(a)
  {
    forall x | x in Names(agents) ensures exists a :: a in s && x == AgentName(a) {
      var i :| 0 <= i < |agents| && Names(agents)[i] == x;
      assert agents[i] in s;
    }
  }

  /** Listing the agents of `s` from rank 0 lists each of them once. */
  lemma AgentsFromAll(s: set<Agent>)
    ensures |AgentsFrom(s, 0)| == |s|
  {
    var agents := AgentsFrom(s, 0);
    assert Distinct(agents) by {
      forall i, j | 0 <= i < j < |agents| ensures agents[i] != agents[j] {
        assert Rank(agents[i]) < Rank(agents[j]);
      }
    }
    DistinctCard(agents);
    assert (set x | x in agents) == s;
  }

  lemma NameInjective(a: Agent, b: Agent)
    requires AgentName(a) == AgentName(b)
    ensures a == b
  {
    assert AgentName(a)[0] == AgentName(b)[0];
    if AgentName(a)[0] == 'E' {
      assert AgentName(a)[1] == AgentName(b)[1];
    }
  }

  /** Strictly sorted names are pairwise distinct. */
  lemma SortedNamesDistinct(s: set<Agent>)
    ensures Distinct(SortedAgentNames(s))
  {
    var r := SortedAgentNames(s);
    forall i, j | 0 <= i < j < |r| ensures r[i] != r[j] {
      LexLessIrreflexive(r[i], r[j]);
    }
  }

  lemma {:induction false} LexLessIrreflexive(a: string, b: string)
    requires LexLess(a, b)
    ensures a != b
    decreases |a|
  {
    if a != [] && a == b {
      LexLessIrreflexive(a[1..], b[1..]);
    }
  }

  // --- verdict metrics -------------------------------------------------------

  /** `r["analysis"].get("compliance_verdict")` of an analysis that is a dict. */
  function VerdictOf(r: AnalysisResult): Option<string>
  {
    match r.analysis
    case FinalReport(rep) => rep.complianceVerdict
    case _ => None
  }

  function HasVerdict(v: string): AnalysisResult -> bool
  {
    (r: AnalysisResult) => VerdictOf(r) == Some(v)
  }

  function IsFinding(level: string): AnalysisResult -> bool
  {
    (r: AnalysisResult) => r.riskLevel == level && VerdictOf(r) == Some("Non-Compliant")
  }

  function IsNoReport(r: AnalysisResult): bool
  {
    r.analysis.NoReport?
  }

  /** The three verdict counts never exceed the number of results, and each
      severity count is bounded by the non-compliant count. */
  lemma VerdictCountsBounded(results: seq<AnalysisResult>)
    ensures Count(results, HasVerdict("Compliant")) + Count(results, HasVerdict("Non-Compliant"))
            + Count(results, HasVerdict("Needs Review")) <= |results|
    ensures Count(results, IsFinding("Critical")) + Count(results, IsFinding("High"))
            <= Count(results, HasVerdict("Non-Compliant"))
  {
    var cn := (r: AnalysisResult) => VerdictOf(r) == Some("Compliant") || VerdictOf(r) == Some("Non-Compliant");
    var cnr := (r: AnalysisResult) => cn(r) || VerdictOf(r) == Some("Needs Review");
    CountDisjoint(results, HasVerdict("Compliant"), HasVerdict("Non-Compliant"), cn);
    CountDisjoint(results, cn, HasVerdict("Needs Review"), cnr);
    var ch := (r: AnalysisResult) => (r.riskLevel == "Critical" || r.riskLevel == "High") && VerdictOf(r) == Some("Non-Compliant");
    CountDisjoint(results, IsFinding("Critical"), IsFinding("High"), ch);
    CountMono(results, ch, HasVerdict("Non-Compliant"));
  }

  // --- recommendations -------------------------------------------------------

  /** The `recommendations` list of an analysis that has that key. */
  function RecommendationsOf(r: AnalysisResult): seq<string>
  {
    match r.analysis
    case FinalReport(Report(_, Some(recs))) => recs
    case _ => []
  }

  function AllRecommendations(results: seq<AnalysisResult>): seq<string>
  {
    if results == [] then []
    else AllRecommendations(results[..|results| - 1]) + RecommendationsOf(results[|results| - 1])
  }

  const MaxRecommendations: nat := 10

  /** `list(set(all))[:10]`. Set iteration order is unspecified in Python, so
      the contract only says which recommendations may appear and how many. */
  function CappedRecommendations(all: seq<string>): (r: seq<string>)
    ensures Distinct(r)
    ensures |r| <= MaxRecommendations
    ensures forall x :: x in r ==> x in all
    ensures |r| == Min(MaxRecommendations, |set x | x in all|)
    ensures |set x | x in all| <= MaxRecommendations ==> forall x :: x in all ==> x in r
  {
    var d := Dedup(all);
    DistinctCard(d);
    assert (set x | x in d) == (set x | x in all);
    var r := d[..Min(MaxRecommendations, |d|)];
    assert forall i, j :: 0 <= i < j < |r| ==> r[i] == d[i] && r[j] == d[j];
    r
  }

  /** The agent of each routed result, in order. */
  function AgentsOf(results: seq<AnalysisResult>): (r: seq<Agent>)
    ensures |r| == |results| && forall q :: 0 <= q < |results| ==> r[q] == results[q].agent
  {
    seq(|results|, q requires 0 <= q < |results| => results[q].agent)
  }

  /** The `items_routed` dict agrees with the routed results: for every agent
      the number of results routed to it, counts that add up to the number of
      results, one key for each agent routed to and no other, and the keys in
      the order their agents were first routed to (a Python dict keeps its
      keys in insertion order). */
  ghost predicate CountsMatch(counts: seq<RouteCount>, results: seq<AnalysisResult>)
  {
    && (forall a :: CountFor(counts, a) == RoutedTo(results, a))
    && Total(counts) == |results|
    && Distinct(KeyAgents(counts))
    && (forall a :: a in KeyAgents(counts) <==> RoutedTo(results, a) > 0)
    && KeyAgents(counts) == FirstOccurrences(AgentsOf(results))
  }

  /** The dict's keys are in routing order: every result routed to a later
      key comes after some result routed to each earlier key. */
  lemma RoutedKeysInOrder(counts: seq<RouteCount>, results: seq<AnalysisResult>, k: nat, l: nat, q: nat)
    requires CountsMatch(counts, results)
    requires k < l < |counts| && q < |results| && results[q].agent == counts[l].agent
    ensures exists p :: 0 <= p < q && results[p].agent == counts[k].agent
  {
    var s := AgentsOf(results);
    FirstOccurrencesOrder(s, k, l, q);
    var p :| 0 <= p < q && s[p] == FirstOccurrences(s)[k];
    assert results[p].agent == counts[k].agent;
  }

  /** The state of the routing loop agrees with the results so far: the
      per-agent counts match and the agents used are those routed to. */
  ghost predicate RoutingState(results: seq<AnalysisResult>, agents: set<Agent>, counts: seq<RouteCount>)
  {
    && CountsMatch(counts, results)
    && forall a :: a in agents <==> RoutedTo(results, a) > 0
  }

  /** One more routed result adds one to its agent's tally only. */
  lemma {:induction false} RoutedToSnoc(results: seq<AnalysisResult>, record: AnalysisResult, a: Agent)
    ensures RoutedTo(results + [record], a) == RoutedTo(results, a) + (if record.agent == a then 1 else 0)
  {
    var s := results + [record];
    assert s[..|s| - 1] == results;
  }

  /** One more routed result adds its agent to the first occurrences exactly
      when the agent is new, which is what `Bump` does to the keys. */
  lemma RoutedKeysSnoc(counts: seq<RouteCount>, results: seq<AnalysisResult>, record: AnalysisResult)
    requires KeyAgents(counts) == FirstOccurrences(AgentsOf(results))
    ensures KeyAgents(Bump(counts, record.agent)) == FirstOccurrences(AgentsOf(results + [record]))
  {
    var s := AgentsOf(results + [record]);
    assert s[..|s| - 1] == AgentsOf(results);
  }

  /** Recording one more routed result keeps the per-agent counts and the set
      of agents used in step with the results. */
  lemma RouteStep(counts: seq<RouteCount>, agents: set<Agent>, results: seq<AnalysisResult>, record: AnalysisResult)
    requires RoutingState(results, agents, counts)
    ensures RoutingState(results + [record], agents + {record.agent}, Bump(counts, record.agent))
  {
    forall a ensures RoutedTo(results + [record], a) == RoutedTo(results, a) + (if record.agent == a then 1 else 0) {
      RoutedToSnoc(results, record, a);
    }
    RoutedKeysSnoc(counts, results, record);
  }

  /** The routing state after the items `items`: their records in order, the
      agents routed to, and the per-agent counts. */
  function RoutingOf(items: seq<AuditItem>, analyze: AgentPayload -> AgentResponse)
    : (seq<AnalysisResult>, set<Agent>, seq<RouteCount>)
  {
    if items == [] then ([], {}, [])
    else
      var prev := RoutingOf(items[..|items| - 1], analyze);
      var record := ResultRecord(items[|items| - 1], analyze);
      (prev.0 + [record], prev.1 + {record.agent}, Bump(prev.2, record.agent))
  }

  /** The routing state holds one record per item, in input order. */
  lemma {:induction false} RoutingOfRecords(items: seq<AuditItem>, analyze: AgentPayload -> AgentResponse)
    ensures |RoutingOf(items, analyze).0| == |items|
    ensures forall k :: 0 <= k < |items| ==> RoutingOf(items, analyze).0[k] == ResultRecord(items[k], analyze)
  {
    if items != [] {
      var init := items[..|items| - 1];
      RoutingOfRecords(init, analyze);
      forall k | 0 <= k < |init| ensures RoutingOf(items, analyze).0[k] == ResultRecord(items[k], analyze) {
        assert items[k] == init[k];
      }
    }
  }

  /** The agents and counts of the routing state are in step with its
      records. */
  lemma {:induction false} RoutingOfMeaning(items: seq<AuditItem>, analyze: AgentPayload -> AgentResponse)
    ensures var r := RoutingOf(items, analyze); RoutingState(r.0, r.1, r.2)
  {
    if items != [] {
      var init := items[..|items| - 1];
      RoutingOfMeaning(init, analyze);
      var prev := RoutingOf(init, analyze);
      RouteStep(prev.2, prev.1, prev.0, ResultRecord(items[|items| - 1], analyze));
    }
  }

  /** The routing loop of `submit_audit_batch`: one analysis record per item in
      input order, the set of agents used, and the per-agent item counts. */
  method RouteItems(items: seq<AuditItem>, analyze: AgentPayload -> AgentResponse)
    returns (analysisResults: seq<AnalysisResult>, agentsInvoked: set<Agent>, itemsByAgent: seq<RouteCount>)
    ensures |analysisResults| == |items|
    ensures forall k :: 0 <= k < |items| ==> analysisResults[k] == ResultRecord(items[k], analyze)
    ensures RoutingState(analysisResults, agentsInvoked, itemsByAgent)
  {
    analysisResults, agentsInvoked, itemsByAgent := [], {}, [];
    var i := 0;
    while i < |items|
      invariant 0 <= i <= |items|
      invariant (analysisResults, agentsInvoked, itemsByAgent) == RoutingOf(items[..i], analyze)
    {
      var record := ResultRecord(items[i], analyze);
      assert items[..i + 1][..i] == items[..i];
      agentsInvoked := agentsInvoked + {record.agent};
      itemsByAgent := Bump(itemsByAgent, record.agent);
      analysisResults := analysisResults + [record];
      i := i + 1;
    }
    assert items[..i] == items;
    RoutingOfRecords(items, analyze);
    RoutingOfMeaning(items, analyze);
  }

  /** The loop that extends `all_recommendations` with the `recommendations`
      of every analysis that has that key. */
  method CollectRecommendations(analysisResults: seq<AnalysisResult>) returns (allRecommendations: seq<string>)
    ensures allRecommendations == AllRecommendations(analysisResults)
  {
    allRecommendations := [];
    var j := 0;
    while j < |analysisResults|
      invariant 0 <= j <= |analysisResults|
      invariant allRecommendations == AllRecommendations(analysisResults[..j])
    {
      assert analysisResults[..j + 1][..j] == analysisResults[..j];
      allRecommendations := allRecommendations + RecommendationsOf(analysisResults[j]);
      j := j + 1;
    }
    assert analysisResults[..j] == analysisResults;
  }

  /** `submit_audit_batch`: route every item in order, then aggregate. An
      analysis that is `None` makes the verdict count raise, and the endpoint
      answers HTTP 500. */
  method SubmitAuditBatch(request: BatchRequest, analyze: AgentPayload -> AgentResponse)
    returns (outcome: BatchOutcome)
    ensures outcome.InternalServerError? <==>
      exists i :: 0 <= i < |request.auditItems| && RouteAuditItem(request.auditItems[i], analyze).analysis.NoReport?
    ensures outcome.Completed? ==>
      var res := outcome.response;
      && res.status == "completed"
      && res.batchId == request.batchId && res.sessionId == request.sessionId
      && res.companyName == request.companyName && res.location == request.location
      && res.totalItemsAnalyzed == |request.auditItems| == |res.analysisResults|
      && (forall i :: 0 <= i < |request.auditItems| ==>
            res.analysisResults[i] == ResultRecord(request.auditItems[i], analyze))
    ensures outcome.Completed? ==>
      var res := outcome.response;
      && CountsMatch(res.itemsRouted, res.analysisResults)
      && (forall i, j :: 0 <= i < j < |res.agentsInvoked| ==> LexLess(res.agentsInvoked[i], res.agentsInvoked[j]))
      && (forall a :: AgentName(a) in res.agentsInvoked <==> RoutedTo(res.analysisResults, a) > 0)
      && (forall x :: x in res.agentsInvoked ==> exists a :: RoutedTo(res.analysisResults, a) > 0 && x == AgentName(a))
    ensures outcome.Completed? ==>
      var res := outcome.response;
      && res.compliantItems == Count(res.analysisResults, HasVerdict("Compliant"))
      && res.nonCompliantItems == Count(res.analysisResults, HasVerdict("Non-Compliant"))
      && res.needsReviewItems == Count(res.analysisResults, HasVerdict("Needs Review"))
      && res.compliantItems + res.nonCompliantItems + res.needsReviewItems <= res.totalItemsAnalyzed
      && res.criticalFindings == Count(res.analysisResults, IsFinding("Critical"))
      && res.highRiskFindings == Count(res.analysisResults, IsFinding("High"))
      && res.criticalFindings + res.highRiskFindings <= res.nonCompliantItems
      && res.overallComplianceScore == CompliancePercent(res.compliantItems, res.totalItemsAnalyzed)
    ensures outcome.Completed? ==>
      var res := outcome.response;
      && res.recommendations == CappedRecommendations(AllRecommendations(res.analysisResults))
      && Distinct(res.recommendations) && |res.recommendations| <= MaxRecommendations
      && (forall x :: x in res.recommendations ==> x in AllRecommendations(res.analysisResults))
      && |res.recommendations| == Min(MaxRecommendations, |set x | x in AllRecommendations(res.analysisResults)|)
  {
    var items := request.auditItems;
    var analysisResults, agentsInvoked, itemsByAgent := RouteItems(items, analyze);

    if Count(analysisResults, IsNoReport) > 0 {
      CountPositiveWitness(analysisResults, IsNoReport);
      return InternalServerError;
    }
    NoWitnessCountZero(analysisResults, IsNoReport);

    var compliantItems := Count(analysisResults, HasVerdict("Compliant"));
    var nonCompliantItems := Count(analysisResults, HasVerdict("Non-Compliant"));
    var needsReviewItems := Count(analysisResults, HasVerdict("Needs Review"));
    var totalItems := |items|;
    VerdictCountsBounded(analysisResults);
    var overallComplianceScore := CompliancePercent(compliantItems, totalItems);
    var criticalFindings := Count(analysisResults, IsFinding("Critical"));
    var highRiskFindings := Count(analysisResults, IsFinding("High"));

    var allRecommendations := CollectRecommendations(analysisResults);

    outcome := Completed(BatchResponse(
      "completed",
      request.batchId, request.sessionId, request.companyName, request.location,
      SortedAgentNames(agentsInvoked),
      itemsByAgent,
      totalItems,
      compliantItems, nonCompliantItems, needsReviewItems,
      overallComplianceScore,
      criticalFindings, highRiskFindings,
      analysisResults,
      CappedRecommendations(allRecommendations)));
  }
}
