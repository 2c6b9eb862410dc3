/** The session report of src/services/reportService.js: the agent
    submissions of one audit session are turned into headline figures
    (compliance over the applicable items, critical open risks, the mean AI
    score) and a per-agent breakdown. */
module ReportService {
  import opened Common

  // ---------------------------------------------------------------------------
  // Data model
  // ---------------------------------------------------------------------------

  /** The columns of an `audit_agent_submissions` row that the report reads.
      `aiScore` and `aiAgentName` may be null in the table. */
  datatype Submission = Submission(
    status: string,
    riskLevel: string,
    aiScore: Option<int>,
    aiAgentName: Option<string>)

  /** What the submissions query gave back: an error, or rows (possibly null). */
  datatype QueryResult = QueryError | Rows(data: Option<seq<Submission>>)

  /** One agent's entry while the submissions are being grouped: the running
      score total and the number of scores in it. */
  datatype Tally = Tally(scoreSum: int, issues: nat, items: seq<Submission>, totalItems: nat, scoreCount: nat)

  /** One agent's entry in the finished report (the score counter is gone). */
  datatype AgentEntry = AgentEntry(score: int, issues: nat, items: seq<Submission>, totalItems: nat)

  /** The summary object. The two counts that the empty report leaves out are
      `None` there. */
  datatype ReportSummary = ReportSummary(
    overallCompliance: int,
    criticalRiskCount: nat,
    totalScore: int,
    totalItems: nat,
    applicableItems: nat,
    compliantItems: nat,
    nonCompliantItems: Option<nat>,
    notApplicableItems: Option<nat>)

  /** The report: the summary, the breakdown keyed by agent name (with the
      keys in the order they were first met) and the rows themselves. */
  datatype Report = Report(
    summary: ReportSummary,
    agentNames: seq<string>,
    agentBreakdown: map<string, AgentEntry>,
    rawDetails: seq<Submission>)

  const UnknownAgent: string := "Unknown_Agent"

  // ---------------------------------------------------------------------------
  // Headline figures
  // ---------------------------------------------------------------------------

  function HasStatus(status: string): Submission -> bool
  {
    (x: Submission) => x.status == status
  }

  function IsApplicable(): Submission -> bool
  {
    (x: Submission) => x.status != "Not Applicable"
  }

  function IsCriticalOpen(): Submission -> bool
  {
    (x: Submission) => x.riskLevel == "Critical" && x.status == "Non-Compliant"
  }

  function HasScore(): Submission -> bool
  {
    (x: Submission) => x.aiScore.Some?
  }

  function ScoreOf(x: Submission): int
  {
    if x.aiScore.Some? then x.aiScore.value else 0
  }

  /** The sum of the non-null scores. */
  function ScoreSum(s: seq<Submission>): int
  {
    if s == [] then 0 else ScoreSum(s[..|s| - 1]) + ScoreOf(s[|s| - 1])
  }

  /** `Math.round(total / count)` over the non-null scores, or 0 without any. */
  function MeanScore(s: seq<Submission>): int
  {
    var n := Count(s, HasScore());
    if n > 0 then MathRound(ScoreSum(s), n) else 0
  }

  /** Scores all within [0, 100] sum to at most 100 per score. */
  lemma {:induction false} ScoreSumBounds(s: seq<Submission>)
    requires forall i :: 0 <= i < |s| && s[i].aiScore.Some? ==> 0 <= s[i].aiScore.value <= 100
    ensures 0 <= ScoreSum(s) <= 100 * Count(s, HasScore())
  {
    if s != [] {
      ScoreSumBounds(s[..|s| - 1]);
    }
  }

  /** The mean of scores that lie within [0, 100] lies within [0, 100] too. */
  lemma MeanScoreBounds(s: seq<Submission>)
    requires forall i :: 0 <= i < |s| && s[i].aiScore.Some? ==> 0 <= s[i].aiScore.value <= 100
    ensures 0 <= MeanScore(s) <= 100
  {
    var n := Count(s, HasScore());
    if n > 0 {
      ScoreSumBounds(s);
      MathRoundBounds(ScoreSum(s), n, 100);
    }
  }

  /** `Math.round(compliant / applicable * 100)`, or 0 when nothing applies. */
  function OverallCompliance(s: seq<Submission>): int
  {
    var applicable := Count(s, IsApplicable());
    if applicable > 0 then MathRound(100 * Count(s, HasStatus("Compliant")), applicable) else 0
  }

  /** A compliant item is applicable, so the percentage is within [0, 100]: it
      is 100 when every applicable item is compliant and 0 when none is. */
  lemma OverallComplianceBounds(s: seq<Submission>)
    ensures Count(s, HasStatus("Compliant")) <= Count(s, IsApplicable())
    ensures 0 <= OverallCompliance(s) <= 100
    ensures Count(s, IsApplicable()) > 0 && Count(s, HasStatus("Compliant")) == Count(s, IsApplicable())
            ==> OverallCompliance(s) == 100
    ensures Count(s, HasStatus("Compliant")) == 0 ==> OverallCompliance(s) == 0
  {
    CountMono(s, HasStatus("Compliant"), IsApplicable());
    if Count(s, IsApplicable()) > 0 {
      PercentBounds(Count(s, HasStatus("Compliant")), Count(s, IsApplicable()));
    }
  }

  /** Every row is applicable or not applicable; compliant and non-compliant
      rows are different rows; a critical open risk is a non-compliant row. */
  lemma StatusCounts(s: seq<Submission>)
    ensures Count(s, IsApplicable()) + Count(s, HasStatus("Not Applicable")) == |s|
    ensures Count(s, HasStatus("Compliant")) + Count(s, HasStatus("Non-Compliant")) <= |s|
    ensures Count(s, IsCriticalOpen()) <= Count(s, HasStatus("Non-Compliant"))
  {
    var any := (x: Submission) => true;
    CountDisjoint(s, IsApplicable(), HasStatus("Not Applicable"), any);
    CountAll(s, any);
    var either := (x: Submission) => x.status == "Compliant" || x.status == "Non-Compliant";
    CountDisjoint(s, HasStatus("Compliant"), HasStatus("Non-Compliant"), either);
    CountMono(s, either, any);
    CountMono(s, IsCriticalOpen(), HasStatus("Non-Compliant"));
  }

  // ---------------------------------------------------------------------------
  // Per-agent breakdown
  // ---------------------------------------------------------------------------

  /** `item.ai_agent_name || 'Unknown_Agent'`: a null or empty name falls back. */
  function AgentKey(x: Submission): (k: string)
    ensures k != ""
  {
    if x.aiAgentName.None? || x.aiAgentName.value == "" then UnknownAgent else x.aiAgentName.value
  }

  function OfAgent(k: string): Submission -> bool
  {
    (x: Submission) => AgentKey(x) == k
  }

  /** What one agent's entry holds after the rows `s` have been grouped: its
      rows in order, how many there are, how many are non-compliant, and the
      total and number of its non-null scores. */
  function TallyOf(s: seq<Submission>, k: string): Tally
  {
    var items := Filter(s, OfAgent(k));
    Tally(ScoreSum(items), Count(items, HasStatus("Non-Compliant")), items, |items|, Count(items, HasScore()))
  }

  /** The body of the grouping loop for one row. */
  function AddRow(t: Tally, x: Submission): Tally
  {
    Tally(
      t.scoreSum + ScoreOf(x),
      t.issues + (if x.status == "Non-Compliant" then 1 else 0),
      t.items + [x],
      t.totalItems + 1,
      t.scoreCount + (if x.aiScore.Some? then 1 else 0))
  }

  /** A row changes only its own agent's entry, and that one as `AddRow` does. */
  lemma TallyStep(s: seq<Submission>, x: Submission, k: string)
    ensures TallyOf(s + [x], k) == if AgentKey(x) == k then AddRow(TallyOf(s, k), x) else TallyOf(s, k)
  {
    FilterSnoc(s, x, OfAgent(k));
    if AgentKey(x) == k {
      var items := Filter(s, OfAgent(k));
      assert (items + [x])[..|items|] == items;
    }
  }

  /** An agent no row names has an empty entry. */
  lemma TallyUnseen(s: seq<Submission>, k: string)
    requires forall j :: 0 <= j < |s| ==> AgentKey(s[j]) != k
    ensures TallyOf(s, k) == Tally(0, 0, [], 0, 0)
  {
    if Count(s, OfAgent(k)) > 0 {
      CountPositiveWitness(s, OfAgent(k));
      assert false;
    }
  }

  /** The loop state after the first rows `s`: the names met so far, once
      each, and each one's entry (their order is `FirstSeenOrder`). */
  ghost predicate Grouped(s: seq<Submission>, names: seq<string>, groups: map<string, Tally>)
  {
    && Distinct(names)
    && (forall k :: k in groups <==> k in names)
    && NamesSeen(s, names)
    && Tallied(s, groups)
  }

  /** The names are exactly the agents of the rows. */
  ghost predicate NamesSeen(s: seq<Submission>, names: seq<string>)
  {
    forall k :: k in names <==> exists j :: 0 <= j < |s| && AgentKey(s[j]) == k
  }

  /** Each entry is its agent's tally of the rows. */
  predicate Tallied(s: seq<Submission>, groups: map<string, Tally>)
  {
    forall k :: k in groups ==> groups[k] == TallyOf(s, k)
  }

  lemma GroupStep(s: seq<Submission>, x: Submission, names: seq<string>, groups: map<string, Tally>,
                  names': seq<string>, groups': map<string, Tally>)
    requires Grouped(s, names, groups)
    requires names' == if AgentKey(x) in groups then names else names + [AgentKey(x)]
    requires groups' == groups[AgentKey(x) := AddRow(if AgentKey(x) in groups then groups[AgentKey(x)] else Tally(0, 0, [], 0, 0), x)]
    ensures Grouped(s + [x], names', groups')
  {
    var k := AgentKey(x);
    if k !in groups {
      assert !(exists j :: 0 <= j < |s| && AgentKey(s[j]) == k);
      TallyUnseen(s, k);
      DistinctSnoc(names, k);
    }
    assert forall n :: n in groups' <==> n in names';
    SeenStep(s, x, names);
    TalliesStep(s, x, groups);
  }

  lemma DistinctSnoc(names: seq<string>, k: string)
    requires Distinct(names) && k !in names
    ensures Distinct(names + [k])
  {
  }

  /** The names met after one more row: the old ones, and the row's agent at
      the end if it is new. */
  lemma SeenStep(s: seq<Submission>, x: Submission, names: seq<string>)
    requires NamesSeen(s, names)
    ensures NamesSeen(s + [x], if AgentKey(x) in names then names else names + [AgentKey(x)])
  {
    var k := AgentKey(x);
    var s' := s + [x];
    var names' := if k in names then names else names + [k];
    forall n ensures n in names' <==> exists j :: 0 <= j < |s'| && AgentKey(s'[j]) == n {
      if n in names' && n != k {
        var j :| 0 <= j < |s| && AgentKey(s[j]) == n;
        assert s'[j] == s[j];
      }
      if n == k {
        assert AgentKey(s'[|s|]) == n;
      }
      if exists j :: 0 <= j < |s'| && AgentKey(s'[j]) == n {
        var j :| 0 <= j < |s'| && AgentKey(s'[j]) == n;
        if j < |s| {
          assert s[j] == s'[j];
        }
      }
    }
  }

  /** The entries after one more row: the row's agent's entry has the row
      added, the others are unchanged. */
  lemma TalliesStep(s: seq<Submission>, x: Submission, groups: map<string, Tally>)
    requires Tallied(s, groups)
    requires AgentKey(x) !in groups ==> TallyOf(s, AgentKey(x)) == Tally(0, 0, [], 0, 0)
    ensures Tallied(s + [x], groups[AgentKey(x) := AddRow(if AgentKey(x) in groups then groups[AgentKey(x)] else Tally(0, 0, [], 0, 0), x)])
  {
    var k := AgentKey(x);
    var groups' := groups[k := AddRow(if k in groups then groups[k] else Tally(0, 0, [], 0, 0), x)];
    forall n | n in groups' ensures groups'[n] == TallyOf(s + [x], n) {
      TallyStep(s, x, n);
    }
  }

  /** The names are in order of first appearance: for two names, every row
      of the later one comes after some row of the earlier one. */
  ghost predicate FirstSeenOrder(s: seq<Submission>, names: seq<string>)
  {
    forall i, j, q :: 0 <= i < j < |names| && 0 <= q < |s| && AgentKey(s[q]) == names[j] ==>
      exists p :: 0 <= p < q && AgentKey(s[p]) == names[i]
  }

  /** Appending a row keeps the names in order of first appearance, whether
      its agent is old or new. */
  lemma OrderStep(s: seq<Submission>, x: Submission, names: seq<string>)
    requires NamesSeen(s, names) && FirstSeenOrder(s, names)
    ensures FirstSeenOrder(s + [x], if AgentKey(x) in names then names else names + [AgentKey(x)])
  {
    var k := AgentKey(x);
    var s' := s + [x];
    var names' := if k in names then names else names + [k];
    forall i, j, q | 0 <= i < j < |names'| && 0 <= q < |s'| && AgentKey(s'[q]) == names'[j]
      ensures exists p :: 0 <= p < q && AgentKey(s'[p]) == names'[i]
    {
      if j < |names| {
        assert names'[i] == names[i] && names'[j] == names[j];
        var q0 := q;
        if q == |s| {
          assert names[j] == k;
          q0 :| 0 <= q0 < |s| && AgentKey(s[q0]) == names[j];
        } else {
          assert s'[q] == s[q];
        }
        assert 0 <= i < j < |names| && 0 <= q0 < |s| && AgentKey(s[q0]) == names[j];
        var p :| 0 <= p < q0 && AgentKey(s[p]) == names[i];
        assert s'[p] == s[p];
      } else {
        assert names[i] in names;
        var p :| 0 <= p < |s| && AgentKey(s[p]) == names[i];
        assert s'[p] == s[p];
      }
    }
    assert FirstSeenOrder(s', names');
  }

  /** The names met and the entries built after the rows `s`: a row's agent
      is added to the names the first time it is met, and the row is added
      to its agent's entry. */
  function GroupsOf(s: seq<Submission>): (seq<string>, map<string, Tally>)
  {
    if s == [] then ([], map[])
    else
      var prev := GroupsOf(s[..|s| - 1]);
      var x := s[|s| - 1];
      var k := AgentKey(x);
      (if k in prev.1 then prev.0 else prev.0 + [k],
       prev.1[k := AddRow(if k in prev.1 then prev.1[k] else Tally(0, 0, [], 0, 0), x)])
  }

  /** What the grouping means: each agent met once, with its own rows'
      tally. */
  lemma {:induction false} GroupsOfGrouped(s: seq<Submission>)
    ensures Grouped(s, GroupsOf(s).0, GroupsOf(s).1)
  {
    if s != [] {
      var init, x := s[..|s| - 1], s[|s| - 1];
      GroupsOfGrouped(init);
      var prev := GroupsOf(init);
      assert init + [x] == s;
      GroupStep(init, x, prev.0, prev.1, GroupsOf(s).0, GroupsOf(s).1);
    }
  }

  /** The names the grouping collects are in order of first appearance. */
  lemma {:induction false} GroupsOfOrdered(s: seq<Submission>)
    ensures FirstSeenOrder(s, GroupsOf(s).0)
  {
    if s != [] {
      var init, x := s[..|s| - 1], s[|s| - 1];
      GroupsOfOrdered(init);
      GroupsOfGrouped(init);
      assert init + [x] == s;
      OrderStep(init, x, GroupsOf(init).0);
    }
  }

  /** Dropping names keeps the others in order of first appearance. */
  lemma FirstSeenOrderFilter(s: seq<Submission>, names: seq<string>, p: string -> bool)
    requires FirstSeenOrder(s, names)
    ensures FirstSeenOrder(s, Filter(names, p))
  {
    FilterInOrder(names, p);
    var sub, idx := Filter(names, p), FilterIndices(names, p);
    forall i, j, q | 0 <= i < j < |sub| && 0 <= q < |s| && AgentKey(s[q]) == sub[j]
      ensures exists r :: 0 <= r < q && AgentKey(s[r]) == sub[i]
    {
      assert sub[i] == names[idx[i]] && sub[j] == names[idx[j]] && idx[i] < idx[j];
    }
  }

  /** The grouping loop: every row is added to the entry of its agent, an
      entry being created the first time an agent is met. */
  method GroupByAgent(rows: seq<Submission>) returns (names: seq<string>, groups: map<string, Tally>)
    ensures (names, groups) == GroupsOf(rows)
    ensures Grouped(rows, names, groups)
    ensures FirstSeenOrder(rows, names)
  {
    names, groups := [], map[];
    var i := 0;
    while i < |rows|
      invariant 0 <= i <= |rows|
      invariant (names, groups) == GroupsOf(rows[..i])
    {
      var x := rows[i];
      var k := AgentKey(x);
      var entry := if k in groups then groups[k] else Tally(0, 0, [], 0, 0);
      if k !in groups {
        names := names + [k];
      }
      groups := groups[k := AddRow(entry, x)];
      assert rows[..i + 1][..i] == rows[..i];
      i := i + 1;
    }
    assert rows[..i] == rows;
    GroupsOfGrouped(rows);
    GroupsOfOrdered(rows);
  }

  /** One agent's rows and its count of rows agree, and its issues are its
      non-compliant rows. */
  lemma TallyMeaning(s: seq<Submission>, k: string)
    ensures TallyOf(s, k).totalItems == |TallyOf(s, k).items| == Count(s, OfAgent(k))
    ensures forall x :: x in TallyOf(s, k).items <==> x in s && AgentKey(x) == k
    ensures TallyOf(s, k).issues <= TallyOf(s, k).totalItems
  {
    FilterMembers(s, OfAgent(k));
  }

  /** Every row lands in exactly one agent's entry: over the agents met, the
      entries' sizes add up to the number of rows. */
  function SumTotals(names: seq<string>, groups: map<string, Tally>): int
    requires forall k :: k in names ==> k in groups
  {
    if names == [] then 0 else groups[names[0]].totalItems + SumTotals(names[1..], groups)
  }

  /** `Σ_k Count(s, OfAgent(k))` over a list of names. */
  function SumCounts(s: seq<Submission>, names: seq<string>): nat
  {
    if names == [] then 0 else Count(s, OfAgent(names[0])) + SumCounts(s, names[1..])
  }

  /** One more row adds one to the count of the one name that is its agent. */
  lemma {:induction false} SumCountsSnoc(s: seq<Submission>, x: Submission, names: seq<string>)
    requires Distinct(names)
    ensures SumCounts(s + [x], names) == SumCounts(s, names) + (if AgentKey(x) in names then 1 else 0)
  {
    if names != [] {
      assert (s + [x])[..|s + [x]| - 1] == s;
      SumCountsSnoc(s, x, names[1..]);
      assert AgentKey(x) in names <==> AgentKey(x) == names[0] || AgentKey(x) in names[1..];
      if AgentKey(x) == names[0] {
        assert names[0] !in names[1..];
      }
    }
  }

  /** Over distinct names that cover every row's agent, the counts add up to
      the number of rows. */
  lemma {:induction false} SumCountsCover(s: seq<Submission>, names: seq<string>)
    requires Distinct(names)
    requires forall j :: 0 <= j < |s| ==> AgentKey(s[j]) in names
    ensures SumCounts(s, names) == |s|
  {
    if s == [] {
      SumCountsEmpty(names);
    } else {
      var init := s[..|s| - 1];
      SumCountsCover(init, names);
      assert init + [s[|s| - 1]] == s;
      SumCountsSnoc(init, s[|s| - 1], names);
    }
  }

  lemma {:induction false} SumCountsEmpty(names: seq<string>)
    ensures SumCounts([], names) == 0
  {
    if names != [] {
      SumCountsEmpty(names[1..]);
    }
  }

  lemma {:induction false} SumTotalsCounts(s: seq<Submission>, names: seq<string>, groups: map<string, Tally>)
    requires forall k :: k in names ==> k in groups && groups[k] == TallyOf(s, k)
    ensures SumTotals(names, groups) == SumCounts(s, names)
  {
    if names != [] {
      SumTotalsCounts(s, names[1..], groups);
    }
  }

  /** The grouping partitions the rows: each row is in its agent's entry and
      the entries' sizes add up to the number of rows. */
  lemma GroupingPartitions(rows: seq<Submission>, names: seq<string>, groups: map<string, Tally>)
    requires Distinct(names)
    requires forall k :: k in groups <==> k in names
    requires forall k :: k in names <==> exists j :: 0 <= j < |rows| && AgentKey(rows[j]) == k
    requires forall k :: k in groups ==> groups[k] == TallyOf(rows, k)
    ensures SumTotals(names, groups) == |rows|
    ensures forall j :: 0 <= j < |rows| ==> AgentKey(rows[j]) in groups && rows[j] in groups[AgentKey(rows[j])].items
  {
    SumTotalsCounts(rows, names, groups);
    SumCountsCover(rows, names);
    forall j | 0 <= j < |rows|
      ensures AgentKey(rows[j]) in groups && rows[j] in groups[AgentKey(rows[j])].items
    {
      TallyMeaning(rows, AgentKey(rows[j]));
    }
  }

  /** The second pass for one entry: `Math.round(score / score_count)` or 0,
      and the counter dropped. */
  function Finish(t: Tally): (e: AgentEntry)
    ensures e.issues == t.issues && e.items == t.items && e.totalItems == t.totalItems
  {
    AgentEntry(if t.scoreCount > 0 then MathRound(t.scoreSum, t.scoreCount) else 0, t.issues, t.items, t.totalItems)
  }

  /** The second pass over the agents in key order: each entry gets its mean
      score and loses its counter. */
  method FinishAll(names: seq<string>, groups: map<string, Tally>) returns (entries: map<string, AgentEntry>)
    requires forall k :: k in groups <==> k in names
    ensures forall k :: k in entries <==> k in groups
    ensures forall k :: k in entries ==> entries[k] == Finish(groups[k])
  {
    entries := map[];
    var i := 0;
    while i < |names|
      invariant 0 <= i <= |names|
      invariant forall k :: k in entries <==> k in names[..i]
      invariant forall k :: k in entries ==> k in groups && entries[k] == Finish(groups[k])
    {
      entries := entries[names[i] := Finish(groups[names[i]])];
      assert names[..i + 1] == names[..i] + [names[i]];
      i := i + 1;
    }
    assert names[..i] == names;
  }

  // ---------------------------------------------------------------------------
  // The report
  // ---------------------------------------------------------------------------

  /** The report for a session without submissions: zeros, and neither the
      non-compliant nor the not-applicable count. */
  const EmptyReport: Report :=
    Report(ReportSummary(0, 0, 0, 0, 0, 0, None, None), [], map[], [])

  /** The summary of a non-empty session: each count is the number of rows
      with that status (or that are applicable, or critical and open). Its
      counts are consistent: every
      row is applicable or not, compliant and non-compliant rows are
      different rows, a critical open risk is a non-compliant row, and the
      compliance percentage is within [0, 100]. */
  function SummaryOf(rows: seq<Submission>): (r: ReportSummary)
    ensures r.nonCompliantItems.Some? && r.notApplicableItems.Some?
    ensures r.totalItems == |rows|
    ensures r.applicableItems == Count(rows, IsApplicable())
    ensures r.compliantItems == Count(rows, HasStatus("Compliant"))
    ensures r.nonCompliantItems.value == Count(rows, HasStatus("Non-Compliant"))
    ensures r.notApplicableItems.value == Count(rows, HasStatus("Not Applicable"))
    ensures r.criticalRiskCount == Count(rows, IsCriticalOpen())
    ensures r.applicableItems + r.notApplicableItems.value == r.totalItems
    ensures r.compliantItems + r.nonCompliantItems.value <= r.totalItems
    ensures r.compliantItems <= r.applicableItems
    ensures r.criticalRiskCount <= r.nonCompliantItems.value
    ensures 0 <= r.overallCompliance <= 100
    ensures r.applicableItems > 0 ==> r.overallCompliance == MathRound(100 * r.compliantItems, r.applicableItems)
    ensures r.applicableItems == 0 ==> r.overallCompliance == 0
    ensures r.totalScore == MeanScore(rows)
  {
    StatusCounts(rows);
    OverallComplianceBounds(rows);
    ReportSummary(
      OverallCompliance(rows),
      Count(rows, IsCriticalOpen()),
      MeanScore(rows),
      |rows|,
      Count(rows, IsApplicable()),
      Count(rows, HasStatus("Compliant")),
      Some(Count(rows, HasStatus("Non-Compliant"))),
      Some(Count(rows, HasStatus("Not Applicable"))))
  }

  /** A finished entry holds its agent's rows in order, their number, the
      non-compliant ones among them and the rounded mean of their scores. */
  lemma EntryMeaning(rows: seq<Submission>, k: string)
    ensures var e := Finish(TallyOf(rows, k));
      && e.items == Filter(rows, OfAgent(k))
      && e.totalItems == |e.items|
      && e.issues == Count(e.items, HasStatus("Non-Compliant"))
      && e.score == MeanScore(e.items)
  {
  }

  /** The keys of `agent_breakdown` as an object lists them: the agents once
      each, exactly those the rows name, the array-index names first in
      ascending order and the others in order of first appearance. */
  lemma BreakdownKeys(rows: seq<Submission>, names: seq<string>)
    requires Distinct(names) && NamesSeen(rows, names) && FirstSeenOrder(rows, names)
    ensures Distinct(ObjectKeyOrder(names))
    ensures forall k :: k in ObjectKeyOrder(names) <==> k in names
    ensures NamesSeen(rows, ObjectKeyOrder(names))
    ensures exists n: nat :: IndexKeysFirst(ObjectKeyOrder(names), n) && FirstSeenOrder(rows, ObjectKeyOrder(names)[n..])
  {
    var keys := ObjectKeyOrder(names);
    PermutationDistinct(names, keys);
    forall k ensures k in keys <==> k in names {
      assert k in keys <==> k in multiset(keys);
      assert k in names <==> k in multiset(names);
    }
    FirstSeenOrderFilter(rows, names, NotIndexKey);
    var n := Count(names, IsIndexKey);
    assert IndexKeysFirst(keys, n) && FirstSeenOrder(rows, keys[n..]);
  }

  /** `fetchAuditSessionReport` once the query has answered: `None` stands for
      the `null` of a query error. */
  method FetchAuditSessionReport(query: QueryResult) returns (report: Option<Report>)
    ensures query.QueryError? <==> report.None?
    ensures query.Rows? && (query.data.None? || query.data.value == []) ==> report == Some(EmptyReport)
    ensures query.Rows? && query.data.Some? && query.data.value != [] ==>
      var rows := query.data.value;
      && report.value.rawDetails == rows
      && report.value.summary == SummaryOf(rows)
      && report.value.agentNames == ObjectKeyOrder(GroupsOf(rows).0)
      && Distinct(report.value.agentNames)
      && (forall k :: k in report.value.agentBreakdown <==> k in report.value.agentNames)
      && NamesSeen(rows, report.value.agentNames)
      && (exists n: nat :: IndexKeysFirst(report.value.agentNames, n) && FirstSeenOrder(rows, report.value.agentNames[n..]))
      && (forall k :: k in report.value.agentBreakdown ==> report.value.agentBreakdown[k] == Finish(TallyOf(rows, k)))
  {
    if query.QueryError? {
      return None;
    }
    if query.data.None? || query.data.value == [] {
      return Some(EmptyReport);
    }
    var rows := query.data.value;
    var names, groups := GroupByAgent(rows);
    var entries := FinishAll(names, groups);
    var keys := ObjectKeyOrder(names);
    BreakdownKeys(rows, names);
    report := Some(Report(SummaryOf(rows), keys, entries, rows));
  }
}
