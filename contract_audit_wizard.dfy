/** The contract risk audit wizard (ContractAuditWizard.tsx): the risk
    summary tallied from the checklists, the update of one checklist answer,
    and the steps from the first section to the summary page. */
module ContractAuditWizard {
  import opened Common

  /** `CheckStatus` and `RiskLevel` of contractAuditTypes.ts. */
  datatype CheckStatus = Pass | Fail | NotApplicable | Pending
  datatype RiskLevel = Low | Medium | High | Critical

  /** `IChecklistItem`; an unset risk level or note is `None`, and the
      severity select's empty option is `None` too. */
  datatype ContractItem = ContractItem(
    id: string,
    description: string,
    status: CheckStatus,
    riskLevel: Option<RiskLevel>,
    notes: Option<string>,
    evidence: seq<string>)

  /** A checklist maps question ids to answers; the checklists map section
      keys to checklists. Both keep the objects' insertion order. */
  type ContractSection = seq<(string, ContractItem)>
  type ContractChecklists = seq<(string, ContractSection)>

  /** `IRiskSummary`. */
  datatype RiskSummary = RiskSummary(critical: nat, high: nat, medium: nat, low: nat, total: nat)

  /** The checklists the page starts from: seven empty checklists. */
  const InitialChecklists: ContractChecklists := [
    ("documentation", []), ("scope", []), ("financialRisk", []), ("legalCompliance", []),
    ("counterpartyRisk", []), ("operationalPerformance", []), ("lifecycleManagement", [])]

  const InitialSummary := RiskSummary(0, 0, 0, 0, 0)

  /** The wizard's sections: their keys and the ids of the questions each asks. */
  datatype WizardSection = WizardSection(key: string, title: string, questionIds: seq<string>)

  const WizardSections: seq<WizardSection> := [
    WizardSection("documentation", "B. Documentation & Governance",
      ["contractAvailability", "amendmentsTracked", "digitalRepository", "executionEvidence"]),
    WizardSection("financialRisk", "D. Financial Risk",
      ["pricingReviewed", "paymentTermsValidated", "penaltiesIdentified", "currencyRiskAssessed"]),
    WizardSection("legalCompliance", "E. Legal & Regulatory",
      ["regulatoryCompliance", "disputeResolution", "terminationClauses", "jurisdictionVerified"]),
    WizardSection("operationalPerformance", "G. Operational & Performance",
      ["deliveryTimeliness", "slaCompliance", "qualityStandards"])]

  // ---------------------------------------------------------------------------
  // What the summary counts
  // ---------------------------------------------------------------------------

  /** An answer counts toward the total when it failed. */
  function Failing(): ((string, ContractItem)) -> bool
  {
    (e: (string, ContractItem)) => e.1.status == Fail
  }

  /** An answer counts toward a level when it failed with that level. */
  function FailingAt(level: RiskLevel): ((string, ContractItem)) -> bool
  {
    (e: (string, ContractItem)) => e.1.status == Fail && e.1.riskLevel == Some(level)
  }

  /** The answers of all checklists that satisfy `p`. */
  function Tally(cl: ContractChecklists, p: ((string, ContractItem)) -> bool): nat
  {
    if cl == [] then 0 else Tally(cl[..|cl| - 1], p) + Count(cl[|cl| - 1].1, p)
  }

  /** The summary the page stores for some checklists. */
  function Summary(cl: ContractChecklists): RiskSummary
  {
    RiskSummary(Tally(cl, FailingAt(Critical)), Tally(cl, FailingAt(High)), Tally(cl, FailingAt(Medium)),
      Tally(cl, FailingAt(Low)), Tally(cl, Failing()))
  }

  // ---------------------------------------------------------------------------
  // The heat-map effect
  // ---------------------------------------------------------------------------

  /** The tally of one checklist's answers so far. */
  predicate TalliedIn(items: ContractSection, critical: nat, high: nat, medium: nat, low: nat, total: nat)
  {
    && critical == Count(items, FailingAt(Critical))
    && high == Count(items, FailingAt(High))
    && medium == Count(items, FailingAt(Medium))
    && low == Count(items, FailingAt(Low))
    && total == Count(items, Failing())
  }

  /** The tally of whole checklists so far. */
  predicate Tallied(cl: ContractChecklists, stats: RiskSummary)
  {
    && stats.critical == Tally(cl, FailingAt(Critical))
    && stats.high == Tally(cl, FailingAt(High))
    && stats.medium == Tally(cl, FailingAt(Medium))
    && stats.low == Tally(cl, FailingAt(Low))
    && stats.total == Tally(cl, Failing())
  }

  /** The effect that recomputes `riskSummary` whenever the checklists
      change: every failed answer adds one to the total and one to its
      level, if it has one. */
  method SummarizeRisk(checklists: ContractChecklists) returns (stats: RiskSummary)
    ensures stats == Summary(checklists)
  {
    stats := RiskSummary(0, 0, 0, 0, 0);
    var i := 0;
    while i < |checklists|
      invariant 0 <= i <= |checklists|
      invariant Tallied(checklists[..i], stats)
    {
      var section := checklists[i].1;
      ghost var before := stats;
      var j := 0;
      while j < |section|
        invariant 0 <= j <= |section|
        invariant stats.critical >= before.critical && stats.high >= before.high && stats.medium >= before.medium
        invariant stats.low >= before.low && stats.total >= before.total
        invariant TalliedIn(section[..j], stats.critical - before.critical, stats.high - before.high,
          stats.medium - before.medium, stats.low - before.low, stats.total - before.total)
      {
        var item := section[j].1;
        ghost var prev := stats;
        if item.status == Fail {
          if item.riskLevel == Some(High) { stats := stats.(high := stats.high + 1); }
          if item.riskLevel == Some(Medium) { stats := stats.(medium := stats.medium + 1); }
          if item.riskLevel == Some(Low) { stats := stats.(low := stats.low + 1); }
          if item.riskLevel == Some(Critical) { stats := stats.(critical := stats.critical + 1); }
          stats := stats.(total := stats.total + 1);
        }
        AnswerStep(section, j, prev.critical - before.critical, prev.high - before.high, prev.medium - before.medium,
          prev.low - before.low, prev.total - before.total,
          stats.critical - before.critical, stats.high - before.high, stats.medium - before.medium,
          stats.low - before.low, stats.total - before.total);
        j := j + 1;
      }
      assert section[..j] == section;
      SectionStep(checklists, i, before, stats);
      i := i + 1;
    }
    assert checklists[..i] == checklists;
  }

  /** One answer taken into a checklist's tally. */
  lemma AnswerStep(items: ContractSection, j: int, c: nat, h: nat, m: nat, l: nat, t: nat,
                   c': nat, h': nat, m': nat, l': nat, t': nat)
    requires 0 <= j < |items|
    requires TalliedIn(items[..j], c, h, m, l, t)
    requires var item := items[j].1;
      && c' == c + (if item.status == Fail && item.riskLevel == Some(Critical) then 1 else 0)
      && h' == h + (if item.status == Fail && item.riskLevel == Some(High) then 1 else 0)
      && m' == m + (if item.status == Fail && item.riskLevel == Some(Medium) then 1 else 0)
      && l' == l + (if item.status == Fail && item.riskLevel == Some(Low) then 1 else 0)
      && t' == t + (if item.status == Fail then 1 else 0)
    ensures TalliedIn(items[..j + 1], c', h', m', l', t')
  {
    assert items[..j + 1][..j] == items[..j];
  }

  /** One checklist's tally added to the tally of the checklists before it. */
  lemma SectionStep(cl: ContractChecklists, i: int, before: RiskSummary, after: RiskSummary)
    requires 0 <= i < |cl|
    requires Tallied(cl[..i], before)
    requires after.critical >= before.critical && after.high >= before.high && after.medium >= before.medium
    requires after.low >= before.low && after.total >= before.total
    requires TalliedIn(cl[i].1, after.critical - before.critical, after.high - before.high,
      after.medium - before.medium, after.low - before.low, after.total - before.total)
    ensures Tallied(cl[..i + 1], after)
  {
    assert cl[..i + 1][..i] == cl[..i];
  }

  // ---------------------------------------------------------------------------
  // Properties of the summary
  // ---------------------------------------------------------------------------

  /** In one checklist the four levels together count no more than the
      failures: a failure without a level adds to the total only. */
  lemma SectionLevelsWithinTotal(sec: ContractSection)
    ensures Count(sec, FailingAt(Critical)) + Count(sec, FailingAt(High)) + Count(sec, FailingAt(Medium))
            + Count(sec, FailingAt(Low)) <= Count(sec, Failing())
  {
    var ch := (e: (string, ContractItem)) => e.1.status == Fail && (e.1.riskLevel == Some(Critical) || e.1.riskLevel == Some(High));
    var ml := (e: (string, ContractItem)) => e.1.status == Fail && (e.1.riskLevel == Some(Medium) || e.1.riskLevel == Some(Low));
    var any := (e: (string, ContractItem)) => ch(e) || ml(e);
    CountDisjoint(sec, FailingAt(Critical), FailingAt(High), ch);
    CountDisjoint(sec, FailingAt(Medium), FailingAt(Low), ml);
    CountDisjoint(sec, ch, ml, any);
    CountMono(sec, any, Failing());
  }

  /** The summary's total is at least the sum of its four levels. */
  lemma {:induction false} LevelsWithinTotal(cl: ContractChecklists)
    ensures var s := Summary(cl);
      s.critical + s.high + s.medium + s.low <= s.total
  {
    if cl != [] {
      LevelsWithinTotal(cl[..|cl| - 1]);
      SectionLevelsWithinTotal(cl[|cl| - 1].1);
    }
  }

  /** A failed answer without a level shows only in the total: the summary
      then has room between the sum of the levels and the total. */
  lemma UnratedFailureWidensGap(cl: ContractChecklists, key: string, qid: string, item: ContractItem)
    requires item.status == Fail && item.riskLevel.None?
    ensures var s := Summary(cl + [(key, [(qid, item)])]);
      s.critical + s.high + s.medium + s.low < s.total
  {
    var sec := [(qid, item)];
    assert sec[..0] == [];
    LevelsWithinTotal(cl);
    assert (cl + [(key, sec)])[..|cl|] == cl;
  }

  /** Checklists of equal length whose checklists count alike under `p`
      tally alike. */
  lemma {:induction false} TallySame(a: ContractChecklists, b: ContractChecklists, p: ((string, ContractItem)) -> bool)
    requires |a| == |b|
    requires forall i :: 0 <= i < |a| ==> Count(a[i].1, p) == Count(b[i].1, p)
    ensures Tally(a, p) == Tally(b, p)
  {
    if a != [] {
      TallySame(a[..|a| - 1], b[..|b| - 1], p);
    }
  }

  /** The initial summary is the tally of the initial checklists. */
  lemma InitialSummaryIsTally()
    ensures Summary(InitialChecklists) == InitialSummary
  {
    var cl := InitialChecklists;
    assert forall i :: 0 <= i < |cl| ==> cl[i].1 == [];
    TallyEmpty(cl, FailingAt(Critical));
    TallyEmpty(cl, FailingAt(High));
    TallyEmpty(cl, FailingAt(Medium));
    TallyEmpty(cl, FailingAt(Low));
    TallyEmpty(cl, Failing());
  }

  /** Empty checklists tally nothing. */
  lemma {:induction false} TallyEmpty(cl: ContractChecklists, p: ((string, ContractItem)) -> bool)
    requires forall i :: 0 <= i < |cl| ==> cl[i].1 == []
    ensures Tally(cl, p) == 0
  {
    if cl != [] {
      TallyEmpty(cl[..|cl| - 1], p);
    }
  }

  // ---------------------------------------------------------------------------
  // handleChecklistChange
  // ---------------------------------------------------------------------------

  /** The three fields the page edits: the status select, the risk select
      (shown for a failed answer; its empty option is `None`) and the notes. */
  datatype AnswerChange =
    | SetStatus(status: CheckStatus)
    | SetRiskLevel(riskLevel: Option<RiskLevel>)
    | SetNotes(notes: string)

  /** The answer an unanswered question starts from. */
  function FreshItem(questionId: string): ContractItem
  {
    ContractItem(questionId, "", Pending, None, None, [])
  }

  /** One field written into an answer, and nothing else: unlike the
      business wizard, a status change keeps the risk level. */
  function ApplyAnswer(item: ContractItem, c: AnswerChange): (r: ContractItem)
    ensures r.(status := item.status, riskLevel := item.riskLevel, notes := item.notes) == item
    ensures c.SetStatus? ==> r.status == c.status && r.riskLevel == item.riskLevel && r.notes == item.notes
    ensures c.SetRiskLevel? ==> r.riskLevel == c.riskLevel && r.status == item.status && r.notes == item.notes
    ensures c.SetNotes? ==> r.notes == Some(c.notes) && r.status == item.status && r.riskLevel == item.riskLevel
  {
    match c
    case SetStatus(st) => item.(status := st)
    case SetRiskLevel(rl) => item.(riskLevel := rl)
    case SetNotes(n) => item.(notes := Some(n))
  }

  /** The checklist a key names, or an empty one. */
  function SectionOrEmpty(cl: ContractChecklists, sectionKey: string): ContractSection
  {
    match Lookup(cl, sectionKey)
    case Some(sec) => sec
    case None => []
  }

  /** The answer to a question, or a fresh pending one. */
  function ItemOrFresh(sec: ContractSection, questionId: string): ContractItem
  {
    match Lookup(sec, questionId)
    case Some(item) => item
    case None => FreshItem(questionId)
  }

  /** `handleChecklistChange(sectionKey, questionId, field, value)`: a
      missing checklist starts empty, a missing answer starts pending with an
      empty description, and the field is written into it; a new checklist or
      answer goes last. */
  function HandleChecklistChange(cl: ContractChecklists, sectionKey: string, questionId: string, c: AnswerChange): (r: ContractChecklists)
    ensures Lookup(r, sectionKey).Some?
    ensures var sec := SectionOrEmpty(cl, sectionKey);
      Lookup(Lookup(r, sectionKey).value, questionId) == Some(ApplyAnswer(ItemOrFresh(sec, questionId), c))
    ensures var sec := SectionOrEmpty(cl, sectionKey);
      forall q :: q != questionId ==> Lookup(Lookup(r, sectionKey).value, q) == Lookup(sec, q)
    ensures forall k :: k != sectionKey ==> Lookup(r, k) == Lookup(cl, k)
  {
    var sec := SectionOrEmpty(cl, sectionKey);
    Assign(cl, sectionKey, Assign(sec, questionId, ApplyAnswer(ItemOrFresh(sec, questionId), c)))
  }

  /** The answer to a question the page has not seen yet is pending: the
      fresh answer, with the one field written. */
  lemma FreshAnswer(cl: ContractChecklists, sectionKey: string, questionId: string, c: AnswerChange)
    requires Lookup(SectionOrEmpty(cl, sectionKey), questionId).None?
    ensures var item := Lookup(Lookup(HandleChecklistChange(cl, sectionKey, questionId, c), sectionKey).value, questionId).value;
      && item.id == questionId && item.description == ""
      && item.status == (if c.SetStatus? then c.status else Pending)
  {
  }

  /** Rating an answer that has not failed changes nothing in the summary,
      although the level is stored; the keys of the checklists are distinct,
      as an object's keys are. */
  lemma RatingUnfailedAnswerKeepsSummary(cl: ContractChecklists, sectionKey: string, questionId: string, level: Option<RiskLevel>)
    requires Distinct(Keys(cl))
    requires Distinct(Keys(SectionOrEmpty(cl, sectionKey)))
    requires ItemOrFresh(SectionOrEmpty(cl, sectionKey), questionId).status != Fail
    ensures Summary(HandleChecklistChange(cl, sectionKey, questionId, SetRiskLevel(level))) == Summary(cl)
  {
    RatingNeutral(cl, sectionKey, questionId, level, FailingAt(Critical));
    RatingNeutral(cl, sectionKey, questionId, level, FailingAt(High));
    RatingNeutral(cl, sectionKey, questionId, level, FailingAt(Medium));
    RatingNeutral(cl, sectionKey, questionId, level, FailingAt(Low));
    RatingNeutral(cl, sectionKey, questionId, level, Failing());
  }

  /** The same for one of the five tallies, each of which only sees failed
      answers. */
  lemma RatingNeutral(cl: ContractChecklists, sectionKey: string, questionId: string, level: Option<RiskLevel>,
                      p: ((string, ContractItem)) -> bool)
    requires Distinct(Keys(cl))
    requires Distinct(Keys(SectionOrEmpty(cl, sectionKey)))
    requires ItemOrFresh(SectionOrEmpty(cl, sectionKey), questionId).status != Fail
    requires forall e: (string, ContractItem) :: p(e) ==> e.1.status == Fail
    ensures Tally(HandleChecklistChange(cl, sectionKey, questionId, SetRiskLevel(level)), p) == Tally(cl, p)
  {
    var sec := SectionOrEmpty(cl, sectionKey);
    var prior := ItemOrFresh(sec, questionId);
    var item := ApplyAnswer(prior, SetRiskLevel(level));
    var sec' := Assign(sec, questionId, item);
    CountAssignNeutral(sec, questionId, item, p);
    if sectionKey in Keys(cl) {
      var r := Put(cl, sectionKey, sec');
      forall i | 0 <= i < |cl|
        ensures Count(cl[i].1, p) == Count(r[i].1, p)
      {
        assert r[i] == if cl[i].0 == sectionKey then (sectionKey, sec') else cl[i];
        if cl[i].0 == sectionKey {
          LookupDistinct(cl, i);
        }
      }
      TallySame(cl, r, p);
    } else {
      var r := cl + [(sectionKey, sec')];
      assert r[..|cl|] == cl;
    }
  }

  // ---------------------------------------------------------------------------
  // Steps: one per section, then the summary page
  // ---------------------------------------------------------------------------

  /** `isLastStep`: the step after the last section shows the summary. */
  predicate IsLastStep(currentStep: int, sectionCount: nat)
  {
    currentStep == sectionCount
  }

  /** What the user can do: the sidebar's section entries and its summary
      entry, and the Next button under a section. */
  datatype StepEvent = SelectSection(index: int) | SelectSummary | NextSection

  /** One user action on `currentStep`; Next is only on a section page and
      the sidebar lists the sections. */
  function StepOf(currentStep: int, e: StepEvent, sectionCount: nat): (r: int)
    ensures 0 <= currentStep <= sectionCount ==> 0 <= r <= sectionCount
    ensures e.NextSection? && !IsLastStep(currentStep, sectionCount) ==> r == currentStep + 1
    ensures e == SelectSummary ==> IsLastStep(r, sectionCount)
  {
    match e
    case SelectSection(index) => if 0 <= index < sectionCount then index else currentStep
    case SelectSummary => sectionCount
    case NextSection => if IsLastStep(currentStep, sectionCount) then currentStep else currentStep + 1
  }

  /** A run of actions from some step. */
  function Steps(currentStep: int, events: seq<StepEvent>, sectionCount: nat): int
    decreases |events|
  {
    if events == [] then currentStep else Steps(StepOf(currentStep, events[0], sectionCount), events[1..], sectionCount)
  }

  /** From the first step every run stays within the sections and the
      summary page, so a step that is not the last always names a section. */
  lemma {:induction false} StepsInRange(currentStep: int, events: seq<StepEvent>, sectionCount: nat)
    requires 0 <= currentStep <= sectionCount
    ensures 0 <= Steps(currentStep, events, sectionCount) <= sectionCount
    ensures !IsLastStep(Steps(currentStep, events, sectionCount), sectionCount) ==>
      Steps(currentStep, events, sectionCount) < sectionCount
    decreases |events|
  {
    if events != [] {
      StepsInRange(StepOf(currentStep, events[0], sectionCount), events[1..], sectionCount);
    }
  }

  /** From step `k`, pressing Next `n` times reaches the summary exactly
      when `k + n` reaches the section count. */
  lemma {:induction false} NextReachesSummary(k: nat, n: nat, sectionCount: nat)
    requires k <= sectionCount
    ensures Steps(k, seq(n, _ => NextSection), sectionCount) == Min(k + n, sectionCount)
    ensures IsLastStep(Steps(k, seq(n, _ => NextSection), sectionCount), sectionCount) <==> k + n >= sectionCount
    decreases n
  {
    var events := seq(n, _ => NextSection);
    if n > 0 {
      assert events[0] == NextSection;
      assert events[1..] == seq(n - 1, _ => NextSection);
      NextReachesSummary(StepOf(k, NextSection, sectionCount), n - 1, sectionCount);
    }
  }

  /** Every wizard section edits a checklist the page starts with, so the
      page never adds a checklist. */
  lemma WizardSectionsHaveChecklists()
    ensures forall i :: 0 <= i < |WizardSections| ==> WizardSections[i].key in Keys(InitialChecklists)
  {
    assert Keys(InitialChecklists) == ["documentation", "scope", "financialRisk", "legalCompliance",
      "counterpartyRisk", "operationalPerformance", "lifecycleManagement"];
  }
}
