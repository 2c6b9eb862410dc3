/** The business risk audit's checklist data (src/constants/business-audit-data.ts)
    and the enumerations it uses (src/types/business-audit.ts): the factory for
    a fresh checklist item, the six initial checklists, the wizard's section
    list, the initial risk heat map and the severity weights. */
module BusinessAuditData {
  import opened Common

  // ---------------------------------------------------------------------------
  // Data model
  // ---------------------------------------------------------------------------

  datatype ComplianceStatus = Compliant | NonCompliant | Partial | NotApplicable | PendingReview

  datatype RiskSeverity = High | Medium | Low | Critical

  /** A checklist item. An optional field of the source is an `Option`; the
      review date is not modelled. */
  datatype ChecklistItem = ChecklistItem(
    id: string,
    question: string,
    isCompliant: bool,
    complianceStatus: Option<ComplianceStatus>,
    findings: string,
    severity: Option<RiskSeverity>,
    evidenceUrls: seq<string>,
    remarks: Option<string>,
    reviewedBy: Option<string>,
    legalReference: Option<string>)

  /** One checklist: item keys to items, in declaration order. */
  type Section = seq<(string, ChecklistItem)>

  /** The `checklists` object: section keys to checklists, in declaration order. */
  type Checklists = seq<(string, Section)>

  /** `createChecklistItem`: a fresh item awaiting review. The legal reference
      is shown as the item's remarks; the `legalReference` field itself stays
      unset. */
  function CreateChecklistItem(id: string, question: string, legalReference: Option<string>): (r: ChecklistItem)
    ensures r.id == id && r.question == question
    ensures !r.isCompliant && r.complianceStatus == Some(PendingReview)
    ensures r.findings == "" && r.severity.None? && r.evidenceUrls == []
    ensures r.remarks == Some(if legalReference.Some? then legalReference.value else "")
    ensures r.reviewedBy.None? && r.legalReference.None?
  {
    ChecklistItem(id, question, false, Some(PendingReview), "", None, [],
                  Some(if legalReference.Some? then legalReference.value else ""), None, None)
  }

  // ---------------------------------------------------------------------------
  // The initial checklists
  // ---------------------------------------------------------------------------

  /** The key and id of one `key: createChecklistItem(id, question, legalReference)`
      entry of a checklist literal. */
  datatype ItemSpec = ItemSpec(key: string, id: string)

  /** The question and legal reference of one entry. */
  datatype Wording = Wording(question: string, legalReference: string)

  /** The wording stored for an item id. Every id of the checklists below has
      one; the empty wording only makes the function total. */
  function WordingOf(wording: map<string, Wording>, id: string): Wording
  {
    if id in wording then wording[id] else Wording("", "")
  }

  /** The checklist object a list of entries builds, in their order, each item
      made by the factory with its wording. */
  function Build(rows: seq<ItemSpec>, wording: map<string, Wording>): (r: Section)
    ensures |r| == |rows|
    ensures forall i :: 0 <= i < |rows| ==> r[i] == (rows[i].key,
      CreateChecklistItem(rows[i].id, WordingOf(wording, rows[i].id).question,
                          Some(WordingOf(wording, rows[i].id).legalReference)))
  {
    seq(|rows|, i requires 0 <= i < |rows| => (rows[i].key,
      CreateChecklistItem(rows[i].id, WordingOf(wording, rows[i].id).question,
                          Some(WordingOf(wording, rows[i].id).legalReference))))
  }

  const DocumentationGovernanceRows: seq<ItemSpec> := [
    ItemSpec("executionStatus", "doc-execution"),
    ItemSpec("versionControl", "doc-version"),
    ItemSpec("digitalRepository", "doc-repository"),
    ItemSpec("signatoryVerification", "doc-signatory"),
    ItemSpec("stampDuty", "doc-stamp"),
    ItemSpec("annexureCompleteness", "doc-annexure")
  ]

  const FinancialRiskRows: seq<ItemSpec> := [
    ItemSpec("pricingAccuracy", "fin-pricing"),
    ItemSpec("paymentTerms", "fin-payment"),
    ItemSpec("penaltiesInterest", "fin-penalties"),
    ItemSpec("currencyRisk", "fin-currency"),
    ItemSpec("budgetAlignment", "fin-budget"),
    ItemSpec("taxCompliance", "fin-tax"),
    ItemSpec("priceEscalation", "fin-escalation")
  ]

  const LegalComplianceRows: seq<ItemSpec> := [
    ItemSpec("contractActCompliance", "legal-act"),
    ItemSpec("disputeResolution", "legal-dispute"),
    ItemSpec("terminationClauses", "legal-termination"),
    ItemSpec("jurisdiction", "legal-jurisdiction"),
    ItemSpec("indemnityClause", "legal-indemnity"),
    ItemSpec("confidentialityNDA", "legal-nda"),
    ItemSpec("forceMajeure", "legal-force-majeure"),
    ItemSpec("intellectualProperty", "legal-ip")
  ]

  const OperationalPerformanceRows: seq<ItemSpec> := [
    ItemSpec("deliveryTimelines", "ops-delivery"),
    ItemSpec("slaCompliance", "ops-sla"),
    ItemSpec("qualityStandards", "ops-quality"),
    ItemSpec("changeManagement", "ops-change"),
    ItemSpec("warrantyClauses", "ops-warranty"),
    ItemSpec("performanceReviews", "ops-reviews")
  ]

  const CounterpartyRiskRows: seq<ItemSpec> := [
    ItemSpec("creditworthiness", "cp-credit"),
    ItemSpec("financialStability", "cp-financial"),
    ItemSpec("marketReputation", "cp-reputation"),
    ItemSpec("pastPerformance", "cp-performance"),
    ItemSpec("insuranceCoverage", "cp-insurance"),
    ItemSpec("regulatoryCompliance", "cp-regulatory")
  ]

  const LifecycleManagementRows: seq<ItemSpec> := [
    ItemSpec("renewalDateTracking", "lm-renewal"),
    ItemSpec("exitStrategy", "lm-exit"),
    ItemSpec("dataReturnClause", "lm-data"),
    ItemSpec("postTerminationObligations", "lm-post-term"),
    ItemSpec("archivalProcedure", "lm-archival")
  ]

  /** The six checklists of `INITIAL_AUDIT_STATE`, in declaration order, for
      a given wording table. */
  function ChecklistsWith(wording: map<string, Wording>): Checklists
  {
    [
      ("documentationGovernance", Build(DocumentationGovernanceRows, wording)),
      ("financialRisk", Build(FinancialRiskRows, wording)),
      ("legalCompliance", Build(LegalComplianceRows, wording)),
      ("operationalPerformance", Build(OperationalPerformanceRows, wording)),
      ("counterpartyRisk", Build(CounterpartyRiskRows, wording)),
      ("lifecycleManagement", Build(LifecycleManagementRows, wording))
    ]
  }

  /** The question and legal reference of every item, by item id. */
  const ItemWording: map<string, Wording> := map[
    "doc-execution" := Wording(
      "Is the contract executed with free consent and competent signatories?",
      "Section 10 & 11 (Competency & Free Consent)"),
    "doc-version" := Wording(
      "Is the agreement certain and not void for uncertainty?",
      "Section 29 (Void for Uncertainty)"),
    "doc-repository" := Wording(
      "Is contract stored in a central digital repository with proper access controls?",
      "Best Practice - Document Management"),
    "doc-signatory" := Wording(
      "Are agents/signatories authorized to bind the principal?",
      "Section 188 (Agent Authority)"),
    "doc-stamp" := Wording(
      "Is stamp duty paid as per Indian Stamp Act provisions?",
      "Indian Stamp Act, 1899"),
    "doc-annexure" := Wording(
      "Are all annexures, schedules, and exhibits properly attached and referenced?",
      "Best Practice - Contractual Completeness"),
    "fin-pricing" := Wording(
      "Is the consideration (price) clearly defined and valid?",
      "Section 25 (Agreement without consideration is void)"),
    "fin-payment" := Wording(
      "Are payment milestones, schedules, and modes of payment clearly documented?",
      "Section 73 (Compensation for loss or damage)"),
    "fin-penalties" := Wording(
      "Are penalty/liquidated damage clauses reasonable?",
      "Section 74 (Compensation for breach with penalty)"),
    "fin-currency" := Wording(
      "Is foreign exchange exposure documented and hedging mechanisms in place?",
      "FEMA (Foreign Exchange Management Act)"),
    "fin-budget" := Wording(
      "Does the contract value align with sanctioned budget and financial approvals?",
      "Internal Financial Controls"),
    "fin-tax" := Wording(
      "Are GST, TDS, and other tax provisions correctly incorporated?",
      "GST Act 2017, Income Tax Act 1961"),
    "fin-escalation" := Wording(
      "Is price revision/escalation mechanism clearly defined and formulaic?",
      "Best Practice - Price Adjustment Clauses"),
    "legal-act" := Wording(
      "Is the contract lawful and not opposed to public policy?",
      "Section 23 (Lawful consideration and object)"),
    "legal-dispute" := Wording(
      "Does the contract restrict legal proceedings (Arbitration exception)?",
      "Section 28 (Restraint of legal proceedings)"),
    "legal-termination" := Wording(
      "Are termination rights, notice periods, and exit liabilities clearly defined?",
      "Section 39 (Effect of rescission of voidable contract)"),
    "legal-jurisdiction" := Wording(
      "Is governing law and jurisdiction for dispute resolution clearly stated?",
      "Code of Civil Procedure, 1908"),
    "legal-indemnity" := Wording(
      "Is there a valid Indemnity clause?",
      "Section 124 (Contract of Indemnity)"),
    "legal-nda" := Wording(
      "Is confidentiality and non-disclosure clause adequate and enforceable?",
      "Section 27 (Restraint of trade exceptions)"),
    "legal-force-majeure" := Wording(
      "Is Force Majeure (Doctrine of Frustration) included?",
      "Section 56 (Agreement to do impossible act)"),
    "legal-ip" := Wording(
      "Are intellectual property rights clearly assigned or licensed?",
      "Indian Copyright Act, Patents Act, Trademarks Act"),
    "ops-delivery" := Wording(
      "Are delivery timelines defined (Time is of the essence)?",
      "Section 55 (Effect of failure to perform at fixed time)"),
    "ops-sla" := Wording(
      "Are Service Level Agreements (SLAs) with measurable KPIs defined?",
      "Best Practice - Performance Standards"),
    "ops-quality" := Wording(
      "Are quality testing, inspection, and acceptance criteria documented?",
      "Best Practice - Quality Assurance"),
    "ops-change" := Wording(
      "Is change request and variation order process clearly defined?",
      "Best Practice - Scope Change Management"),
    "ops-warranty" := Wording(
      "Are warranty, guarantee, and defect liability periods specified?",
      "Sale of Goods Act, 1930 - Implied Warranties"),
    "ops-reviews" := Wording(
      "Are obligations to perform clearly stated?",
      "Section 37 (Obligation of parties)"),
    "cp-credit" := Wording(
      "Is counterparty credit rating assessed and acceptable?",
      "Best Practice - Credit Risk Assessment"),
    "cp-financial" := Wording(
      "Are financial statements, turnover, and net worth reviewed?",
      "Best Practice - Financial Due Diligence"),
    "cp-reputation" := Wording(
      "Is market reputation, track record, and references verified?",
      "Best Practice - Vendor/Customer Evaluation"),
    "cp-performance" := Wording(
      "Is historical performance and past contract compliance reviewed?",
      "Best Practice - Performance History"),
    "cp-insurance" := Wording(
      "Does counterparty have adequate insurance (liability, professional indemnity)?",
      "Best Practice - Risk Transfer via Insurance"),
    "cp-regulatory" := Wording(
      "Are necessary licenses, registrations, and statutory compliances verified?",
      "Various Acts - Licensing Requirements"),
    "lm-renewal" := Wording(
      "Is renewal date tracked with automated alerts and approval workflows?",
      "Best Practice - Contract Lifecycle Management"),
    "lm-exit" := Wording(
      "Is exit/transition plan and knowledge transfer documented?",
      "Best Practice - Exit Management"),
    "lm-data" := Wording(
      "Are data return, destruction, and confidentiality post-termination obligations clear?",
      "IT Act 2000, Data Protection Laws"),
    "lm-post-term" := Wording(
      "Are surviving obligations (warranties, indemnities) beyond termination defined?",
      "Best Practice - Post-Termination Rights"),
    "lm-archival" := Wording(
      "Is contract archived with required retention period as per policy?",
      "Best Practice - Document Retention Policy")
  ]

  /** The `checklists` of `INITIAL_AUDIT_STATE`. The lemmas below are stated
      for `ChecklistsWith(w)` with any wording table `w`: no property proved
      here depends on the wording. */
  const InitialChecklists: Checklists := ChecklistsWith(ItemWording)

  // ---------------------------------------------------------------------------
  // Wizard sections, heat map, weights
  // ---------------------------------------------------------------------------

  datatype SectionMeta = SectionMeta(key: string, title: string, description: string, icon: string, itemCount: nat)

  /** `AUDIT_SECTIONS`: the wizard's steps, in order. */
  const AuditSections: seq<SectionMeta> := [
    SectionMeta("documentationGovernance", "A. Documentation & Governance",
      "Contract execution, version control, and document management", "FileText", 6),
    SectionMeta("financialRisk", "B. Financial Risk",
      "Pricing, payment terms, penalties, and tax compliance", "DollarSign", 7),
    SectionMeta("legalCompliance", "C. Legal & Compliance",
      "Indian Contract Act adherence and regulatory compliance", "Scale", 8),
    SectionMeta("operationalPerformance", "D. Operational & Performance",
      "Delivery timelines, SLAs, and quality standards", "TrendingUp", 6),
    SectionMeta("counterpartyRisk", "E. Counterparty Risk",
      "Financial stability and creditworthiness assessment", "Users", 6),
    SectionMeta("lifecycleManagement", "F. Lifecycle Management",
      "Renewal tracking, exit strategy, and archival", "RefreshCw", 5)
  ]

  datatype CategoryRiskCount = CategoryRiskCount(categoryName: string, high: nat, medium: nat, low: nat, critical: nat, total: nat)

  datatype RiskLevel = HighRisk | MediumRisk | LowRisk

  datatype RiskHeatMap = RiskHeatMap(
    high: nat, medium: nat, low: nat, critical: nat, total: nat,
    categoryBreakdown: seq<CategoryRiskCount>,
    overallRiskLevel: RiskLevel)

  function ZeroCategory(name: string): CategoryRiskCount
  {
    CategoryRiskCount(name, 0, 0, 0, 0, 0)
  }

  /** `INITIAL_RISK_HEAT_MAP`. Its category names carry no section letter. */
  const InitialRiskHeatMap: RiskHeatMap := RiskHeatMap(0, 0, 0, 0, 0, [
    ZeroCategory("Documentation & Governance"),
    ZeroCategory("Financial Risk"),
    ZeroCategory("Legal & Compliance"),
    ZeroCategory("Operational Performance"),
    ZeroCategory("Counterparty Risk"),
    ZeroCategory("Lifecycle Management")
  ], LowRisk)

  /** `RISK_SEVERITY_WEIGHTS`. */
  function Weight(s: RiskSeverity): nat
  {
    match s
    case Critical => 10
    case High => 5
    case Medium => 2
    case Low => 1
  }

  /** The weights are positive and strictly decreasing from critical to low. */
  lemma WeightsDecreasing()
    ensures Weight(Critical) > Weight(High) > Weight(Medium) > Weight(Low) > 0
  {
  }

  // ---------------------------------------------------------------------------
  // Shape of the initial state
  // ---------------------------------------------------------------------------

  function SectionKeys(sections: seq<SectionMeta>): (r: seq<string>)
    ensures |r| == |sections|
    ensures forall i :: 0 <= i < |sections| ==> r[i] == sections[i].key
  {
    seq(|sections|, i requires 0 <= i < |sections| => sections[i].key)
  }

  /** The wizard's sections name the checklists in their declared order, and
      each announces as many items as its checklist has. */
  lemma SectionsMatchChecklists(wording: map<string, Wording>)
    ensures SectionKeys(AuditSections) == Keys(ChecklistsWith(wording))
    ensures forall i :: 0 <= i < |AuditSections| ==>
      AuditSections[i].itemCount == |ChecklistsWith(wording)[i].1|
  {
  }

  /** Every item of a checklist is fresh: pending review, without a severity. */
  predicate AllPending(sec: Section)
  {
    forall j :: 0 <= j < |sec| ==> sec[j].1.complianceStatus == Some(PendingReview) && sec[j].1.severity.None?
  }

  /** Every item of the initial checklists is pending review, without a
      severity. */
  lemma InitialItemsPending(wording: map<string, Wording>)
    ensures forall i :: 0 <= i < |ChecklistsWith(wording)| ==> AllPending(ChecklistsWith(wording)[i].1)
  {
  }

  // ---------------------------------------------------------------------------
  // Item ids
  // ---------------------------------------------------------------------------

  function Ids(sec: Section): (r: seq<string>)
    ensures |r| == |sec|
    ensures forall i :: 0 <= i < |sec| ==> r[i] == sec[i].1.id
  {
    seq(|sec|, i requires 0 <= i < |sec| => sec[i].1.id)
  }

  function RowIds(rows: seq<ItemSpec>): (r: seq<string>)
    ensures |r| == |rows|
    ensures forall i :: 0 <= i < |rows| ==> r[i] == rows[i].id
  {
    seq(|rows|, i requires 0 <= i < |rows| => rows[i].id)
  }

  function Flatten(ss: seq<seq<string>>): seq<string>
  {
    if ss == [] then [] else Flatten(ss[..|ss| - 1]) + ss[|ss| - 1]
  }

  /** The ids of every item of every checklist, checklist by checklist. */
  function AllIds(cl: Checklists): seq<string>
  {
    Flatten(seq(|cl|, i requires 0 <= i < |cl| => Ids(cl[i].1)))
  }

  /** Ids that are pairwise distinct and all begin with one prefix. */
  predicate Tagged(ids: seq<string>, prefix: string)
  {
    Distinct(ids) && forall i :: 0 <= i < |ids| ==> StartsWith(ids[i], prefix)
  }

  /** Two prefixes neither of which begins the other: no string has both. */
  predicate Apart(p: string, q: string)
  {
    !StartsWith(p, q) && !StartsWith(q, p)
  }

  lemma PrefixesNotApart(x: string, p: string, q: string)
    requires StartsWith(x, p) && StartsWith(x, q)
    ensures !Apart(p, q)
  {
    if |p| <= |q| {
      assert q[..|p|] == x[..|p|];
    } else {
      assert p[..|q|] == x[..|q|];
    }
  }

  /** Blocks of ids, each duplicate-free under its own prefix, with prefixes
      pairwise apart, concatenate to a duplicate-free list. */
  lemma {:induction false} FlattenDistinct(blocks: seq<seq<string>>, prefixes: seq<string>)
    requires |blocks| == |prefixes|
    requires forall i :: 0 <= i < |blocks| ==> Tagged(blocks[i], prefixes[i])
    requires forall i, j :: 0 <= i < j < |prefixes| ==> Apart(prefixes[i], prefixes[j])
    ensures Distinct(Flatten(blocks))
    ensures forall x :: x in Flatten(blocks) ==> exists i :: 0 <= i < |blocks| && StartsWith(x, prefixes[i])
  {
    if blocks != [] {
      var n := |blocks| - 1;
      var init, last := blocks[..n], blocks[n];
      FlattenDistinct(init, prefixes[..n]);
      var f := Flatten(init);
      assert Flatten(blocks) == f + last;
      forall a, b | 0 <= a < b < |f + last|
        ensures (f + last)[a] != (f + last)[b]
      {
        if a < |f| <= b {
          var x := f[a];
          assert x in f;
          var i :| 0 <= i < n && StartsWith(x, prefixes[..n][i]);
          if x == last[b - |f|] {
            PrefixesNotApart(x, prefixes[i], prefixes[n]);
          }
        }
      }
    }
  }

  /** The ids of a built checklist are those of its entries. */
  lemma BuildIds(rows: seq<ItemSpec>, wording: map<string, Wording>)
    ensures Ids(Build(rows, wording)) == RowIds(rows)
  {
  }

  lemma DocumentationGovernanceIds()
    ensures Tagged(RowIds(DocumentationGovernanceRows), "doc-")
  {
    assert RowIds(DocumentationGovernanceRows) ==
      ["doc-execution", "doc-version", "doc-repository", "doc-signatory", "doc-stamp", "doc-annexure"];
  }

  lemma FinancialRiskIds()
    ensures Tagged(RowIds(FinancialRiskRows), "fin-")
  {
    assert RowIds(FinancialRiskRows) ==
      ["fin-pricing", "fin-payment", "fin-penalties", "fin-currency", "fin-budget", "fin-tax", "fin-escalation"];
  }

  lemma LegalComplianceIds()
    ensures Tagged(RowIds(LegalComplianceRows), "legal-")
  {
    assert RowIds(LegalComplianceRows) ==
      ["legal-act", "legal-dispute", "legal-termination", "legal-jurisdiction", "legal-indemnity",
       "legal-nda", "legal-force-majeure", "legal-ip"];
  }

  lemma OperationalPerformanceIds()
    ensures Tagged(RowIds(OperationalPerformanceRows), "ops-")
  {
    assert RowIds(OperationalPerformanceRows) ==
      ["ops-delivery", "ops-sla", "ops-quality", "ops-change", "ops-warranty", "ops-reviews"];
  }

  lemma CounterpartyRiskIds()
    ensures Tagged(RowIds(CounterpartyRiskRows), "cp-")
  {
    assert RowIds(CounterpartyRiskRows) ==
      ["cp-credit", "cp-financial", "cp-reputation", "cp-performance", "cp-insurance", "cp-regulatory"];
  }

  lemma LifecycleManagementIds()
    ensures Tagged(RowIds(LifecycleManagementRows), "lm-")
  {
    assert RowIds(LifecycleManagementRows) ==
      ["lm-renewal", "lm-exit", "lm-data", "lm-post-term", "lm-archival"];
  }

  /** The section prefixes of the ids: no one begins another. */
  const IdPrefixes: seq<string> := ["doc-", "fin-", "legal-", "ops-", "cp-", "lm-"]

  lemma IdPrefixesApart()
    ensures forall i, j :: 0 <= i < j < |IdPrefixes| ==> Apart(IdPrefixes[i], IdPrefixes[j])
  {
    forall i, j | 0 <= i < j < |IdPrefixes|
      ensures Apart(IdPrefixes[i], IdPrefixes[j])
    {
      var p, q := IdPrefixes[i], IdPrefixes[j];
      if p[0] != q[0] {
        ApartAt(p, q, 0);
      } else {
        ApartAt(p, q, 1);
      }
    }
  }

  /** Prefixes that differ at a position both have are apart. */
  lemma ApartAt(p: string, q: string, k: nat)
    requires k < |p| && k < |q| && p[k] != q[k]
    ensures Apart(p, q)
  {
  }

  /** The item ids are pairwise distinct, so the wizard can key the rendered
      items by id. */
  lemma ItemIdsDistinct(wording: map<string, Wording>)
    ensures Distinct(AllIds(ChecklistsWith(wording)))
  {
    var cl := ChecklistsWith(wording);
    var blocks := seq(|cl|, i requires 0 <= i < |cl| => Ids(cl[i].1));
    BuildIds(DocumentationGovernanceRows, wording);
    BuildIds(FinancialRiskRows, wording);
    BuildIds(LegalComplianceRows, wording);
    BuildIds(OperationalPerformanceRows, wording);
    BuildIds(CounterpartyRiskRows, wording);
    BuildIds(LifecycleManagementRows, wording);
    DocumentationGovernanceIds();
    FinancialRiskIds();
    LegalComplianceIds();
    OperationalPerformanceIds();
    CounterpartyRiskIds();
    LifecycleManagementIds();
    IdPrefixesApart();
    assert forall i :: 0 <= i < |blocks| ==> Tagged(blocks[i], IdPrefixes[i]);
    FlattenDistinct(blocks, IdPrefixes);
  }
}
