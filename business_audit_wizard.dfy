/** The business risk audit wizard (src/components/BusinessAuditWizard.jsx):
    the risk heat map recomputed from the checklists, the update of one
    checklist item, and the navigation between the wizard's sections. */
module BusinessAuditWizard {
  import opened Common
  import opened BusinessAuditData

  // ---------------------------------------------------------------------------
  // What the heat map counts
  // ---------------------------------------------------------------------------

  /** An item is counted under a severity when it is non-compliant and has
      that severity; an item without a severity is not counted at all. */
  predicate Flagged(item: ChecklistItem, s: RiskSeverity)
  {
    item.complianceStatus == Some(NonCompliant) && item.severity == Some(s)
  }

  function FlaggedAs(s: RiskSeverity): ((string, ChecklistItem)) -> bool
  {
    (e: (string, ChecklistItem)) => Flagged(e.1, s)
  }

  /** The items of one checklist counted under a severity. */
  function SectionCount(sec: Section, s: RiskSeverity): nat
  {
    Count(sec, FlaggedAs(s))
  }

  /** The items of all checklists counted under a severity. */
  function TotalCount(cl: Checklists, s: RiskSeverity): nat
  {
    if cl == [] then 0 else TotalCount(cl[..|cl| - 1], s) + SectionCount(cl[|cl| - 1].1, s)
  }

  /** `AUDIT_SECTIONS.find(s => s.key === key)`. */
  function FindSection(sections: seq<SectionMeta>, key: string): (r: Option<SectionMeta>)
    ensures r.Some? ==> r.value in sections && r.value.key == key
    ensures r.None? <==> forall i :: 0 <= i < |sections| ==> sections[i].key != key
  {
    if sections == [] then None
    else if sections[0].key == key then Some(sections[0])
    else FindSection(sections[1..], key)
  }

  /** The breakdown entry of one checklist, under its section's title. */
  function Category(title: string, sec: Section): CategoryRiskCount
  {
    var h, m, l, c := SectionCount(sec, High), SectionCount(sec, Medium), SectionCount(sec, Low), SectionCount(sec, Critical);
    CategoryRiskCount(title, h, m, l, c, c + h + m + l)
  }

  /** A checklist whose key names a wizard section. */
  function Known(sections: seq<SectionMeta>): ((string, Section)) -> bool
  {
    (e: (string, Section)) => FindSection(sections, e.0).Some?
  }

  /** One entry per checklist whose key names a wizard section, in checklist
      order. */
  function Breakdown(cl: Checklists, sections: seq<SectionMeta>): seq<CategoryRiskCount>
  {
    if cl == [] then []
    else
      var last := cl[|cl| - 1];
      var meta := FindSection(sections, last.0);
      Breakdown(cl[..|cl| - 1], sections) + (if meta.Some? then [Category(meta.value.title, last.1)] else [])
  }

  /** The overall risk level: high on any critical item or more than two high
      ones, else medium on more than five medium ones, else low. */
  function OverallRiskLevel(critical: nat, high: nat, medium: nat): (r: RiskLevel)
    ensures r == HighRisk <==> critical > 0 || high > 2
    ensures r == MediumRisk <==> critical == 0 && high <= 2 && medium > 5
    ensures r == LowRisk <==> critical == 0 && high <= 2 && medium <= 5
  {
    if critical > 0 || high > 2 then HighRisk
    else if medium > 5 then MediumRisk
    else LowRisk
  }

  /** The heat map `calculateRiskSummary` stores for some checklists, given
      the wizard's sections. */
  function RiskSummary(cl: Checklists, sections: seq<SectionMeta>): RiskHeatMap
  {
    var h, m, l, c := TotalCount(cl, High), TotalCount(cl, Medium), TotalCount(cl, Low), TotalCount(cl, Critical);
    RiskHeatMap(h, m, l, c, c + h + m + l, Breakdown(cl, sections), OverallRiskLevel(c, h, m))
  }

  // ---------------------------------------------------------------------------
  // calculateRiskSummary
  // ---------------------------------------------------------------------------

  /** `calculateRiskSummary`: one pass over the checklists and their items,
      counting flagged items globally and per checklist, then one breakdown
      entry per checklist that names a wizard section. The page passes
      `AUDIT_SECTIONS` as `sections`. */
  method CalculateRiskSummary(checklists: Checklists, sections: seq<SectionMeta>) returns (heatMap: RiskHeatMap)
    ensures heatMap == RiskSummary(checklists, sections)
  {
    var high, medium, low, critical := 0, 0, 0, 0;
    var categoryBreakdown: seq<CategoryRiskCount> := [];
    var i := 0;
    while i < |checklists|
      invariant 0 <= i <= |checklists|
      invariant Counted(checklists[..i], high, medium, low, critical)
      invariant categoryBreakdown == Breakdown(checklists[..i], sections)
    {
      var categoryKey, category := checklists[i].0, checklists[i].1;
      var catHigh, catMedium, catLow, catCritical := 0, 0, 0, 0;
      var j := 0;
      while j < |category|
        invariant 0 <= j <= |category|
        invariant CountedIn(category[..j], catHigh, catMedium, catLow, catCritical)
        invariant high == TotalCount(checklists[..i], High) + catHigh
        invariant medium == TotalCount(checklists[..i], Medium) + catMedium
        invariant low == TotalCount(checklists[..i], Low) + catLow
        invariant critical == TotalCount(checklists[..i], Critical) + catCritical
      {
        var item := category[j].1;
        ghost var h0, m0, l0, c0 := catHigh, catMedium, catLow, catCritical;
        if item.complianceStatus == Some(NonCompliant) && item.severity.Some? {
          match item.severity.value
          case Critical =>
            critical := critical + 1;
            catCritical := catCritical + 1;
          case High =>
            high := high + 1;
            catHigh := catHigh + 1;
          case Medium =>
            medium := medium + 1;
            catMedium := catMedium + 1;
          case Low =>
            low := low + 1;
            catLow := catLow + 1;
        }
        ItemStep(category, j, h0, m0, l0, c0, catHigh, catMedium, catLow, catCritical);
        j := j + 1;
      }
      assert category[..j] == category;
      ChecklistStep(checklists, i, high - catHigh, medium - catMedium, low - catLow, critical - catCritical,
                    catHigh, catMedium, catLow, catCritical);
      var sectionMeta := FindSection(sections, categoryKey);
      if sectionMeta.Some? {
        var entry := CategoryRiskCount(sectionMeta.value.title,
          catHigh, catMedium, catLow, catCritical, catCritical + catHigh + catMedium + catLow);
        assert entry == Category(sectionMeta.value.title, category);
        categoryBreakdown := categoryBreakdown + [entry];
      }
      BreakdownStep(checklists, sections, i);
      i := i + 1;
    }
    assert checklists[..i] == checklists;
    var total := critical + high + medium + low;
    heatMap := RiskHeatMap(critical := critical, high := high, medium := medium, low := low, total := total,
                           categoryBreakdown := categoryBreakdown,
                           overallRiskLevel := OverallRiskLevel(critical, high, medium));
  }

  /** The four counters hold the flagged items of one checklist. */
  predicate CountedIn(sec: Section, high: nat, medium: nat, low: nat, critical: nat)
  {
    high == SectionCount(sec, High) && medium == SectionCount(sec, Medium) &&
    low == SectionCount(sec, Low) && critical == SectionCount(sec, Critical)
  }

  /** The four counters hold the flagged items of some checklists. */
  predicate Counted(cl: Checklists, high: nat, medium: nat, low: nat, critical: nat)
  {
    high == TotalCount(cl, High) && medium == TotalCount(cl, Medium) &&
    low == TotalCount(cl, Low) && critical == TotalCount(cl, Critical)
  }

  /** Counting one more item: the counter of its severity goes up when it is
      flagged, and the others stay. */
  lemma ItemStep(sec: Section, j: nat, h: nat, m: nat, l: nat, c: nat, h': nat, m': nat, l': nat, c': nat)
    requires j < |sec| && CountedIn(sec[..j], h, m, l, c)
    requires h' == h + (if Flagged(sec[j].1, High) then 1 else 0)
    requires m' == m + (if Flagged(sec[j].1, Medium) then 1 else 0)
    requires l' == l + (if Flagged(sec[j].1, Low) then 1 else 0)
    requires c' == c + (if Flagged(sec[j].1, Critical) then 1 else 0)
    ensures CountedIn(sec[..j + 1], h', m', l', c')
  {
    assert sec[..j + 1][..j] == sec[..j];
  }

  /** Counting one more checklist adds its own counts. */
  lemma ChecklistStep(cl: Checklists, i: nat, h: nat, m: nat, l: nat, c: nat, ch: nat, cm: nat, cl': nat, cc: nat)
    requires i < |cl| && Counted(cl[..i], h, m, l, c) && CountedIn(cl[i].1, ch, cm, cl', cc)
    ensures Counted(cl[..i + 1], h + ch, m + cm, l + cl', c + cc)
  {
    assert cl[..i + 1][..i] == cl[..i];
  }

  /** One more checklist adds its entry when its key names a wizard section. */
  lemma BreakdownStep(cl: Checklists, sections: seq<SectionMeta>, i: nat)
    requires i < |cl|
    ensures var meta := FindSection(sections, cl[i].0);
      Breakdown(cl[..i + 1], sections) == Breakdown(cl[..i], sections) + (if meta.Some? then [Category(meta.value.title, cl[i].1)] else [])
  {
    assert cl[..i + 1][..i] == cl[..i];
  }

  // ---------------------------------------------------------------------------
  // Properties of the heat map
  // ---------------------------------------------------------------------------

  /** Flagged under any of the four severities. */
  function FlaggedAny(sevs: seq<RiskSeverity>): ((string, ChecklistItem)) -> bool
  {
    (e: (string, ChecklistItem)) =>
      e.1.complianceStatus == Some(NonCompliant) && e.1.severity.Some? && e.1.severity.value in sevs
  }

  /** An item is counted under at most one severity, so one checklist's four
      counts add up to at most its number of items. */
  lemma SectionFlaggedBound(sec: Section)
    ensures SectionCount(sec, Critical) + SectionCount(sec, High) + SectionCount(sec, Medium) + SectionCount(sec, Low) <= |sec|
  {
    CountDisjoint(sec, FlaggedAs(Critical), FlaggedAs(High), FlaggedAny([Critical, High]));
    CountDisjoint(sec, FlaggedAny([Critical, High]), FlaggedAs(Medium), FlaggedAny([Critical, High, Medium]));
    CountDisjoint(sec, FlaggedAny([Critical, High, Medium]), FlaggedAs(Low), FlaggedAny([Critical, High, Medium, Low]));
  }

  /** The number of items over all checklists. */
  function ItemTotal(cl: Checklists): nat
  {
    if cl == [] then 0 else ItemTotal(cl[..|cl| - 1]) + |cl[|cl| - 1].1|
  }

  /** The heat map's total is at most the number of items: each item is
      counted at most once. */
  lemma {:induction false} TotalBounded(cl: Checklists, sections: seq<SectionMeta>)
    ensures RiskSummary(cl, sections).total <= ItemTotal(cl)
  {
    if cl != [] {
      TotalBounded(cl[..|cl| - 1], sections);
      SectionFlaggedBound(cl[|cl| - 1].1);
    }
  }

  /** The sum of the breakdown's category totals. */
  function CategoryTotals(bd: seq<CategoryRiskCount>): nat
  {
    if bd == [] then 0 else CategoryTotals(bd[..|bd| - 1]) + bd[|bd| - 1].total
  }

  /** The breakdown has one entry per checklist whose key names a section. */
  lemma {:induction false} BreakdownLength(cl: Checklists, sections: seq<SectionMeta>)
    ensures |Breakdown(cl, sections)| == Count(cl, Known(sections))
  {
    if cl != [] {
      BreakdownLength(cl[..|cl| - 1], sections);
    }
  }

  /** Each breakdown entry's total is the sum of its four counts. */
  lemma {:induction false} BreakdownEntryTotals(cl: Checklists, sections: seq<SectionMeta>)
    ensures forall k :: 0 <= k < |Breakdown(cl, sections)| ==>
      Breakdown(cl, sections)[k].total ==
        Breakdown(cl, sections)[k].critical + Breakdown(cl, sections)[k].high +
        Breakdown(cl, sections)[k].medium + Breakdown(cl, sections)[k].low
  {
    if cl != [] {
      BreakdownEntryTotals(cl[..|cl| - 1], sections);
    }
  }

  /** The counts of one checklist, added up. */
  function SectionFlagged(sec: Section): nat
  {
    SectionCount(sec, Critical) + SectionCount(sec, High) + SectionCount(sec, Medium) + SectionCount(sec, Low)
  }

  /** The entries' totals add up to at most the heat map's total (the items
      of checklists no section names are left out of the breakdown), and to
      exactly that total when every checklist names a section. */
  lemma {:induction false} BreakdownTotals(cl: Checklists, sections: seq<SectionMeta>)
    ensures CategoryTotals(Breakdown(cl, sections)) <= RiskSummary(cl, sections).total
    ensures (forall i :: 0 <= i < |cl| ==> FindSection(sections, cl[i].0).Some?) ==>
      CategoryTotals(Breakdown(cl, sections)) == RiskSummary(cl, sections).total
  {
    if cl != [] {
      var init, last := cl[..|cl| - 1], cl[|cl| - 1];
      BreakdownTotals(init, sections);
      assert RiskSummary(cl, sections).total == RiskSummary(init, sections).total + SectionFlagged(last.1);
      var bd0 := Breakdown(init, sections);
      var meta := FindSection(sections, last.0);
      if meta.Some? {
        var bd := bd0 + [Category(meta.value.title, last.1)];
        assert bd[..|bd| - 1] == bd0;
        assert CategoryTotals(bd) == CategoryTotals(bd0) + SectionFlagged(last.1);
        assert Breakdown(cl, sections) == bd;
      } else {
        assert Breakdown(cl, sections) == bd0 + [];
        assert bd0 + [] == bd0;
      }
      assert forall i :: 0 <= i < |init| ==> init[i] == cl[i];
    }
  }

  /** No item of a checklist of fresh items is counted. */
  lemma PendingUncounted(sec: Section, s: RiskSeverity)
    requires AllPending(sec)
    ensures SectionCount(sec, s) == 0
  {
    CountNone(sec, FlaggedAs(s));
  }

  lemma {:induction false} PendingTotals(cl: Checklists, s: RiskSeverity)
    requires forall i :: 0 <= i < |cl| ==> AllPending(cl[i].1)
    ensures TotalCount(cl, s) == 0
  {
    if cl != [] {
      PendingTotals(cl[..|cl| - 1], s);
      PendingUncounted(cl[|cl| - 1].1, s);
    }
  }

  /** `find` on distinct keys returns the section that has the key. */
  lemma {:induction false} FindDistinct(sections: seq<SectionMeta>, i: nat)
    requires i < |sections| && Distinct(SectionKeys(sections))
    ensures FindSection(sections, sections[i].key) == Some(sections[i])
  {
    if i > 0 {
      assert SectionKeys(sections[1..]) == SectionKeys(sections)[1..];
      assert sections[0].key != sections[i].key;
      FindDistinct(sections[1..], i - 1);
    }
  }

  /** Checklists of fresh items, each found as the section at its own
      position, break down into one all-zero entry per section, under its
      title. */
  lemma {:induction false} FreshBreakdown(cl: Checklists, sections: seq<SectionMeta>)
    requires |cl| <= |sections|
    requires forall i :: 0 <= i < |cl| ==> FindSection(sections, cl[i].0) == Some(sections[i])
    requires forall i :: 0 <= i < |cl| ==> AllPending(cl[i].1)
    ensures |Breakdown(cl, sections)| == |cl|
    ensures forall i :: 0 <= i < |cl| ==> Breakdown(cl, sections)[i] == ZeroCategory(sections[i].title)
  {
    if cl != [] {
      var n := |cl| - 1;
      var init := cl[..n];
      assert forall i :: 0 <= i < n ==> init[i] == cl[i];
      FreshBreakdown(init, sections);
      FreshEntry(cl[n].1, sections[n].title);
      assert FindSection(sections, cl[n].0) == Some(sections[n]);
      var bd := Breakdown(cl, sections);
      assert bd == Breakdown(init, sections) + [ZeroCategory(sections[n].title)];
      forall i | 0 <= i < |cl|
        ensures bd[i] == ZeroCategory(sections[i].title)
      {
        if i < n {
          assert bd[i] == Breakdown(init, sections)[i];
        }
      }
    }
  }

  /** A checklist of fresh items gives a zero entry. */
  lemma FreshEntry(sec: Section, title: string)
    requires AllPending(sec)
    ensures Category(title, sec) == ZeroCategory(title)
  {
    PendingUncounted(sec, High);
    PendingUncounted(sec, Medium);
    PendingUncounted(sec, Low);
    PendingUncounted(sec, Critical);
  }


  lemma SectionKeysDistinct()
    ensures Distinct(SectionKeys(AuditSections))
  {
    assert SectionKeys(AuditSections) == ["documentationGovernance", "financialRisk", "legalCompliance",
      "operationalPerformance", "counterpartyRisk", "lifecycleManagement"];
  }

  /** A heat map with every count zero, a low level, and one zero entry per
      section under the section's title. */
  predicate ZeroHeatMap(hm: RiskHeatMap, sections: seq<SectionMeta>)
  {
    && hm.critical == hm.high == hm.medium == hm.low == hm.total == 0
    && hm.overallRiskLevel == LowRisk
    && |hm.categoryBreakdown| == |sections|
    && forall i :: 0 <= i < |sections| ==> hm.categoryBreakdown[i] == ZeroCategory(sections[i].title)
  }

  /** Checklists of fresh items, one per section in section order, give the
      zero heat map. */
  lemma FreshSummary(cl: Checklists, sections: seq<SectionMeta>)
    requires |cl| == |sections|
    requires forall i :: 0 <= i < |cl| ==> FindSection(sections, cl[i].0) == Some(sections[i])
    requires forall i :: 0 <= i < |cl| ==> AllPending(cl[i].1)
    ensures ZeroHeatMap(RiskSummary(cl, sections), sections)
  {
    PendingTotals(cl, High);
    PendingTotals(cl, Medium);
    PendingTotals(cl, Low);
    PendingTotals(cl, Critical);
    FreshBreakdown(cl, sections);
  }

  /** Recomputing the heat map on the initial checklists gives the zero heat
      map over the wizard's sections. */
  lemma InitialHeatMapRecomputed(wording: map<string, Wording>)
    ensures ZeroHeatMap(RiskSummary(ChecklistsWith(wording), AuditSections), AuditSections)
  {
    var cl := ChecklistsWith(wording);
    SectionsMatchChecklists(wording);
    InitialItemsPending(wording);
    SectionKeysDistinct();
    forall i | 0 <= i < |cl|
      ensures FindSection(AuditSections, cl[i].0) == Some(AuditSections[i])
    {
      FindDistinct(AuditSections, i);
    }
    FreshSummary(cl, AuditSections);
  }

  /** `INITIAL_RISK_HEAT_MAP` agrees with that recomputation in every count
      and in its level, which is the level rule applied to zeros; only its
      category names differ: they lack the sections' letters. */
  lemma InitialHeatMapMatchesRule()
    ensures var hm := InitialRiskHeatMap;
      && hm.critical == hm.high == hm.medium == hm.low == hm.total == 0
      && hm.overallRiskLevel == OverallRiskLevel(0, 0, 0)
      && |hm.categoryBreakdown| == |AuditSections|
      && forall i :: 0 <= i < |AuditSections| ==>
           hm.categoryBreakdown[i].(categoryName := AuditSections[i].title) == ZeroCategory(AuditSections[i].title) &&
           hm.categoryBreakdown[i].categoryName != AuditSections[i].title
  {
  }

  // ---------------------------------------------------------------------------
  // handleChecklistItemChange
  // ---------------------------------------------------------------------------

  /** The three fields the page edits: the compliance select, the severity
      select (its empty option is `None`) and the findings text. */
  datatype FieldChange =
    | SetStatus(status: ComplianceStatus)
    | SetSeverity(severity: Option<RiskSeverity>)
    | SetFindings(findings: string)

  /** One field written into an item; marking an item compliant also clears
      its severity. */
  function ApplyChange(item: ChecklistItem, c: FieldChange): (r: ChecklistItem)
    ensures r.(complianceStatus := item.complianceStatus, severity := item.severity, findings := item.findings) == item
    ensures c.SetStatus? ==>
      && r.complianceStatus == Some(c.status)
      && r.severity == (if c.status == Compliant then None else item.severity)
      && r.findings == item.findings
    ensures c.SetSeverity? ==>
      r.severity == c.severity && r.complianceStatus == item.complianceStatus && r.findings == item.findings
    ensures c.SetFindings? ==>
      r.findings == c.findings && r.complianceStatus == item.complianceStatus && r.severity == item.severity
  {
    match c
    case SetStatus(st) =>
      item.(complianceStatus := Some(st), severity := if st == Compliant then None else item.severity)
    case SetSeverity(sv) => item.(severity := sv)
    case SetFindings(f) => item.(findings := f)
  }

  /** `handleChecklistItemChange(sectionKey, itemKey, field, value)`: the
      checklists with one item of one checklist rewritten. The page only
      passes the key of the open checklist and keys of its items. */
  function HandleChecklistItemChange(cl: Checklists, sectionKey: string, itemKey: string, c: FieldChange): (r: Checklists)
    requires Lookup(cl, sectionKey).Some?
    requires itemKey in Keys(Lookup(cl, sectionKey).value)
    ensures Keys(r) == Keys(cl)
    ensures var sec := Lookup(cl, sectionKey).value;
      && Lookup(r, sectionKey).Some?
      && Keys(Lookup(r, sectionKey).value) == Keys(sec)
      && Lookup(Lookup(r, sectionKey).value, itemKey) == Some(ApplyChange(Lookup(sec, itemKey).value, c))
      && (forall k :: k != itemKey ==> Lookup(Lookup(r, sectionKey).value, k) == Lookup(sec, k))
    ensures forall k :: k != sectionKey ==> Lookup(r, k) == Lookup(cl, k)
  {
    var sec := Lookup(cl, sectionKey).value;
    var item := ApplyChange(Lookup(sec, itemKey).value, c);
    var sec' := Put(sec, itemKey, item);
    LookupPutSame(sec, itemKey, item);
    LookupPutSame(cl, sectionKey, sec');
    forall k | k != itemKey
      ensures Lookup(sec', k) == Lookup(sec, k)
    {
      LookupPutOther(sec, itemKey, item, k);
    }
    forall k | k != sectionKey
      ensures Lookup(Put(cl, sectionKey, sec'), k) == Lookup(cl, k)
    {
      LookupPutOther(cl, sectionKey, sec', k);
    }
    Put(cl, sectionKey, sec')
  }

  /** Any status but non-compliant leaves the changed item out of every
      severity count, whatever severity it keeps. */
  lemma NotFlaggedAfterStatus(item: ChecklistItem, st: ComplianceStatus, s: RiskSeverity)
    requires st != NonCompliant
    ensures !Flagged(ApplyChange(item, SetStatus(st)), s)
  {
  }

  /** Counts under a severity of two checklists lists, checklist by checklist
      no larger, compare the same way in total. */
  lemma {:induction false} TotalCountPointwiseMono(a: Checklists, b: Checklists, s: RiskSeverity)
    requires |a| == |b|
    requires forall i :: 0 <= i < |a| ==> SectionCount(b[i].1, s) <= SectionCount(a[i].1, s)
    ensures TotalCount(b, s) <= TotalCount(a, s)
  {
    if a != [] {
      TotalCountPointwiseMono(a[..|a| - 1], b[..|b| - 1], s);
    }
  }

  /** Writing an item counted under no severity `s` into a checklist does not
      raise its count under `s`. */
  lemma PutUnflagged(sec: Section, itemKey: string, item: ChecklistItem, s: RiskSeverity)
    requires !Flagged(item, s)
    ensures SectionCount(Put(sec, itemKey, item), s) <= SectionCount(sec, s)
  {
    var sec' := Put(sec, itemKey, item);
    forall i | 0 <= i < |sec| && FlaggedAs(s)(sec'[i])
      ensures FlaggedAs(s)(sec[i])
    {
      assert sec'[i] == if sec[i].0 == itemKey then (itemKey, item) else sec[i];
    }
    CountPointwiseMono(sec, sec', FlaggedAs(s));
  }

  /** Changing an item's status to anything but non-compliant never raises
      any severity count of the heat map. The checklists' keys are distinct,
      as an object's keys are. */
  lemma ClearingStatusNeverRaisesRisk(cl: Checklists, sectionKey: string, itemKey: string, st: ComplianceStatus, s: RiskSeverity)
    requires Distinct(Keys(cl))
    requires Lookup(cl, sectionKey).Some?
    requires itemKey in Keys(Lookup(cl, sectionKey).value)
    requires st != NonCompliant
    ensures TotalCount(HandleChecklistItemChange(cl, sectionKey, itemKey, SetStatus(st)), s) <= TotalCount(cl, s)
  {
    var sec := Lookup(cl, sectionKey).value;
    var item := ApplyChange(Lookup(sec, itemKey).value, SetStatus(st));
    var sec' := Put(sec, itemKey, item);
    PutUnflagged(sec, itemKey, item, s);
    var cl' := Put(cl, sectionKey, sec');
    forall i | 0 <= i < |cl|
      ensures SectionCount(cl'[i].1, s) <= SectionCount(cl[i].1, s)
    {
      if cl[i].0 == sectionKey {
        assert cl'[i] == (sectionKey, sec');
        LookupDistinct(cl, i);
      } else {
        assert cl'[i] == cl[i];
      }
    }
    TotalCountPointwiseMono(cl, cl', s);
  }

  // ---------------------------------------------------------------------------
  // Navigation: handleNext, handlePrevious, the sidebar and the review button
  // ---------------------------------------------------------------------------

  /** The section on screen and whether the heat map replaces it. */
  datatype Nav = Nav(currentSection: int, showRiskHeatMap: bool)

  const InitialNav := Nav(0, false)

  /** What the user can do: the Next and Previous buttons and the sidebar
      entries under a section, the back-to-review button under the heat map. */
  datatype NavEvent = Next | Previous | Select(idx: int) | BackToReview

  /** `handleNext`: the next section, or the heat map after the last one. */
  function HandleNext(nav: Nav, sectionCount: nat): (r: Nav)
    ensures nav.currentSection < sectionCount - 1 ==> r == nav.(currentSection := nav.currentSection + 1)
    ensures nav.currentSection >= sectionCount - 1 ==> r == nav.(showRiskHeatMap := true)
  {
    if nav.currentSection < sectionCount - 1 then nav.(currentSection := nav.currentSection + 1)
    else nav.(showRiskHeatMap := true)
  }

  /** `handlePrevious`: the previous section, staying on the first. */
  function HandlePrevious(nav: Nav): (r: Nav)
    ensures r.showRiskHeatMap == nav.showRiskHeatMap
    ensures r.currentSection == if nav.currentSection > 0 then nav.currentSection - 1 else nav.currentSection
  {
    if nav.currentSection > 0 then nav.(currentSection := nav.currentSection - 1) else nav
  }

  /** One user action. The section view and the heat-map view render
      different controls, so an action the current view does not offer
      changes nothing; the sidebar offers one entry per section. */
  function Step(nav: Nav, e: NavEvent, sectionCount: nat): Nav
  {
    match e
    case Next => if nav.showRiskHeatMap then nav else HandleNext(nav, sectionCount)
    case Previous => if nav.showRiskHeatMap then nav else HandlePrevious(nav)
    case Select(idx) =>
      if nav.showRiskHeatMap || !(0 <= idx < sectionCount) then nav else nav.(currentSection := idx)
    case BackToReview => if nav.showRiskHeatMap then nav.(showRiskHeatMap := false) else nav
  }

  /** A run of actions from some state. */
  function Run(nav: Nav, events: seq<NavEvent>, sectionCount: nat): Nav
    decreases |events|
  {
    if events == [] then nav else Run(Step(nav, events[0], sectionCount), events[1..], sectionCount)
  }

  /** The open section always indexes `AUDIT_SECTIONS`. */
  predicate InRange(nav: Nav, sectionCount: nat)
  {
    0 <= nav.currentSection < sectionCount
  }

  lemma StepStaysInRange(nav: Nav, e: NavEvent, sectionCount: nat)
    requires InRange(nav, sectionCount)
    ensures InRange(Step(nav, e, sectionCount), sectionCount)
  {
  }

  lemma {:induction false} RunStaysInRange(nav: Nav, events: seq<NavEvent>, sectionCount: nat)
    requires InRange(nav, sectionCount)
    ensures InRange(Run(nav, events, sectionCount), sectionCount)
    decreases |events|
  {
    if events != [] {
      StepStaysInRange(nav, events[0], sectionCount);
      RunStaysInRange(Step(nav, events[0], sectionCount), events[1..], sectionCount);
    }
  }

  /** `k` presses of Next from the start. */
  function NextPresses(k: nat): seq<NavEvent>
  {
    seq(k, _ => Next)
  }

  /** From the first section, Next walks through the sections in order and
      shows the heat map on the press after the last section, without
      leaving it. */
  lemma {:induction false} NextWalk(k: nat, sectionCount: nat)
    requires 0 < sectionCount
    ensures k < sectionCount ==> Run(InitialNav, NextPresses(k), sectionCount) == Nav(k, false)
    ensures k >= sectionCount ==> Run(InitialNav, NextPresses(k), sectionCount) == Nav(sectionCount - 1, true)
  {
    if k > 0 {
      NextWalk(k - 1, sectionCount);
      RunSnoc(InitialNav, NextPresses(k - 1), Next, sectionCount);
      assert NextPresses(k) == NextPresses(k - 1) + [Next];
    }
  }

  lemma {:induction false} RunSnoc(nav: Nav, events: seq<NavEvent>, e: NavEvent, sectionCount: nat)
    ensures Run(nav, events + [e], sectionCount) == Step(Run(nav, events, sectionCount), e, sectionCount)
    decreases |events|
  {
    if events != [] {
      assert (events + [e])[1..] == events[1..] + [e];
      RunSnoc(Step(nav, events[0], sectionCount), events[1..], e, sectionCount);
    }
  }
}
