/** The progress page of an audit session (src/components/AuditProgress.jsx):
    for every selected act, how many of its questions have an answer, the
    completion percentage, and the answers tallied by status; then the overall
    completion over all selected acts. */
module AuditProgress {
  import opened Common

  // ---------------------------------------------------------------------------
  // Data model
  // ---------------------------------------------------------------------------

  /** A selected act. Its question list may be missing. */
  datatype Act = Act(id: string, name: string, shortName: string, questions: Option<seq<string>>)

  /** A `session_answers` row; the status may be null. */
  datatype Answer = Answer(actId: string, questionId: string, status: Option<string>)

  /** What the answers query gave back: an error, or rows (possibly null). */
  datatype AnswersQuery = QueryError | Rows(data: Option<seq<Answer>>)

  datatype ActProgress = ActProgress(
    actId: string,
    actName: string,
    actShortName: string,
    totalQuestions: nat,
    answeredQuestions: nat,
    completionPercentage: int,
    compliant: nat,
    nonCompliant: nat,
    notApplicable: nat,
    delayed: nat,
    isComplete: bool)

  /** What loading does to the page: on a query error the progress figures
      stay as they were; otherwise both are replaced. Loading ends either way. */
  datatype LoadOutcome = KeepPrevious | Loaded(progressData: seq<ActProgress>, overallProgress: int)

  // ---------------------------------------------------------------------------
  // Per-act figures
  // ---------------------------------------------------------------------------

  function ForAct(actId: string): Answer -> bool
  {
    (a: Answer) => a.actId == actId
  }

  /** The status compared after lower-casing, against any of its spellings. */
  function StatusIn(spellings: seq<string>): Answer -> bool
  {
    (a: Answer) => a.status.Some? && Lower(a.status.value) in spellings
  }

  const CompliantSpellings: seq<string> := ["compliant"]
  const NonCompliantSpellings: seq<string> := ["non-compliant", "non_compliant"]
  const NotApplicableSpellings: seq<string> := ["not applicable", "not_applicable", "n/a"]
  const DelayedSpellings: seq<string> := ["delayed"]

  /** `Math.round(answered / total * 100)`, or 0 for an act without questions. */
  function Completion(answered: nat, total: nat): (r: int)
    ensures total == 0 ==> r == 0
    ensures answered <= total ==> 0 <= r <= 100
    ensures 0 < total == answered ==> r == 100
  {
    if total > 0 then
      PercentBoundsFor(answered, total);
      MathRound(100 * answered, total)
    else 0
  }

  lemma PercentBoundsFor(answered: nat, total: nat)
    requires total > 0
    ensures answered <= total ==> 0 <= MathRound(100 * answered, total) <= 100
    ensures answered == total ==> MathRound(100 * answered, total) == 100
  {
    if answered <= total {
      PercentBounds(answered, total);
    }
  }

  function QuestionCount(act: Act): nat
  {
    if act.questions.Some? then |act.questions.value| else 0
  }

  /** The progress record of one act over the session's answers. */
  function ProgressOf(act: Act, answers: seq<Answer>): (p: ActProgress)
    ensures p.actId == act.id && p.actName == act.name && p.actShortName == act.shortName
    ensures p.answeredQuestions == Count(answers, ForAct(act.id))
    ensures p.totalQuestions == QuestionCount(act)
    ensures p.isComplete <==> p.answeredQuestions == p.totalQuestions
    ensures p.completionPercentage == Completion(p.answeredQuestions, p.totalQuestions)
  {
    var actAnswers := Filter(answers, ForAct(act.id));
    var total := QuestionCount(act);
    var answered := |actAnswers|;
    ActProgress(act.id, act.name, act.shortName, total, answered, Completion(answered, total),
                Count(actAnswers, StatusIn(CompliantSpellings)),
                Count(actAnswers, StatusIn(NonCompliantSpellings)),
                Count(actAnswers, StatusIn(NotApplicableSpellings)),
                Count(actAnswers, StatusIn(DelayedSpellings)),
                answered == total)
  }

  /** The four spellings lists share no spelling, so an answer is counted
      under at most one status, and the four counts together are at most the
      act's answers. */
  lemma StatusCountsBounded(act: Act, answers: seq<Answer>)
    ensures var p := ProgressOf(act, answers);
      p.compliant + p.nonCompliant + p.notApplicable + p.delayed <= p.answeredQuestions
  {
    var s := Filter(answers, ForAct(act.id));
    var c, n, na, d := StatusIn(CompliantSpellings), StatusIn(NonCompliantSpellings),
                       StatusIn(NotApplicableSpellings), StatusIn(DelayedSpellings);
    var cn := StatusIn(CompliantSpellings + NonCompliantSpellings);
    var cnna := StatusIn(CompliantSpellings + NonCompliantSpellings + NotApplicableSpellings);
    var all := StatusIn(CompliantSpellings + NonCompliantSpellings + NotApplicableSpellings + DelayedSpellings);
    CountDisjoint(s, c, n, cn);
    CountDisjoint(s, cn, na, cnna);
    CountDisjoint(s, cnna, d, all);
    var any := (a: Answer) => true;
    CountMono(s, all, any);
    CountAll(s, any);
  }

  /** An act whose answers are no more than its questions is at most 100%
      complete, and exactly 100% when complete. */
  lemma ActCompletionBounds(act: Act, answers: seq<Answer>)
    requires Count(answers, ForAct(act.id)) <= QuestionCount(act)
    ensures 0 <= ProgressOf(act, answers).completionPercentage <= 100
    ensures ProgressOf(act, answers).isComplete && QuestionCount(act) > 0 ==>
      ProgressOf(act, answers).completionPercentage == 100
  {
  }

  /** Rounding can show 100% for an act that is not complete: 199 answers to
      200 questions. */
  lemma RoundedFullIsNotComplete()
    ensures Completion(199, 200) == 100 && 199 != 200
  {
    assert (2 * (100 * 199) + 200) / (2 * 200) == 100;
  }

  // ---------------------------------------------------------------------------
  // Overall figure
  // ---------------------------------------------------------------------------

  /** `selectedActs.map(...)`. */
  function ProgressByAct(acts: seq<Act>, answers: seq<Answer>): (r: seq<ActProgress>)
    ensures |r| == |acts|
    ensures forall i :: 0 <= i < |acts| ==> r[i] == ProgressOf(acts[i], answers)
  {
    seq(|acts|, i requires 0 <= i < |acts| => ProgressOf(acts[i], answers))
  }

  /** `reduce((sum, act) => sum + act.totalQuestions, 0)`. */
  function TotalQuestions(ps: seq<ActProgress>): nat
  {
    if ps == [] then 0 else TotalQuestions(ps[..|ps| - 1]) + ps[|ps| - 1].totalQuestions
  }

  /** `reduce((sum, act) => sum + act.answeredQuestions, 0)`. */
  function TotalAnswered(ps: seq<ActProgress>): nat
  {
    if ps == [] then 0 else TotalAnswered(ps[..|ps| - 1]) + ps[|ps| - 1].answeredQuestions
  }

  function OverallProgress(ps: seq<ActProgress>): int
  {
    Completion(TotalAnswered(ps), TotalQuestions(ps))
  }

  /** Acts that each have no more answers than questions have no more in total. */
  lemma {:induction false} TotalsBounded(ps: seq<ActProgress>)
    requires forall i :: 0 <= i < |ps| ==> ps[i].answeredQuestions <= ps[i].totalQuestions
    ensures TotalAnswered(ps) <= TotalQuestions(ps)
  {
    if ps != [] {
      TotalsBounded(ps[..|ps| - 1]);
    }
  }

  /** When every act is complete, so is the whole audit. */
  lemma {:induction false} AllCompleteTotals(ps: seq<ActProgress>)
    requires forall i :: 0 <= i < |ps| ==> ps[i].answeredQuestions == ps[i].totalQuestions
    ensures TotalAnswered(ps) == TotalQuestions(ps)
  {
    if ps != [] {
      AllCompleteTotals(ps[..|ps| - 1]);
    }
  }

  /** The overall figure is within [0, 100] when no act has more answers than
      questions. */
  lemma OverallProgressBounds(acts: seq<Act>, answers: seq<Answer>)
    requires forall i :: 0 <= i < |acts| ==> Count(answers, ForAct(acts[i].id)) <= QuestionCount(acts[i])
    ensures 0 <= OverallProgress(ProgressByAct(acts, answers)) <= 100
  {
    TotalsBounded(ProgressByAct(acts, answers));
  }

  /** Every selected act complete and at least one question: 100 overall. */
  lemma OverallCompleteIsFull(acts: seq<Act>, answers: seq<Answer>)
    requires forall i :: 0 <= i < |acts| ==> ProgressOf(acts[i], answers).isComplete
    requires TotalQuestions(ProgressByAct(acts, answers)) > 0
    ensures OverallProgress(ProgressByAct(acts, answers)) == 100
  {
    AllCompleteTotals(ProgressByAct(acts, answers));
  }

  // ---------------------------------------------------------------------------
  // Loading
  // ---------------------------------------------------------------------------

  /** `loadProgressData` once the query has answered. A null answer list
      counts as no answers. */
  function LoadProgressData(query: AnswersQuery, selectedActs: seq<Act>): (r: LoadOutcome)
    ensures query.QueryError? <==> r.KeepPrevious?
    ensures r.Loaded? ==>
      var answers := if query.data.Some? then query.data.value else [];
      && |r.progressData| == |selectedActs|
      && (forall i :: 0 <= i < |selectedActs| ==> r.progressData[i] == ProgressOf(selectedActs[i], answers))
      && r.overallProgress == Completion(TotalAnswered(r.progressData), TotalQuestions(r.progressData))
  {
    if query.QueryError? then KeepPrevious
    else
      var answers := if query.data.Some? then query.data.value else [];
      var progress := ProgressByAct(selectedActs, answers);
      Loaded(progress, OverallProgress(progress))
  }
}
