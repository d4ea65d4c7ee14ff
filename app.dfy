/**
 * The human-judgment side of the review screen: the rubric shown for a
 * record, the slider form that attaches a human judgment to an existing
 * evaluation in place, the AI/human agreement buckets, and the decision
 * tallies of the history tab. The slider positions and the feedback text are
 * parameters; all rendering is left out.
 */
module App {
  import opened Wrappers
  import opened Json
  import opened DataModel
  import opened Evaluator

  // ---------------------------------------------------------------------
  // The rubric of the review screen

  /** The screen shows the marketing rubric for marketing copy and the bilingual rubric for anything else. */
  function DisplayCriteria(useCase: string): (cs: CriteriaSet)
    ensures |cs| == 5 && WellFormedCriteria(cs)
    ensures GetCriteria(useCase).Success? ==> GetCriteria(useCase).value == cs
  {
    RegistryWellFormed();
    if useCase == "marketing_copy" then MarketingCopyCriteria else BilingualComplianceCriteria
  }

  // ---------------------------------------------------------------------
  // The human score map

  /** What a slider can be set to: 1.0 to 5.0 in steps of 0.5. */
  predicate IsSliderValue(v: real) {
    1.0 <= v <= 5.0 && (2.0 * v).Floor as real == 2.0 * v
  }

  const HumanRating: string := "Human rating"

  /** The human scores stored on the record: one entry per criterion, in rubric order. */
  function HumanScoreMap(cs: CriteriaSet, sliders: seq<real>): ScoreMap
    requires |sliders| == |cs|
  {
    seq(|cs|, i requires 0 <= i < |cs| => KeyedScore(cs[i].key, CriterionScore(sliders[i], JStr(HumanRating), Weight(cs[i]))))
  }

  /** A rubric with distinct keys gives a human score map with distinct keys. */
  lemma HumanScoresDistinct(cs: CriteriaSet, sliders: seq<real>)
    requires |sliders| == |cs| && DistinctKeys(cs)
    ensures DistinctScoreKeys(HumanScoreMap(cs, sliders))
  {
  }

  /**
   * The slider loop and the score comprehension of the form: exactly the
   * rubric's keys, each with its slider value, "Human rating" and the
   * rubric's weight.
   */
  method CollectHumanScores(cs: CriteriaSet, sliders: seq<real>) returns (humanScores: ScoreMap)
    requires |sliders| == |cs|
    ensures Keys(humanScores) == CriteriaKeys(cs)
    ensures forall i :: 0 <= i < |cs| ==>
      humanScores[i].value == CriterionScore(sliders[i], JStr("Human rating"), Weight(cs[i]))
    ensures humanScores == HumanScoreMap(cs, sliders)
  {
    humanScores := [];
    var i := 0;
    while i < |cs|
      invariant 0 <= i <= |cs|
      invariant humanScores == HumanScoreMap(cs[..i], sliders[..i])
    {
      humanScores := humanScores + [KeyedScore(cs[i].key, CriterionScore(sliders[i], JStr(HumanRating), Weight(cs[i])))];
      i := i + 1;
    }
    assert cs[..i] == cs && sliders[..i] == sliders;
  }

  // ---------------------------------------------------------------------
  // The human overall score

  /** The numerator of the form's score: slider times weight, summed over the human scores. */
  function SliderTotal(cs: CriteriaSet, sliders: seq<real>): real
    requires |sliders| == |cs|
  {
    if cs == [] then 0.0
    else SliderTotal(cs[..|cs| - 1], sliders[..|cs| - 1]) + sliders[|cs| - 1] * Weight(cs[|cs| - 1])
  }

  /** The denominator of the form's score: the weights summed over the rubric. */
  function RubricWeight(cs: CriteriaSet): real {
    if cs == [] then 0.0 else RubricWeight(cs[..|cs| - 1]) + Weight(cs[|cs| - 1])
  }

  /** The human overall score, rounded to hundredths like the AI's. */
  function HumanOverallScore(cs: CriteriaSet, sliders: seq<real>): real
    requires |sliders| == |cs| && RubricWeight(cs) != 0.0
  {
    Round2(SliderTotal(cs, sliders) / RubricWeight(cs))
  }

  /** The rubric weight is the percentage total over 100. */
  lemma {:induction false} RubricWeightIsPctTotal(cs: CriteriaSet)
    ensures RubricWeight(cs) == WeightPctTotal(cs) as real / 100.0
  {
    if cs != [] {
      RubricWeightIsPctTotal(cs[..|cs| - 1]);
    }
  }

  /** Every rubric the screen can show has a total weight of exactly 1. */
  lemma DisplayedRubricWeight(useCase: string)
    ensures RubricWeight(DisplayCriteria(useCase)) == 1.0
  {
    RubricWeightIsPctTotal(DisplayCriteria(useCase));
  }

  lemma {:induction false} HumanScoreMapPrefix(cs: CriteriaSet, sliders: seq<real>, n: nat)
    requires |sliders| == |cs| && n <= |cs|
    ensures HumanScoreMap(cs, sliders)[..n] == HumanScoreMap(cs[..n], sliders[..n])
  {
  }

  /**
   * The form's arithmetic agrees with the aggregator: over the human score
   * map the aggregator's sums are the form's sums, so both give the same
   * rounded weighted average.
   */
  lemma {:induction false} HumanSumsMatchAggregator(cs: CriteriaSet, sliders: seq<real>)
    requires |sliders| == |cs|
    ensures WeightedTotal(HumanScoreMap(cs, sliders)) == SliderTotal(cs, sliders)
    ensures TotalWeight(HumanScoreMap(cs, sliders)) == RubricWeight(cs)
    decreases |cs|
  {
    if cs != [] {
      var n := |cs| - 1;
      var m := HumanScoreMap(cs, sliders);
      HumanScoreMapPrefix(cs, sliders, n);
      assert m[..|m| - 1] == HumanScoreMap(cs[..n], sliders[..n]);
      HumanSumsMatchAggregator(cs[..n], sliders[..n]);
    }
  }

  lemma HumanOverallMatchesAggregator(cs: CriteriaSet, sliders: seq<real>)
    requires |sliders| == |cs| && RubricWeight(cs) > 0.0
    ensures HumanOverallScore(cs, sliders) == OverallScore(HumanScoreMap(cs, sliders))
  {
    HumanSumsMatchAggregator(cs, sliders);
  }

  /** A nonempty rubric with positive weights has a positive total weight. */
  lemma {:induction false} RubricWeightPositive(cs: CriteriaSet)
    requires cs != [] && forall i :: 0 <= i < |cs| ==> cs[i].weightPct > 0
    ensures RubricWeight(cs) > 0.0
  {
    if |cs| > 1 {
      RubricWeightPositive(cs[..|cs| - 1]);
    }
  }

  /**
   * Sliders within 1 to 5 give a human overall score within 1 to 5: the
   * weighted average of the human scores, rounded, stays in the slider range.
   */
  lemma HumanOverallInRange(cs: CriteriaSet, sliders: seq<real>)
    requires |sliders| == |cs| && cs != []
    requires forall i :: 0 <= i < |cs| ==> cs[i].weightPct > 0
    requires forall i :: 0 <= i < |sliders| ==> IsSliderValue(sliders[i])
    ensures 1.0 <= OverallScore(HumanScoreMap(cs, sliders)) <= 5.0
  {
    var m := HumanScoreMap(cs, sliders);
    assert PositiveWeights(m);
    OverallWithin(m, 1.0, 5.0);
    Round2Exact(100);
    Round2Exact(500);
  }

  /**
   * The form over a displayed rubric: its denominator is 1, its score map
   * has distinct keys, and valid sliders give a score in [1, 5].
   */
  lemma DisplayedFormJudgment(useCase: string, sliders: seq<real>)
    requires |sliders| == |DisplayCriteria(useCase)|
    ensures RubricWeight(DisplayCriteria(useCase)) == 1.0
    ensures DistinctScoreKeys(HumanScoreMap(DisplayCriteria(useCase), sliders))
    ensures (forall i :: 0 <= i < |sliders| ==> IsSliderValue(sliders[i])) ==>
      1.0 <= HumanOverallScore(DisplayCriteria(useCase), sliders) <= 5.0
  {
    var cs := DisplayCriteria(useCase);
    DisplayedRubricWeight(useCase);
    HumanScoresDistinct(cs, sliders);
    HumanOverallMatchesAggregator(cs, sliders);
    if forall i :: 0 <= i < |sliders| ==> IsSliderValue(sliders[i]) {
      HumanOverallInRange(cs, sliders);
    }
  }

  // ---------------------------------------------------------------------
  // Attaching a human judgment

  /** The screen shows the recorded judgment instead of the form while `human_overall_score` is truthy. */
  predicate HasHumanJudgment(e: Evaluation)
    reads e
  {
    e.humanOverallScore.Some? && e.humanOverallScore.value != 0.0
  }

  /**
   * Submitting the form: when the record has no human judgment yet, its four
   * human fields are set from the sliders and the feedback, and every other
   * field is left as it was; otherwise nothing changes.
   */
  method AttachHumanJudgment(e: Evaluation, sliders: seq<real>, feedback: string) returns (attached: bool)
    requires |sliders| == |DisplayCriteria(e.useCase)|
    modifies e
    ensures attached == !old(HasHumanJudgment(e))
    ensures !attached ==> e.Record() == old(e.Record())
    ensures attached ==>
      var cs := DisplayCriteria(old(e.useCase));
      RubricWeight(cs) == 1.0 &&
      var overall := HumanOverallScore(cs, sliders);
      e.Record() == old(e.Record()).(humanScores := Some(HumanScoreMap(cs, sliders)),
                                     humanOverallScore := Some(overall),
                                     humanDecision := Some(GetDecision(overall)),
                                     humanFeedback := Some(feedback))
    ensures old(WellKeyed(e.Record())) ==> WellKeyed(e.Record())
    ensures attached && (forall i :: 0 <= i < |sliders| ==> IsSliderValue(sliders[i])) ==>
      HasHumanJudgment(e) && 1.0 <= e.humanOverallScore.value <= 5.0
  {
    if HasHumanJudgment(e) {
      return false;
    }
    var criteria := DisplayCriteria(e.useCase);
    DisplayedFormJudgment(e.useCase, sliders);
    var humanScores := CollectHumanScores(criteria, sliders);
    var humanOverall := HumanOverallScore(criteria, sliders);
    var humanDecision := GetDecision(humanOverall);
    e.humanScores := Some(humanScores);
    e.humanOverallScore := Some(humanOverall);
    e.humanDecision := Some(humanDecision);
    e.humanFeedback := Some(feedback);
    return true;
  }

  // ---------------------------------------------------------------------
  // Agreement and tallies

  datatype Agreement = High | Moderate | Low

  /** The agreement bucket of an AI and a human overall score. */
  function AgreementLevel(aiScore: real, humanScore: real): (a: Agreement)
    ensures a == High <==> -0.5 < aiScore - humanScore < 0.5
    ensures a == Low <==> (aiScore - humanScore <= -1.0 || 1.0 <= aiScore - humanScore)
  {
    var diff := if aiScore >= humanScore then aiScore - humanScore else humanScore - aiScore;
    if diff < 0.5 then High else if diff < 1.0 then Moderate else Low
  }

  /** The bucket does not depend on which score is the AI's. */
  lemma AgreementSymmetric(aiScore: real, humanScore: real)
    ensures AgreementLevel(aiScore, humanScore) == AgreementLevel(humanScore, aiScore)
  {
  }

  /** The agreement the screen reports: there is one exactly when a human judgment is recorded. */
  function ShownAgreement(e: Evaluation): (r: Option<Agreement>)
    reads e
    ensures r.Some? <==> HasHumanJudgment(e)
  {
    if HasHumanJudgment(e) then Some(AgreementLevel(e.aiOverallScore, e.humanOverallScore.value)) else None
  }

  /** The number of evaluations in the history whose AI decision is `d`. */
  function Tally(history: seq<Evaluation>, d: Decision): (n: nat)
    reads history
    ensures n <= |history|
  {
    if history == [] then 0
    else Tally(history[..|history| - 1], d) + (if history[|history| - 1].aiDecision == d then 1 else 0)
  }

  /** The three tallies of the history tab add up to the number of evaluations. */
  lemma {:induction false} TalliesCoverHistory(history: seq<Evaluation>)
    ensures Tally(history, AutoPass) + Tally(history, AutoFail) + Tally(history, HumanReview) == |history|
  {
    if history != [] {
      TalliesCoverHistory(history[..|history| - 1]);
    }
  }
}
