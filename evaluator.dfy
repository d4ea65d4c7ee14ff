/**
 * The evaluator pipeline: use-case lookup, the judge prompt, the judge-reply
 * parser with its fallbacks, the weighted aggregator, and the orchestration
 * that builds a fresh evaluation record. The judge and the JSON decoder are
 * parameters: `judge` answers a prompt (`None` when the call raises) and
 * `decode` is `json.loads` (`None` when it raises).
 */
module Evaluator {
  import opened Wrappers
  import opened Text
  import opened Json
  import opened DataModel

  datatype EvalError = UnknownUseCase(useCase: string) | JudgeUnavailable

  // ---------------------------------------------------------------------
  // Use-case lookup

  /** `_get_criteria`: the two registered rubrics, and a `ValueError` for any other tag. */
  function GetCriteria(useCase: string): (r: Result<CriteriaSet, EvalError>)
    ensures useCase == "marketing_copy" ==> r == Success(MarketingCopyCriteria)
    ensures useCase == "bilingual_compliance" ==> r == Success(BilingualComplianceCriteria)
    ensures r.Failure? <==> useCase != "marketing_copy" && useCase != "bilingual_compliance"
    ensures r.Failure? ==> r.error == UnknownUseCase(useCase)
    ensures r.Success? ==> |r.value| == 5 && WellFormedCriteria(r.value)
  {
    RegistryWellFormed();
    if useCase == "marketing_copy" then Success(MarketingCopyCriteria)
    else if useCase == "bilingual_compliance" then Success(BilingualComplianceCriteria)
    else Failure(UnknownUseCase(useCase))
  }

  // ---------------------------------------------------------------------
  // Prompt

  /**
   * The fixed wording of the judge prompt: everything in the prompt template
   * of `_build_evaluation_prompt` that is not interpolated.
   */
  datatype Wording = Wording(
    preamble: string,
    marketingCopy: string,
    bilingualCompliance: string,
    contentHeader: string,
    contextHeader: string,
    noContext: string,
    criteriaHeader: string,
    instructions: string,
    keysLead: string,
    closing: string)

  const PromptWording: Wording := Wording(
    "You are an expert content quality evaluator specializing in multilingual content assessment.\n\n",
    "\nYou are evaluating MULTILINGUAL MARKETING COPY that was created directly in the target language \n"
    + "(not translated from English). The goal is to assess whether this copy is culturally appropriate, \n"
    + "persuasive, and effective for the target audience.\n",
    "\nYou are evaluating BILINGUAL PRODUCT DOCUMENTATION (user manuals, packaging, labels) to ensure \n"
    + "both languages are present and the translation quality meets regulatory and usability standards.\n",
    "\n\n**CONTENT TO EVALUATE:**\n",
    "\n\n**CONTEXT:**\n",
    "No additional context provided",
    "\n\n**EVALUATION CRITERIA:**\n",
    "\n\n**INSTRUCTIONS:**\n"
    + "For each criterion above, provide:\n"
    + "1. A score from 1-5 (where 1 = Poor, 2 = Below Average, 3 = Average, 4 = Good, 5 = Excellent)\n"
    + "2. A brief explanation (2-3 sentences) justifying the score\n"
    + "\n"
    + "**OUTPUT FORMAT:**\n"
    + "You must respond ONLY with valid JSON in exactly this format (no other text before or after):\n"
    + "\n"
    + "{\n"
    + "  \"criterion_key_1\": {\n"
    + "    \"score\": X,\n"
    + "    \"explanation\": \"Your explanation here\"\n"
    + "  },\n"
    + "  \"criterion_key_2\": {\n"
    + "    \"score\": X,\n"
    + "    \"explanation\": \"Your explanation here\"\n"
    + "  },\n"
    + "  ...\n"
    + "}\n"
    + "\n",
    "The criterion keys must be exactly: ",
    "\n\nReturn ONLY the JSON object, no markdown formatting, no additional text.\n")

  /** The framing paragraph: marketing copy for its tag, the bilingual paragraph for any other. */
  function UseCaseDescription(w: Wording, useCase: string): string {
    if useCase == "marketing_copy" then w.marketingCopy else w.bilingualCompliance
  }

  /** Line `i` (from 0) of the criteria list: number, bold name, weight percentage, description. */
  function CriterionLine(i: nat, c: Criterion): string {
    NatStr(i + 1) + ". **" + c.name + "** (Weight: " + NatStr(c.weightPct) + "%): " + c.description
  }

  function CriterionLines(cs: CriteriaSet): seq<string> {
    seq(|cs|, i requires 0 <= i < |cs| => CriterionLine(i, cs[i]))
  }

  function CriteriaDescription(cs: CriteriaSet): string {
    Join("\n", CriterionLines(cs))
  }

  function ContextBlock(w: Wording, context: string): string {
    if context != "" then context else w.noContext
  }

  /** The closing lines of the prompt, which name every criterion key. */
  function KeyRequirement(w: Wording, cs: CriteriaSet): string {
    w.keysLead + Join(", ", CriteriaKeys(cs)) + w.closing
  }

  /** The f-string of `_build_evaluation_prompt`: its fixed and interpolated segments in order. */
  function PromptSegments(w: Wording, content: string, useCase: string, context: string, cs: CriteriaSet): seq<string> {
    [ w.preamble,
      UseCaseDescription(w, useCase),
      w.contentHeader,
      content,
      w.contextHeader,
      ContextBlock(w, context),
      w.criteriaHeader,
      CriteriaDescription(cs),
      w.instructions,
      KeyRequirement(w, cs) ]
  }

  /** `_build_evaluation_prompt`, for any wording; the judge is sent the one for `PromptWording`. */
  function BuildPrompt(w: Wording, content: string, useCase: string, context: string, cs: CriteriaSet): string {
    Join("", PromptSegments(w, content, useCase, context, cs))
  }

  /** The prompt holds the framing paragraph of its use case. */
  lemma PromptFramesUseCase(w: Wording, content: string, useCase: string, context: string, cs: CriteriaSet)
    ensures useCase == "marketing_copy" ==> Contains(BuildPrompt(w, content, useCase, context, cs), w.marketingCopy)
    ensures useCase != "marketing_copy" ==> Contains(BuildPrompt(w, content, useCase, context, cs), w.bilingualCompliance)
  {
    JoinContainsPart("", PromptSegments(w, content, useCase, context, cs), 1);
  }

  /** The prompt holds the content verbatim, and the context or, when it is empty, the no-context sentence. */
  lemma PromptCarriesContent(w: Wording, content: string, useCase: string, context: string, cs: CriteriaSet)
    ensures Contains(BuildPrompt(w, content, useCase, context, cs), content)
    ensures context != "" ==> Contains(BuildPrompt(w, content, useCase, context, cs), context)
    ensures context == "" ==> Contains(BuildPrompt(w, content, useCase, context, cs), w.noContext)
  {
    JoinContainsPart("", PromptSegments(w, content, useCase, context, cs), 3);
    JoinContainsPart("", PromptSegments(w, content, useCase, context, cs), 5);
  }

  /**
   * The criteria list sits in the prompt as one block, its lines in rubric
   * order; every criterion is listed, numbered from 1, with its name, weight
   * and description.
   */
  lemma PromptListsCriteria(w: Wording, content: string, useCase: string, context: string, cs: CriteriaSet)
    ensures Contains(BuildPrompt(w, content, useCase, context, cs), Join("\n", CriterionLines(cs)))
    ensures forall i :: 0 <= i < |cs| ==>
      Contains(BuildPrompt(w, content, useCase, context, cs), CriterionLine(i, cs[i]))
  {
    var segments := PromptSegments(w, content, useCase, context, cs);
    JoinContainsPart("", segments, 7);
    forall i | 0 <= i < |cs|
      ensures Contains(BuildPrompt(w, content, useCase, context, cs), CriterionLine(i, cs[i]))
    {
      JoinContainsPart("\n", CriterionLines(cs), i);
      ContainsTransitive(Join("", segments), segments[7], CriterionLine(i, cs[i]));
    }
  }

  /** The prompt ends by naming every criterion key, comma-separated, in registry order. */
  lemma PromptEndsWithKeys(w: Wording, content: string, useCase: string, context: string, cs: CriteriaSet)
    ensures EndsWith(BuildPrompt(w, content, useCase, context, cs), w.keysLead + Join(", ", CriteriaKeys(cs)) + w.closing)
    ensures forall i :: 0 <= i < |cs| ==> Contains(BuildPrompt(w, content, useCase, context, cs), cs[i].key)
  {
    var segments := PromptSegments(w, content, useCase, context, cs);
    JoinEndsWithLast("", segments);
    JoinContainsPart("", segments, 9);
    var keys := Join(", ", CriteriaKeys(cs));
    ContainsInfix(w.keysLead, keys, w.closing);
    forall i | 0 <= i < |cs|
      ensures Contains(BuildPrompt(w, content, useCase, context, cs), cs[i].key)
    {
      JoinContainsPart(", ", CriteriaKeys(cs), i);
      ContainsTransitive(segments[9], keys, cs[i].key);
      ContainsTransitive(Join("", segments), segments[9], cs[i].key);
    }
  }

  // ---------------------------------------------------------------------
  // Reply parsing

  /** The first step of `_parse_claude_response`: strip, then drop a fence's first and last line. */
  function StripFences(responseText: string): string {
    var t := Strip(responseText);
    if StartsWith(t, "```") then
      var lines := Split(t, '\n');
      if |lines| < 2 then "" else Join("\n", lines[1..|lines| - 1])
    else t
  }

  /** A reply wrapped in a fence line and a closing fence line unwraps to what it wraps. */
  lemma FencedReplyUnwraps(tag: string, inner: string)
    requires '\n' !in tag
    ensures StripFences("```" + tag + "\n" + inner + "\n```") == inner
  {
    var raw := "```" + tag + "\n" + inner + "\n```";
    StripUnspaced(raw);
    assert raw[..3] == "```";
    var opening := "```" + tag;
    assert raw == opening + ['\n'] + (inner + ['\n'] + "```");
    SplitAfterFirst(opening, '\n', inner + ['\n'] + "```");
    SplitBeforeLast(inner, '\n', "```");
    var lines := Split(raw, '\n');
    assert lines == [opening] + Split(inner, '\n') + ["```"];
    assert lines[1..|lines| - 1] == Split(inner, '\n');
    JoinSplit(inner, '\n');
  }

  /** @return `float(v)`, or `None` where Python raises. */
  function ToFloat(v: Json): Option<real> {
    match v
    case JNum(n) => Some(n)
    case JBool(b) => Some(if b then 1.0 else 0.0)
    case JStr(s) => ParseFloat(s)
    case _ => None
  }

  /** What evaluating one criterion against the decoded reply yields. */
  datatype Lookup = Absent | Raises | Present(score: real, explanation: Json)

  /** `float(entry["score"])` and `entry["explanation"]` for one entry of the reply. */
  function EntryLookup(entry: Json): Lookup {
    match entry
    case JObj(fs) =>
      (match (Get(fs, "score"), Get(fs, "explanation"))
       case (Some(s), Some(e)) =>
         (match ToFloat(s)
          case Some(x) => Present(x, e)
          case None => Raises)
       case _ => Raises)
    case _ => Raises
  }

  /**
   * `key in scores_dict` and, when it holds, the entry lookup: on a list `in`
   * is membership and indexing by a string raises; on a string `in` is the
   * substring test and indexing raises; on a number, boolean or null `in`
   * itself raises.
   */
  function CriterionLookup(reply: Json, key: string): Lookup {
    match reply
    case JObj(ms) =>
      (match Get(ms, key)
       case None => Absent
       case Some(entry) => EntryLookup(entry))
    case JArr(items) => if JStr(key) in items then Raises else Absent
    case JStr(s) => if Contains(s, key) then Raises else Absent
    case _ => Raises
  }

  const FallbackScore: real := 3.0
  const ErrorExplanation: string := "Error parsing response"
  const MissingExplanation: string := "Score not provided by evaluator"

  /** Every criterion at the neutral score, with the given explanation and its registry weight. */
  function FallbackScores(cs: CriteriaSet, why: string): ScoreMap {
    seq(|cs|, i requires 0 <= i < |cs| => KeyedScore(cs[i].key, CriterionScore(FallbackScore, JStr(why), Weight(cs[i]))))
  }

  /** The entry for one criterion whose lookup did not raise; the weight is the registry's. */
  function CriterionEntry(found: Lookup, c: Criterion): CriterionScore
    requires !found.Raises?
  {
    match found
    case Absent => CriterionScore(FallbackScore, JStr(MissingExplanation), Weight(c))
    case Present(x, e) => CriterionScore(x, e, Weight(c))
  }

  /** Decoding failed, or some criterion's lookup raises. */
  predicate ReplyRaises(reply: Option<Json>, cs: CriteriaSet) {
    reply.None? || exists i :: 0 <= i < |cs| && CriterionLookup(reply.value, cs[i].key).Raises?
  }

  /**
   * The score map the parser produces for a decoded reply: all criteria at
   * the error fallback when anything raises, else each criterion on its own.
   */
  function ScoresFromReply(reply: Option<Json>, cs: CriteriaSet): (m: ScoreMap)
    ensures Keys(m) == CriteriaKeys(cs)
    ensures forall i :: 0 <= i < |cs| ==> m[i].value.weight == Weight(cs[i])
  {
    if ReplyRaises(reply, cs) then FallbackScores(cs, ErrorExplanation)
    else seq(|cs|, i requires 0 <= i < |cs| =>
               KeyedScore(cs[i].key, CriterionEntry(CriterionLookup(reply.value, cs[i].key), cs[i])))
  }

  /** `_parse_claude_response` */
  method ParseClaudeResponse(responseText: string, decode: string -> Option<Json>, cs: CriteriaSet)
    returns (aiScores: ScoreMap)
    ensures aiScores == ScoresFromReply(decode(StripFences(responseText)), cs)
  {
    var text := Strip(responseText);
    if StartsWith(text, "```") {
      var lines := Split(text, '\n');
      text := if |lines| < 2 then "" else Join("\n", lines[1..|lines| - 1]);
    }
    var decoded := decode(text);
    if decoded.None? {
      return FallbackScores(cs, ErrorExplanation);
    }
    var reply := decoded.value;
    aiScores := [];
    var i := 0;
    while i < |cs|
      invariant 0 <= i <= |cs|
      invariant |aiScores| == i
      invariant forall j :: 0 <= j < i ==> !CriterionLookup(reply, cs[j].key).Raises?
      invariant forall j :: 0 <= j < i ==>
        aiScores[j] == KeyedScore(cs[j].key, CriterionEntry(CriterionLookup(reply, cs[j].key), cs[j]))
    {
      var found := CriterionLookup(reply, cs[i].key);
      if found.Raises? {
        return FallbackScores(cs, ErrorExplanation);
      }
      aiScores := aiScores + [KeyedScore(cs[i].key, CriterionEntry(found, cs[i]))];
      i := i + 1;
    }
  }

  /** When decoding fails, every criterion gets the neutral score and the error explanation. */
  lemma UndecodableReplyFallsBack(cs: CriteriaSet)
    ensures forall i :: 0 <= i < |cs| ==>
      ScoresFromReply(None, cs)[i].value == CriterionScore(3.0, JStr("Error parsing response"), Weight(cs[i]))
  {
  }

  /**
   * One malformed entry (no "score", no "explanation", a score `float` refuses)
   * sends every criterion to the error fallback, well-formed ones included.
   */
  lemma MalformedEntryFallsBackEverywhere(ms: seq<(string, Json)>, cs: CriteriaSet, k: nat)
    requires k < |cs|
    requires Get(ms, cs[k].key).Some? && EntryLookup(Get(ms, cs[k].key).value).Raises?
    ensures forall i :: 0 <= i < |cs| ==>
      ScoresFromReply(Some(JObj(ms)), cs)[i].value == CriterionScore(3.0, JStr("Error parsing response"), Weight(cs[i]))
  {
    assert CriterionLookup(JObj(ms), cs[k].key).Raises?;
  }

  /**
   * In a decoded object where no entry is malformed, a criterion the reply
   * leaves out gets the neutral score and "Score not provided by evaluator",
   * while a criterion it gives keeps the score (as `float`) and the explanation.
   */
  lemma ObjectReplyPerKey(ms: seq<(string, Json)>, cs: CriteriaSet, k: nat)
    requires k < |cs|
    requires forall i :: 0 <= i < |cs| ==> !CriterionLookup(JObj(ms), cs[i].key).Raises?
    ensures var entry := ScoresFromReply(Some(JObj(ms)), cs)[k].value;
      && (!HasKey(ms, cs[k].key) ==> entry == CriterionScore(3.0, JStr("Score not provided by evaluator"), Weight(cs[k])))
      && (HasKey(ms, cs[k].key) ==>
            var fs := Get(ms, cs[k].key).value.members;
            entry == CriterionScore(ToFloat(Get(fs, "score").value).value, Get(fs, "explanation").value, Weight(cs[k])))
  {
    assert !ReplyRaises(Some(JObj(ms)), cs);
  }

  /** A member whose key is not a criterion key changes nothing in the parsed scores. */
  lemma ExtraKeyIgnored(front: seq<(string, Json)>, k: string, v: Json, back: seq<(string, Json)>, cs: CriteriaSet)
    requires forall i :: 0 <= i < |cs| ==> cs[i].key != k
    ensures ScoresFromReply(Some(JObj(front + [(k, v)] + back)), cs) == ScoresFromReply(Some(JObj(front + back)), cs)
  {
    var with, without := JObj(front + [(k, v)] + back), JObj(front + back);
    forall i | 0 <= i < |cs|
      ensures CriterionLookup(with, cs[i].key) == CriterionLookup(without, cs[i].key)
    {
      GetIgnoresOtherKey(front, k, v, back, cs[i].key);
    }
    assert ReplyRaises(Some(with), cs) == ReplyRaises(Some(without), cs);
  }

  /** A fenced reply parses exactly like the JSON it wraps. */
  lemma FencedReplyParsesLikeInner(tag: string, inner: string, decode: string -> Option<Json>, cs: CriteriaSet)
    requires '\n' !in tag
    requires Strip(inner) == inner && !StartsWith(inner, "```")
    ensures ScoresFromReply(decode(StripFences("```" + tag + "\n" + inner + "\n```")), cs)
         == ScoresFromReply(decode(StripFences(inner)), cs)
  {
    FencedReplyUnwraps(tag, inner);
  }

  // ---------------------------------------------------------------------
  // Aggregation

  /**
   * Rounding to the nearest hundredth, halves rounded up, on exact reals. It
   * replaces Python's binary-float `round(x, 2)`, which rounds the binary
   * value half to even.
   */
  function Round2(x: real): (r: real)
    ensures (r * 100.0).Floor as real == r * 100.0
    ensures x - 0.005 < r <= x + 0.005
  {
    (x * 100.0 + 0.5).Floor as real / 100.0
  }

  lemma Round2Monotone(x: real, y: real)
    requires x <= y
    ensures Round2(x) <= Round2(y)
  {
    assert (x * 100.0 + 0.5).Floor <= (y * 100.0 + 0.5).Floor;
  }

  /** A whole number of hundredths is its own rounding. */
  lemma Round2Exact(hundredths: int)
    ensures Round2(hundredths as real / 100.0) == hundredths as real / 100.0
  {
    var x := hundredths as real / 100.0;
    assert x * 100.0 + 0.5 == hundredths as real + 0.5;
    assert (x * 100.0 + 0.5).Floor == hundredths;
  }

  /** Σ score·weight over the map. */
  function WeightedTotal(m: ScoreMap): real {
    if m == [] then 0.0 else WeightedTotal(m[..|m| - 1]) + m[|m| - 1].value.score * m[|m| - 1].value.weight
  }

  /** Σ weight over the map. */
  function TotalWeight(m: ScoreMap): real {
    if m == [] then 0.0 else TotalWeight(m[..|m| - 1]) + m[|m| - 1].value.weight
  }

  /** The weighted average rounded to hundredths, or 3.0 when the total weight is not positive. */
  function OverallScore(m: ScoreMap): real {
    if TotalWeight(m) > 0.0 then Round2(WeightedTotal(m) / TotalWeight(m)) else 3.0
  }

  /** `_calculate_overall_score` (its unused `criteria` argument is dropped). */
  method CalculateOverallScore(aiScores: ScoreMap) returns (overall: real)
    ensures overall == OverallScore(aiScores)
  {
    var totalScore, totalWeight := 0.0, 0.0;
    var i := 0;
    while i < |aiScores|
      invariant 0 <= i <= |aiScores|
      invariant totalScore == WeightedTotal(aiScores[..i])
      invariant totalWeight == TotalWeight(aiScores[..i])
    {
      assert aiScores[..i + 1][..i] == aiScores[..i];
      totalScore := totalScore + aiScores[i].value.score * aiScores[i].value.weight;
      totalWeight := totalWeight + aiScores[i].value.weight;
      i := i + 1;
    }
    assert aiScores[..i] == aiScores;
    if totalWeight > 0.0 {
      overall := Round2(totalScore / totalWeight);
    } else {
      overall := 3.0;
    }
  }

  predicate PositiveWeights(m: ScoreMap) {
    forall i :: 0 <= i < |m| ==> m[i].value.weight > 0.0
  }

  /** With positive weights, the weighted total lies between lo and hi times the total weight. */
  lemma {:induction false} WeightedTotalBounds(m: ScoreMap, lo: real, hi: real)
    requires PositiveWeights(m)
    requires forall i :: 0 <= i < |m| ==> lo <= m[i].value.score <= hi
    ensures lo * TotalWeight(m) <= WeightedTotal(m) <= hi * TotalWeight(m)
    ensures m != [] ==> TotalWeight(m) > 0.0
  {
    if m != [] {
      var front, last := m[..|m| - 1], m[|m| - 1].value;
      assert forall i :: 0 <= i < |front| ==> front[i] == m[i];
      WeightedTotalBounds(front, lo, hi);
      assert TotalWeight(front) >= 0.0 by {
        if front != [] { assert TotalWeight(front) > 0.0; }
      }
      BoundsStep(lo, hi, TotalWeight(front), WeightedTotal(front), last.score, last.weight);
    }
  }

  /** One more entry keeps the weighted total between the bounds. */
  lemma BoundsStep(lo: real, hi: real, tw: real, wt: real, s: real, w: real)
    requires lo * tw <= wt <= hi * tw && tw >= 0.0
    requires lo <= s <= hi && w > 0.0
    ensures lo * (tw + w) <= wt + s * w <= hi * (tw + w)
    ensures tw + w > 0.0
  {
    ScaleBetween(lo, s, hi, w);
    assert lo * (tw + w) == lo * tw + lo * w;
    assert hi * (tw + w) == hi * tw + hi * w;
  }

  lemma ScaleBetween(lo: real, x: real, hi: real, w: real)
    requires lo <= x <= hi && w > 0.0
    ensures lo * w <= x * w <= hi * w
  {
  }

  /** The overall score of scores within [lo, hi] lies within their roundings. */
  lemma OverallWithin(m: ScoreMap, lo: real, hi: real)
    requires m != [] && PositiveWeights(m)
    requires forall i :: 0 <= i < |m| ==> lo <= m[i].value.score <= hi
    ensures Round2(lo) <= OverallScore(m) <= Round2(hi)
  {
    WeightedTotalBounds(m, lo, hi);
    var t, w := WeightedTotal(m), TotalWeight(m);
    assert lo <= t / w <= hi by {
      DivideBetween(lo, t, hi, w);
    }
    Round2Monotone(lo, t / w);
    Round2Monotone(t / w, hi);
  }

  lemma DivideBetween(lo: real, t: real, hi: real, w: real)
    requires w > 0.0 && lo * w <= t <= hi * w
    ensures lo <= t / w <= hi
  {
  }

  /** When every criterion has the same score, the overall score is that score, rounded. */
  lemma UniformOverall(m: ScoreMap, c: real)
    requires m != [] && PositiveWeights(m)
    requires forall i :: 0 <= i < |m| ==> m[i].value.score == c
    ensures OverallScore(m) == Round2(c)
  {
    WeightedTotalBounds(m, c, c);
    DivideBetween(c, WeightedTotal(m), c, TotalWeight(m));
  }

  /** A reply that gives every criterion the same numeric score c parses to c everywhere. */
  lemma UniformReplyScores(ms: seq<(string, Json)>, cs: CriteriaSet, c: real)
    requires forall i :: 0 <= i < |cs| ==>
      Get(ms, cs[i].key).Some? && Get(ms, cs[i].key).value.JObj? &&
      var fs := Get(ms, cs[i].key).value.members;
      Get(fs, "score") == Some(JNum(c)) && Get(fs, "explanation").Some?
    ensures var m := ScoresFromReply(Some(JObj(ms)), cs);
      forall i :: 0 <= i < |m| ==> m[i].value.score == c
  {
    forall i | 0 <= i < |cs|
      ensures CriterionLookup(JObj(ms), cs[i].key).Present?
      ensures CriterionLookup(JObj(ms), cs[i].key).score == c
    {
      var fs := Get(ms, cs[i].key).value.members;
      assert EntryLookup(JObj(fs)) == Present(c, Get(fs, "explanation").value);
    }
    assert !ReplyRaises(Some(JObj(ms)), cs);
  }

  /** A rubric with distinct keys gives a parsed map with distinct keys. */
  lemma ParsedScoresDistinct(reply: Option<Json>, cs: CriteriaSet)
    requires DistinctKeys(cs)
    ensures DistinctScoreKeys(ScoresFromReply(reply, cs))
  {
    var m := ScoresFromReply(reply, cs);
    assert Keys(m) == CriteriaKeys(cs);
    forall i, j | 0 <= i < j < |m|
      ensures m[i].key != m[j].key
    {
      assert m[i].key == Keys(m)[i] == CriteriaKeys(cs)[i] == cs[i].key;
      assert m[j].key == Keys(m)[j] == CriteriaKeys(cs)[j] == cs[j].key;
    }
  }

  /** The registered rubrics give every criterion a positive weight. */
  lemma ParsedWeightsPositive(reply: Option<Json>, cs: CriteriaSet)
    requires forall i :: 0 <= i < |cs| ==> cs[i].weightPct > 0
    ensures PositiveWeights(ScoresFromReply(reply, cs))
  {
    var m := ScoresFromReply(reply, cs);
    assert |m| == |Keys(m)| == |CriteriaKeys(cs)| == |cs|;
  }

  /**
   * A judge that gives every criterion the same score c yields an overall
   * score of c rounded, so a uniform 5 passes, a uniform 1 fails and a
   * uniform 3.2 goes to human review.
   */
  lemma UniformReply(ms: seq<(string, Json)>, cs: CriteriaSet, c: real)
    requires cs != [] && forall i :: 0 <= i < |cs| ==> cs[i].weightPct > 0
    requires forall i :: 0 <= i < |cs| ==>
      Get(ms, cs[i].key).Some? && Get(ms, cs[i].key).value.JObj? &&
      var fs := Get(ms, cs[i].key).value.members;
      Get(fs, "score") == Some(JNum(c)) && Get(fs, "explanation").Some?
    ensures var overall := OverallScore(ScoresFromReply(Some(JObj(ms)), cs));
      && overall == Round2(c)
      && (c == 5.0 ==> GetDecision(overall) == AutoPass)
      && (c == 1.0 ==> GetDecision(overall) == AutoFail)
      && (c == 3.2 ==> GetDecision(overall) == HumanReview)
  {
    var m := ScoresFromReply(Some(JObj(ms)), cs);
    assert |m| == |Keys(m)| == |CriteriaKeys(cs)| == |cs|;
    UniformReplyScores(ms, cs, c);
    ParsedWeightsPositive(Some(JObj(ms)), cs);
    UniformOverall(m, c);
    Round2Exact(500);
    Round2Exact(100);
    Round2Exact(320);
  }

  // ---------------------------------------------------------------------
  // Orchestration

  /**
   * What `evaluate_content` yields for a given rubric: a failing judge call
   * fails with no record; otherwise a record that holds the parsed scores,
   * their overall score and its decision, and no human judgment.
   */
  predicate EvaluatedWith(r: Result<Evaluation, EvalError>, content: string, useCase: string, context: string,
                          cs: CriteriaSet, judge: string -> Option<string>, decode: string -> Option<Json>,
                          id: string, timestamp: string)
    reads if r.Success? then {r.value} else {}
  {
    var reply := judge(BuildPrompt(PromptWording, content, useCase, context, cs));
    if reply.None? then r == Failure(JudgeUnavailable)
    else
      var scores := ScoresFromReply(decode(StripFences(reply.value)), cs);
      && r.Success?
      && r.value.Record() == EvaluationRecord(id, timestamp, useCase, content, context,
                                              scores, OverallScore(scores), GetDecision(OverallScore(scores)),
                                              None, None, None, None)
  }

  /** The body of `evaluate_content` once the rubric is known. */
  method EvaluateWithCriteria(content: string, useCase: string, context: string, cs: CriteriaSet,
                              judge: string -> Option<string>, decode: string -> Option<Json>,
                              id: string, timestamp: string)
    returns (r: Result<Evaluation, EvalError>)
    ensures r.Success? ==> fresh(r.value)
    ensures EvaluatedWith(r, content, useCase, context, cs, judge, decode, id, timestamp)
    ensures r.Success? && DistinctKeys(cs) ==> WellKeyed(r.value.Record())
  {
    var prompt := BuildPrompt(PromptWording, content, useCase, context, cs);
    var response := judge(prompt);
    if response.None? {
      return Failure(JudgeUnavailable);
    }
    var aiScores := ParseClaudeResponse(response.value, decode, cs);
    if DistinctKeys(cs) {
      ParsedScoresDistinct(decode(StripFences(response.value)), cs);
    }
    var overall := CalculateOverallScore(aiScores);
    var decision := GetDecision(overall);
    var evaluation := new Evaluation(id, timestamp, useCase, content, context, aiScores, overall, decision);
    return Success(evaluation);
  }

  /**
   * `evaluate_content`: an unknown use case fails before the judge is asked;
   * otherwise the outcome is the one for the use case's registered rubric.
   */
  method EvaluateContent(content: string, useCase: string, context: string,
                         judge: string -> Option<string>, decode: string -> Option<Json>,
                         id: string, timestamp: string)
    returns (r: Result<Evaluation, EvalError>)
    ensures GetCriteria(useCase).Failure? ==> r == Failure(UnknownUseCase(useCase))
    ensures GetCriteria(useCase).Success? ==>
      && (r.Success? ==> fresh(r.value) && WellKeyed(r.value.Record()))
      && EvaluatedWith(r, content, useCase, context, GetCriteria(useCase).value, judge, decode, id, timestamp)
  {
    var criteria :- GetCriteria(useCase);
    r := EvaluateWithCriteria(content, useCase, context, criteria, judge, decode, id, timestamp);
  }
}
