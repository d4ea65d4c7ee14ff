# Content evaluator core in Dafny

This project models the evaluation core of an LLM-as-judge content scorer and
proves properties of that model. The scorer grades a piece of multilingual marketing copy or bilingual
product documentation against a fixed five-criterion rubric. It asks a judge
model for per-criterion scores, parses the reply with fallbacks, combines the
scores into a weighted overall score, and triages the result as `auto_pass`,
`auto_fail` or `human_review`. A reviewer can later attach a human judgment
to the record.

Modules, in dependency order:

- `Wrappers` (`wrappers.dfy`): `Option` and `Result`.
- `Text` (`text.dfy`): the Python string operations the core uses, over
  `seq<char>`. These are `strip()`, `startswith`, `split` on one character,
  `join`, the substring test `in`, `str(n)`, and `float(s)` for a numeric
  string. `EndsWith` is there only to state how the prompt ends.
- `Json` (`json.dfy`): a decoded JSON value. Lookup in an object finds the last
  binding of a key, as `json.loads` does for duplicate keys.
- `DataModel` (`data_model.dfy`): `utils/data_model.py`. It holds the two
  criteria rubrics, with weights as integer percentages, and the triage policy
  `get_decision`. It also holds the per-criterion score, the evaluation
  record as a value (`EvaluationRecord`), and the mutable record as a class
  (`Evaluation`) with its constructor defaults, `to_dict` and `from_dict`.
- `Evaluator` (`evaluator.dfy`): `utils/evaluator.py`. It holds the use-case
  lookup and the judge prompt. It also holds the reply parser: fence
  stripping, the per-key "not provided" fallback, and the all-keys error
  fallback. The weighted aggregator and `evaluate_content` complete it.
- `App` (`app.dfy`): the human-judgment part of `app.py`. It holds the slider
  loop and the in-place attachment of the four human fields, the AI/human
  agreement buckets, and the decision tallies of the history tab.

The judge call and `json.loads` are function parameters:

- `judge: string -> Option<string>` answers a prompt. `None` means the client
  raised.
- `decode: string -> Option<Json>` decodes a reply. `None` means it raised.

The record id and timestamp are plain parameters.

Each loop of the source is a method proved against a specification function:

- the reply parser against `ScoresFromReply`
- the aggregator against `OverallScore`
- the slider loop against `HumanScoreMap`

The mutable evaluation is a class. Attachment is a method that modifies it and
states its whole new state.

## Model

| member | source | states |
|---|---|---|
| DataModel.RegistryWellFormed | utils/data_model.py:55-109 | Both rubrics have exactly five criteria. Their keys are pairwise distinct, every weight is positive, and the weights sum to 100%. |
| DataModel.DecisionBands | utils/data_model.py:112-122 | A score gets `AutoPass` exactly when it is at least 4.0. It gets `AutoFail` exactly when it is below 2.5, and `HumanReview` exactly on [2.5, 4.0). The three bands cover every score. |
| DataModel.DecisionBoundaries | utils/data_model.py:112-122 | The pass threshold is inclusive: 4.0 passes and 3.999 goes to review. The fail threshold is exclusive: 2.5 goes to review and 2.499 fails. |
| DataModel.DecisionMonotone | utils/data_model.py:115-122 | Raising the score never moves the decision towards failing. |
| DataModel.GetDecision | utils/data_model.py:115-122 | The three-way decision. `DecisionBands`, `DecisionBoundaries` and `DecisionMonotone` state its bands, its boundaries and its monotonicity. |
| DataModel.ParseLabel | utils/data_model.py:25 | A label that parses gives back a decision whose label it is. |
| DataModel.LabelRoundTrip | utils/data_model.py:117-122 | Each decision's stored label parses back to that decision. |
| DataModel.ScoreRoundTrip | utils/data_model.py:7-11 | Rebuilding a score entry from its dictionary gives back its score, explanation and weight. |
| DataModel.ScoreMapRoundTrip | utils/data_model.py:41-45 | Rebuilding a score dictionary with distinct keys gives back every key and entry, in order. |
| DataModel.HumanScoresRoundTrip | utils/data_model.py:46-50 | An absent human score map (null) comes back absent. A present map with distinct keys, empty or not, comes back as that map. |
| DataModel.DictKeys | utils/data_model.py:42-45 | The keys a decoded object's `items()` yields: each key of the object exactly once, nothing else. |
| DataModel.ScoreEntries | utils/data_model.py:42-45 | The rebuild succeeds exactly when every key's value rebuilds. It then has one entry per key, in order, each rebuilt from the value the key is bound to. |
| DataModel.ScoreMapFromMembers | utils/data_model.py:41-50 | The rebuilt map has the object's distinct keys in first-occurrence order. Each entry is rebuilt from its key's last binding. |
| DataModel.RepeatedKeyKeepsLast | utils/data_model.py:42-45 | A key given twice is rebuilt once, from the later value; the earlier value is never rebuilt, even if it is malformed. |
| DataModel.RecordFromDict | utils/data_model.py:37-51 | A decoded record's score maps have distinct keys. `RecordRoundTrip` states that it inverts `RecordToDict`. |
| DataModel.RecordToDict | utils/data_model.py:33-35 | `asdict` of the record: nested scores included, `None` as null. `RecordRoundTrip` states that `RecordFromDict` inverts it. |
| DataModel.FieldsFromMembers | utils/data_model.py:51 | `cls(**data)` reads every scalar field back from the member that holds it, and `None` from null. |
| DataModel.RecordRoundTrip | utils/data_model.py:33-51 | `from_dict(to_dict(r))` succeeds and equals `r` field for field, with or without the human fields, whenever its score maps have distinct keys, as Python dicts do. |
| DataModel.Evaluation.constructor | utils/data_model.py:13-31 | A new record holds the eight given fields. Its four human fields are `None`. |
| DataModel.Evaluation.ToDict | utils/data_model.py:33-35 | When the score maps have distinct keys, `from_dict` turns the dictionary back into the record's current value. |
| DataModel.Evaluation.FromDict | utils/data_model.py:37-51 | The method fails exactly when decoding the dictionary fails. Otherwise it returns a fresh record holding the decoded fields, whose score maps have distinct keys. |
| Json.Get | utils/evaluator.py:172 | A lookup finds a value exactly when the key occurs, and the result is one of the key's bindings. |
| Json.GetLastBinding | utils/evaluator.py:172 | A binding that no later member overrides is the one a lookup finds. |
| Json.GetIgnoresOtherKey | utils/evaluator.py:177 | Inserting a member under another key does not change what a lookup finds. |
| Text.ContainsOccurs | utils/evaluator.py:177 | The `in` test on strings holds exactly when the key occurs at some position. |
| Text.JoinContainsPart | utils/evaluator.py:117-120 | Every part of a join occurs in the joined string. |
| Text.JoinEndsWithLast | utils/evaluator.py:155-157 | A joined string ends with its last part. |
| Text.JoinSplit | utils/evaluator.py:168-169 | Joining the pieces of a split with the same separator gives the string back. |
| Text.NatStrDigits | utils/evaluator.py:118 | `str(n)` is a non-empty string of decimal digits whose value is `n`, so the prompt prints the weight percentage itself. |
| Evaluator.GetCriteria | utils/evaluator.py:86-93 | `marketing_copy` gives the marketing rubric and `bilingual_compliance` the bilingual one. Any other tag fails with `UnknownUseCase` of that tag, and only those tags succeed. A success is a well-formed five-criterion rubric. |
| Evaluator.PromptFramesUseCase | utils/evaluator.py:104-114 | The prompt holds the marketing framing paragraph for `marketing_copy` and the bilingual paragraph for any other tag. |
| Evaluator.PromptCarriesContent | utils/evaluator.py:126-130 | The prompt holds the content verbatim. It holds the context when that is non-empty, and the no-context sentence when it is empty. |
| Evaluator.PromptListsCriteria | utils/evaluator.py:116-133 | The criteria list occurs in the prompt as one block of `"\n"`-joined lines in rubric order. Every criterion's line "{i+1}. **name** (Weight: pct%): description" occurs in the prompt. |
| Evaluator.PromptEndsWithKeys | utils/evaluator.py:155-157 | The prompt ends with the key requirement. That requirement names every criterion key, `", "`-separated, in rubric order. |
| Evaluator.BuildPrompt | utils/evaluator.py:95-159 | The prompt template. `PromptFramesUseCase`, `PromptCarriesContent`, `PromptListsCriteria` and `PromptEndsWithKeys` state what it contains and how it ends. |
| Evaluator.FencedReplyUnwraps | utils/evaluator.py:165-169 | A reply wrapped in a fence line and a closing fence unwraps to exactly what it wraps. |
| Evaluator.StripFences | utils/evaluator.py:165-169 | Stripping and dropping a fence's first and last lines. `FencedReplyUnwraps` states that a fenced reply unwraps to exactly its inner text. |
| Evaluator.ToFloat | utils/evaluator.py:179 | `float()` of a decoded value: numbers, booleans and numeric strings convert, anything else raises. `ObjectReplyPerKey` and `MalformedEntryFallsBackEverywhere` state its use and its failure. |
| Evaluator.EntryLookup | utils/evaluator.py:177-182 | Looking up "score" and "explanation" in one entry. A missing field, a non-object entry or an unconvertible score raises; `MalformedEntryFallsBackEverywhere` states the effect. |
| Evaluator.CriterionLookup | utils/evaluator.py:177-182 | `key in scores_dict` and the entry lookup, for every decoded value. `ObjectReplyPerKey` and `ExtraKeyIgnored` state its effect on objects. |
| Evaluator.ScoresFromReply | utils/evaluator.py:175-200 | The parsed map has exactly the rubric's keys, in order, and every weight is the rubric's. |
| Evaluator.ParseClaudeResponse | utils/evaluator.py:161-200 | The parse loop, with its early exits on an exception, yields the score map that `ScoresFromReply` specifies for the decoded, fence-stripped reply. |
| Evaluator.UndecodableReplyFallsBack | utils/evaluator.py:193-200 | When decoding fails, every criterion gets score 3.0, "Error parsing response" and its rubric weight. |
| Evaluator.MalformedEntryFallsBackEverywhere | utils/evaluator.py:176-200 | One malformed entry sends every criterion to the error fallback, well-formed ones included. A malformed entry lacks "score" or "explanation", or has a score `float` refuses. |
| Evaluator.ObjectReplyPerKey | utils/evaluator.py:176-189 | With no entry raising, a missing key gets 3.0 and "Score not provided by evaluator". A present key keeps its score as `float` and its explanation as given. Both take the rubric weight. |
| Evaluator.ExtraKeyIgnored | utils/evaluator.py:175-190 | A reply member whose key is not a criterion key changes nothing in the parsed map. |
| Evaluator.FencedReplyParsesLikeInner | utils/evaluator.py:164-172 | A fenced reply parses to the same score map as the JSON it wraps. |
| Evaluator.Round2 | utils/evaluator.py:213 | The result is a whole number of hundredths within half a hundredth of the input. |
| Evaluator.Round2Monotone | utils/evaluator.py:213 | Rounding preserves order. |
| Evaluator.Round2Exact | utils/evaluator.py:213 | A whole number of hundredths rounds to itself. |
| Evaluator.CalculateOverallScore | utils/evaluator.py:202-214 | The accumulation loop yields `OverallScore`: the rounded weighted average, or 3.0 when the total weight is not positive. |
| Evaluator.OverallScore | utils/evaluator.py:202-214 | The rounded weighted average, with 3.0 for a non-positive total weight. `OverallWithin` and `UniformOverall` state its range and its value on uniform scores. |
| Evaluator.WeightedTotalBounds | utils/evaluator.py:204-209 | With positive weights and scores in [lo, hi], the weighted total lies between lo and hi times the total weight. The total weight is positive for a non-empty map. |
| Evaluator.OverallWithin | utils/evaluator.py:211-213 | With positive weights and scores in [lo, hi], the overall score lies between the roundings of lo and hi. |
| Evaluator.UniformOverall | utils/evaluator.py:202-213 | When every score equals c, the overall score is c rounded. |
| Evaluator.UniformReplyScores | utils/evaluator.py:176-182 | A reply giving every criterion the numeric score c parses to c everywhere. |
| Evaluator.ParsedWeightsPositive | utils/evaluator.py:175-200 | Against a rubric with positive weights, every parsed entry has a positive weight. |
| Evaluator.ParsedScoresDistinct | utils/evaluator.py:175-190 | Against a rubric with distinct keys, the parsed map has distinct keys. |
| Evaluator.UniformReply | utils/evaluator.py:64-70 | A reply scoring every criterion c has overall score c rounded. A uniform 5 passes, a uniform 1 fails, and a uniform 3.2 goes to review. |
| Evaluator.EvaluateWithCriteria | utils/evaluator.py:50-84 | A failing judge call fails with no record. Otherwise the result is a fresh record with the given id, timestamp, use case, content and context, the parsed scores, their overall score and decision, and no human fields. For a rubric with distinct keys its score map has distinct keys. |
| Evaluator.EvaluateContent | utils/evaluator.py:30-84 | An unknown use case fails with `UnknownUseCase` before the judge is asked. Otherwise the outcome is the one for the use case's registered rubric. |
| App.DisplayCriteria | app.py:112 | The rubric shown is well-formed with five criteria. It is the evaluator's rubric whenever the use case is a registered one. |
| App.CollectHumanScores | app.py:148-180 | The slider loop yields exactly the rubric's keys. Each entry holds that slider's value, "Human rating" and the rubric weight. |
| App.HumanScoreMap | app.py:148-180 | The human score map. `CollectHumanScores` states its keys and entries, and `HumanSumsMatchAggregator` its sums. |
| App.HumanScoresDistinct | app.py:148-180 | The human score map has one entry per rubric key; no key repeats. |
| App.RubricWeightIsPctTotal | app.py:170 | The form's denominator is the rubric's percentage total over 100. |
| App.DisplayedRubricWeight | app.py:170 | For either rubric shown, the denominator is exactly 1. |
| App.HumanSumsMatchAggregator | app.py:169-170 | Over the human score map, the form's two sums equal the aggregator's weighted total and total weight. |
| App.HumanOverallMatchesAggregator | app.py:169-171 | The form's overall score equals the aggregator's overall score of the human map. |
| App.HumanOverallScore | app.py:169-171 | The form's score. `HumanOverallMatchesAggregator` states that it equals the aggregator's, and `HumanOverallInRange` that it stays in [1, 5]. |
| App.RubricWeightPositive | app.py:170 | A non-empty rubric with positive weights has a positive denominator. |
| App.HumanOverallInRange | app.py:153-171 | Sliders in [1.0, 5.0] in steps of 0.5 give a human overall score in [1.0, 5.0]. |
| App.DisplayedFormJudgment | app.py:151-171 | Over the rubric shown for any use case, the form's denominator is 1 and its score map has distinct keys. Sliders in [1.0, 5.0] give a score in [1.0, 5.0]. |
| App.AttachHumanJudgment | app.py:126-183 | Attaches exactly when no truthy human score is recorded, else changes nothing. Attaching sets only the four human fields: the slider map, the form's score, its decision and the feedback. Valid sliders give a judgment in [1, 5]. Distinct score keys are kept. |
| App.AgreementLevel | app.py:130-142 | High exactly when \|ai − human\| < 0.5, Low exactly when it is at least 1.0, Moderate otherwise. |
| App.AgreementSymmetric | app.py:130 | The bucket does not depend on which score is the AI's. |
| App.ShownAgreement | app.py:126-142 | An agreement is reported exactly when a human judgment is recorded. |
| App.Tally | app.py:201-203 | A tally never exceeds the number of evaluations. |
| App.TalliesCoverHistory | app.py:201-203 | The three decision tallies add up to the number of evaluations. |

## Left out

- The Streamlit user interface is not modelled: rendering, session state, tabs, buttons, the download and the documentation text in `app.py`. The slider positions and the feedback text are inputs.
- The Anthropic client, API key and environment loading are not modelled. The judge is a function parameter, and `None` stands for the call raising, which here ends the evaluation with `JudgeUnavailable`.
- `uuid.uuid4()` and `datetime.now()` are nondeterministic, so the id and timestamp are parameters.
- `json.loads` is a library call and becomes the `decode` parameter. `json.dumps` export is out of the core.
- The `print` calls of the parse-error path are output only.
- `test_evaluator.py` is a smoke script against the live API that asserts nothing.
- Evaluator.Round2: exact rational rounding with halves rounded up, not IEEE-754 binary `round(x, 2)`. Binary rounding has float representation effects and half-even ties.
- DataModel.Weight: weights are exact percentages over 100, so the float products and `int(weight*100)` truncation are not modelled. The prompt prints the integer percentage.
- Text.ParseFloat: `float(s)` of a string covers an optional sign, digits and an optional fraction only. Exponents, `inf`, `nan` and underscores are not covered.
- DataModel.RecordFromDict: `from_dict` works on values. It rejects a field of the wrong JSON type, an unknown decision label, and a non-dictionary score entry. The dataclass would store the first two unchecked and pass the third through. The in-place overwrite of the input dictionary's entries is not modelled. A score object with a repeated key is rebuilt like a Python dict: one entry per key, at its first position, from its last value. The round trip is proved for score maps with distinct keys, the only kind a Python dict holds.
- Evaluator.CalculateOverallScore: the unused `criteria` argument of `_calculate_overall_score` is dropped.
- Evaluator.PromptWording: the fixed text of the prompt template is kept as one record of literals. The prompt lemmas are proved for any wording, so the exact wording does not matter to them.
- App.AttachHumanJudgment: there is no `AlreadyJudged` error. The source does not offer the form while a truthy human score is recorded, so a second attachment reports `false` and changes nothing.
- App.HumanOverallScore: it keeps the source's own arithmetic, not the shared aggregator. The sum runs over the human map, the denominator over the rubric, and there is no zero guard. `HumanOverallMatchesAggregator` shows the two agree on the map the form builds.
- Concurrent attachment to one record is not modelled: the source is single-threaded per session.
