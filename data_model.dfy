/**
 * The record model and the fixed rubric of the content evaluator: the two
 * criteria sets, the three-way triage policy, the per-criterion score, and
 * the evaluation record with its conversion to and from a plain dictionary.
 */
module DataModel {
  import opened Wrappers
  import opened Json

  // ---------------------------------------------------------------------
  // Criteria registry

  /**
   * One criterion of a rubric. The weight is kept as an integer percentage:
   * 30 stands for the source's 0.30, the value the prompt prints.
   */
  datatype Criterion = Criterion(key: string, name: string, description: string, weightPct: nat)

  /** A rubric: its criteria in their fixed order. */
  type CriteriaSet = seq<Criterion>

  /** The weight as the fraction the source stores. */
  function Weight(c: Criterion): real {
    c.weightPct as real / 100.0
  }

  function CriteriaKeys(cs: CriteriaSet): seq<string> {
    seq(|cs|, i requires 0 <= i < |cs| => cs[i].key)
  }

  function WeightPctTotal(cs: CriteriaSet): nat {
    if cs == [] then 0 else WeightPctTotal(cs[..|cs| - 1]) + cs[|cs| - 1].weightPct
  }

  predicate DistinctKeys(cs: CriteriaSet) {
    forall i, j :: 0 <= i < j < |cs| ==> cs[i].key != cs[j].key
  }

  /** Distinct keys, positive weights, and weights summing to 100%. */
  predicate WellFormedCriteria(cs: CriteriaSet) {
    && DistinctKeys(cs)
    && (forall i :: 0 <= i < |cs| ==> cs[i].weightPct > 0)
    && WeightPctTotal(cs) == 100
  }

  /** Unfolds the weight total of a five-criterion rubric, one prefix at a time. */
  lemma PrefixTotals(cs: CriteriaSet)
    requires |cs| == 5
    ensures WeightPctTotal(cs) == cs[0].weightPct + cs[1].weightPct + cs[2].weightPct + cs[3].weightPct + cs[4].weightPct
  {
    PrefixTotal(cs, 0);
    PrefixTotal(cs, 1);
    PrefixTotal(cs, 2);
    PrefixTotal(cs, 3);
    PrefixTotal(cs, 4);
    assert cs[..5] == cs;
  }

  lemma PrefixTotal(cs: CriteriaSet, k: nat)
    requires k < |cs|
    ensures WeightPctTotal(cs[..k + 1]) == WeightPctTotal(cs[..k]) + cs[k].weightPct
  {
    assert cs[..k + 1][..k] == cs[..k];
  }

  const MarketingCopyCriteria: CriteriaSet := [
    Criterion("cultural_appropriateness", "Cultural Appropriateness",
              "Idioms, cultural references, and tone appropriate for target culture", 30),
    Criterion("persuasiveness", "Persuasiveness",
              "Likely to drive action and conversion", 25),
    Criterion("brand_voice", "Brand Voice Consistency",
              "Matches Amazon's brand voice in the target language", 20),
    Criterion("grammar_fluency", "Grammar & Fluency",
              "Natural, error-free language", 15),
    Criterion("semantic_accuracy", "Semantic Accuracy",
              "Conveys the intended message accurately", 10)
  ]

  const BilingualComplianceCriteria: CriteriaSet := [
    Criterion("completeness", "Completeness",
              "Both languages present, all content translated", 25),
    Criterion("accuracy", "Translation Accuracy",
              "Meaning preserved, no mistranslations", 25),
    Criterion("fluency", "Fluency",
              "Natural and readable in target language", 20),
    Criterion("terminology", "Terminology Consistency",
              "Technical/product terms used correctly", 15),
    Criterion("regulatory_compliance", "Regulatory Compliance",
              "Safety warnings and legal text properly translated", 15)
  ]

  /** Both rubrics have five criteria with distinct keys and positive weights summing to 100%. */
  lemma RegistryWellFormed()
    ensures |MarketingCopyCriteria| == 5 && WellFormedCriteria(MarketingCopyCriteria)
    ensures |BilingualComplianceCriteria| == 5 && WellFormedCriteria(BilingualComplianceCriteria)
  {
    PrefixTotals(MarketingCopyCriteria);
    PrefixTotals(BilingualComplianceCriteria);
  }

  // ---------------------------------------------------------------------
  // Triage policy

  const AutoPassThreshold: real := 4.0
  const AutoFailThreshold: real := 2.5

  datatype Decision = AutoPass | AutoFail | HumanReview

  /** The label the source stores for a decision. */
  function Label(d: Decision): string {
    match d
    case AutoPass => "auto_pass"
    case AutoFail => "auto_fail"
    case HumanReview => "human_review"
  }

  function ParseLabel(s: string): (r: Option<Decision>)
    ensures r.Some? ==> Label(r.value) == s
  {
    if s == "auto_pass" then Some(AutoPass)
    else if s == "auto_fail" then Some(AutoFail)
    else if s == "human_review" then Some(HumanReview)
    else None
  }

  lemma LabelRoundTrip(d: Decision)
    ensures ParseLabel(Label(d)) == Some(d)
  {
  }

  /** `get_decision`: pass at or above 4.0, fail strictly below 2.5, review otherwise. */
  function GetDecision(overallScore: real): Decision {
    if overallScore >= AutoPassThreshold then AutoPass
    else if overallScore < AutoFailThreshold then AutoFail
    else HumanReview
  }

  /** Each decision holds exactly on its band of scores; the bands cover every score. */
  lemma DecisionBands(score: real)
    ensures GetDecision(score) == AutoPass <==> score >= 4.0
    ensures GetDecision(score) == AutoFail <==> score < 2.5
    ensures GetDecision(score) == HumanReview <==> 2.5 <= score < 4.0
  {
  }

  /** The pass boundary is inclusive and the fail boundary exclusive. */
  lemma DecisionBoundaries()
    ensures GetDecision(4.0) == AutoPass
    ensures GetDecision(3.999) == HumanReview
    ensures GetDecision(2.5) == HumanReview
    ensures GetDecision(2.499) == AutoFail
  {
  }

  /** Orders the decisions from worst to best. */
  function Rank(d: Decision): nat {
    match d
    case AutoFail => 0
    case HumanReview => 1
    case AutoPass => 2
  }

  /** Raising the score never moves the decision towards failing. */
  lemma DecisionMonotone(lower: real, higher: real)
    requires lower <= higher
    ensures Rank(GetDecision(lower)) <= Rank(GetDecision(higher))
  {
  }

  // ---------------------------------------------------------------------
  // Scores

  /**
   * One criterion's score. The explanation is kept as the judge wrote it,
   * whatever its JSON type; the weight is copied from the rubric.
   */
  datatype CriterionScore = CriterionScore(score: real, explanation: Json, weight: real)

  /** One key of a score dictionary. */
  datatype KeyedScore = KeyedScore(key: string, value: CriterionScore)

  /** A score dictionary, in its insertion order. */
  type ScoreMap = seq<KeyedScore>

  function Keys(m: ScoreMap): seq<string> {
    seq(|m|, i requires 0 <= i < |m| => m[i].key)
  }

  /** No two entries share a key, as in any Python dict. */
  predicate DistinctScoreKeys(m: ScoreMap) {
    forall i, j :: 0 <= i < j < |m| ==> m[i].key != m[j].key
  }

  // ---------------------------------------------------------------------
  // The evaluation record

  /** The twelve fields of an evaluation, as a value. */
  datatype EvaluationRecord = EvaluationRecord(
    id: string,
    timestamp: string,
    useCase: string,
    content: string,
    context: string,
    aiScores: ScoreMap,
    aiOverallScore: real,
    aiDecision: Decision,
    humanScores: Option<ScoreMap>,
    humanOverallScore: Option<real>,
    humanDecision: Option<Decision>,
    humanFeedback: Option<string>)

  /** The field names of the record, in declaration order; the first eight have no default. */
  /** Every score dictionary of the record has distinct keys. */
  predicate WellKeyed(r: EvaluationRecord) {
    DistinctScoreKeys(r.aiScores) && (r.humanScores.Some? ==> DistinctScoreKeys(r.humanScores.value))
  }

  const RecordFields: seq<string> := [
    "id", "timestamp", "use_case", "content", "context",
    "ai_scores", "ai_overall_score", "ai_decision",
    "human_scores", "human_overall_score", "human_decision", "human_feedback"
  ]

  const ScoreFields: seq<string> := ["score", "explanation", "weight"]

  function ScoreToDict(s: CriterionScore): Json {
    JObj([("score", JNum(s.score)), ("explanation", s.explanation), ("weight", JNum(s.weight))])
  }

  function ScoreMembers(m: ScoreMap): seq<(string, Json)> {
    seq(|m|, i requires 0 <= i < |m| => (m[i].key, ScoreToDict(m[i].value)))
  }

  function OptionalNum(v: Option<real>): Json {
    match v
    case None => JNull
    case Some(x) => JNum(x)
  }

  function OptionalStr(v: Option<string>): Json {
    match v
    case None => JNull
    case Some(s) => JStr(s)
  }

  /** `to_dict`: `asdict` of the record, nested scores included, `None` as null. */
  function RecordToDict(r: EvaluationRecord): Json {
    JObj([
      ("id", JStr(r.id)),
      ("timestamp", JStr(r.timestamp)),
      ("use_case", JStr(r.useCase)),
      ("content", JStr(r.content)),
      ("context", JStr(r.context)),
      ("ai_scores", JObj(ScoreMembers(r.aiScores))),
      ("ai_overall_score", JNum(r.aiOverallScore)),
      ("ai_decision", JStr(Label(r.aiDecision))),
      ("human_scores", match r.humanScores case None => JNull case Some(m) => JObj(ScoreMembers(m))),
      ("human_overall_score", OptionalNum(r.humanOverallScore)),
      ("human_decision", OptionalStr(match r.humanDecision case None => None case Some(d) => Some(Label(d)))),
      ("human_feedback", OptionalStr(r.humanFeedback))
    ])
  }

  /** Every member's key is one of `names`. */
  predicate OnlyFields(ms: seq<(string, Json)>, names: seq<string>) {
    forall i :: 0 <= i < |ms| ==> ms[i].0 in names
  }

  /** `CriterionScore(**v)` for one entry of a score dictionary. */
  function ScoreFromDict(v: Json): Result<CriterionScore, string> {
    match v
    case JObj(fs) =>
      if !OnlyFields(fs, ScoreFields) then Failure("unexpected keyword argument")
      else if !HasKey(fs, "score") || !HasKey(fs, "explanation") || !HasKey(fs, "weight") then
        Failure("missing required argument")
      else
        (match (Get(fs, "score").value, Get(fs, "weight").value)
         case (JNum(s), JNum(w)) => Success(CriterionScore(s, Get(fs, "explanation").value, w))
         case _ => Failure("score and weight must be numbers"))
    case _ => Failure("entry is not a dictionary")
  }

  /**
   * The keys of a decoded object in the order of the Python dict built from
   * it: each key once, at the position of its first member.
   */
  function DictKeys(ms: seq<(string, Json)>): (keys: seq<string>)
    ensures forall i, j :: 0 <= i < j < |keys| ==> keys[i] != keys[j]
    ensures forall k :: k in keys <==> HasKey(ms, k)
  {
    if ms == [] then []
    else
      var front := DictKeys(ms[..|ms| - 1]);
      HasKeyExtend(ms);
      if ms[|ms| - 1].0 in front then front else front + [ms[|ms| - 1].0]
  }

  /** A key of a non-empty object is a key of all but its last member, or the last member's key. */
  lemma HasKeyExtend(ms: seq<(string, Json)>)
    requires ms != []
    ensures forall k :: HasKey(ms, k) <==> HasKey(ms[..|ms| - 1], k) || k == ms[|ms| - 1].0
  {
    var front := ms[..|ms| - 1];
    forall k | HasKey(ms, k)
      ensures HasKey(front, k) || k == ms[|ms| - 1].0
    {
      var i :| 0 <= i < |ms| && ms[i].0 == k;
      if i < |front| {
        assert front[i].0 == k;
      }
    }
    forall k | HasKey(front, k)
      ensures HasKey(ms, k)
    {
      var i :| 0 <= i < |front| && front[i].0 == k;
      assert ms[i].0 == k;
    }
    assert ms[|ms| - 1].0 == ms[|ms| - 1].0;
  }

  /** The entries rebuilt for `keys`, each from the value its key is bound to; the first failure wins. */
  function ScoreEntries(ms: seq<(string, Json)>, keys: seq<string>): (r: Result<ScoreMap, string>)
    requires forall k :: k in keys ==> HasKey(ms, k)
    ensures r.Success? <==> forall i :: 0 <= i < |keys| ==> ScoreFromDict(Get(ms, keys[i]).value).Success?
    ensures r.Success? ==> |r.value| == |keys| && forall i :: 0 <= i < |keys| ==>
      r.value[i] == KeyedScore(keys[i], ScoreFromDict(Get(ms, keys[i]).value).value)
  {
    if keys == [] then Success([])
    else
      var first :- ScoreFromDict(Get(ms, keys[0]).value);
      var rest :- ScoreEntries(ms, keys[1..]);
      Success([KeyedScore(keys[0], first)] + rest)
  }

  /**
   * `{k: CriterionScore(**v) for k, v in d.items()}` over a decoded object:
   * one entry per distinct key, rebuilt from the key's last binding.
   */
  function ScoreMapFromMembers(ms: seq<(string, Json)>): (r: Result<ScoreMap, string>)
    ensures r.Success? ==> Keys(r.value) == DictKeys(ms) && DistinctScoreKeys(r.value)
    ensures r.Success? ==> forall i :: 0 <= i < |r.value| ==>
      HasKey(ms, r.value[i].key) && ScoreFromDict(Get(ms, r.value[i].key).value) == Success(r.value[i].value)
  {
    var keys := DictKeys(ms);
    var r := ScoreEntries(ms, keys);
    if r.Success? then
      assert Keys(r.value) == keys;
      r
    else r
  }

  /** `{k: ... for k, v in d.items()}`: only a dictionary has `items`. */
  function ScoreMapFromDict(d: Json): Result<ScoreMap, string> {
    match d
    case JObj(ms) => ScoreMapFromMembers(ms)
    case _ => Failure("object has no attribute 'items'")
  }

  /**
   * `human_scores` is rebuilt only when present and truthy; a missing or null
   * value stays `None` and an empty dictionary stays empty.
   */
  function HumanScoresFromDict(v: Option<Json>): (r: Result<Option<ScoreMap>, string>)
    ensures r.Success? && r.value.Some? ==> DistinctScoreKeys(r.value.value)
  {
    match v
    case None => Success(None)
    case Some(j) =>
      if Truthy(j) then
        var m :- ScoreMapFromDict(j);
        Success(Some(m))
      else if j == JNull then Success(None)
      else if j == JObj([]) then Success(Some([]))
      else Failure("human_scores must be a dictionary or null")
  }

  /** The fields of the record that have no default. */
  predicate HasRequiredFields(ms: seq<(string, Json)>) {
    && HasKey(ms, "id") && HasKey(ms, "timestamp") && HasKey(ms, "use_case") && HasKey(ms, "content")
    && HasKey(ms, "context") && HasKey(ms, "ai_scores") && HasKey(ms, "ai_overall_score")
    && HasKey(ms, "ai_decision")
  }

  function StrField(ms: seq<(string, Json)>, name: string): Result<string, string>
    requires HasKey(ms, name)
  {
    match Get(ms, name).value
    case JStr(s) => Success(s)
    case _ => Failure(name + " must be a string")
  }

  function OptionalStrField(ms: seq<(string, Json)>, name: string): Result<Option<string>, string> {
    match Get(ms, name)
    case None => Success(None)
    case Some(JNull) => Success(None)
    case Some(JStr(s)) => Success(Some(s))
    case Some(_) => Failure(name + " must be a string or null")
  }

  function OptionalNumField(ms: seq<(string, Json)>, name: string): Result<Option<real>, string> {
    match Get(ms, name)
    case None => Success(None)
    case Some(JNull) => Success(None)
    case Some(JNum(x)) => Success(Some(x))
    case Some(_) => Failure(name + " must be a number or null")
  }

  function DecisionFrom(s: string): Result<Decision, string> {
    match ParseLabel(s)
    case Some(d) => Success(d)
    case None => Failure("unknown decision label")
  }

  function OptionalDecision(s: Option<string>): Result<Option<Decision>, string> {
    match s
    case None => Success(None)
    case Some(l) =>
      var d :- DecisionFrom(l);
      Success(Some(d))
  }

  /**
   * `from_dict`: rebuild the nested score entries, then `cls(**data)`, which
   * refuses an unknown field and a missing field without a default.
   */
  function RecordFromDict(data: Json): (r: Result<EvaluationRecord, string>)
    ensures r.Success? ==> WellKeyed(r.value)
  {
    match data
    case JObj(ms) =>
      var ai :- if HasKey(ms, "ai_scores") then ScoreMapFromDict(Get(ms, "ai_scores").value)
                else Failure("missing required argument: 'ai_scores'");
      var human :- HumanScoresFromDict(Get(ms, "human_scores"));
      if !OnlyFields(ms, RecordFields) then Failure("unexpected keyword argument")
      else if !HasRequiredFields(ms) then Failure("missing required argument")
      else RecordFromFields(ms, ai, human)
    case _ => Failure("argument after ** must be a mapping")
  }

  /** `cls(**data)` once the score dictionaries are rebuilt. */
  function RecordFromFields(ms: seq<(string, Json)>, ai: ScoreMap, human: Option<ScoreMap>): (r: Result<EvaluationRecord, string>)
    requires HasRequiredFields(ms)
    ensures r.Success? ==> r.value.aiScores == ai && r.value.humanScores == human
  {
    var id :- StrField(ms, "id");
    var timestamp :- StrField(ms, "timestamp");
    var useCase :- StrField(ms, "use_case");
    var content :- StrField(ms, "content");
    var context :- StrField(ms, "context");
    var overall :- match Get(ms, "ai_overall_score").value
                   case JNum(x) => Success(x)
                   case _ => Failure("ai_overall_score must be a number");
    var aiLabel :- StrField(ms, "ai_decision");
    var decision :- DecisionFrom(aiLabel);
    var humanOverall :- OptionalNumField(ms, "human_overall_score");
    var humanLabel :- OptionalStrField(ms, "human_decision");
    var humanDecision :- OptionalDecision(humanLabel);
    var feedback :- OptionalStrField(ms, "human_feedback");
    Success(EvaluationRecord(id, timestamp, useCase, content, context, ai, overall, decision,
                             human, humanOverall, humanDecision, feedback))
  }

  lemma ScoreRoundTrip(s: CriterionScore)
    ensures ScoreFromDict(ScoreToDict(s)) == Success(s)
  {
    var fs := [("score", JNum(s.score)), ("explanation", s.explanation), ("weight", JNum(s.weight))];
    GetLastBinding(fs, 0);
    GetLastBinding(fs, 1);
    GetLastBinding(fs, 2);
  }

  /** An object whose keys are already distinct keeps its keys in member order. */
  lemma {:induction false} DictKeysOfDistinct(ms: seq<(string, Json)>)
    requires forall i, j :: 0 <= i < j < |ms| ==> ms[i].0 != ms[j].0
    ensures DictKeys(ms) == seq(|ms|, i requires 0 <= i < |ms| => ms[i].0)
  {
    if ms != [] {
      var front := ms[..|ms| - 1];
      DictKeysOfDistinct(front);
      assert ms[|ms| - 1].0 !in DictKeys(front);
    }
  }

  /** Rebuilding a score dictionary gives back every key and entry, in order. */
  lemma ScoreMapRoundTrip(m: ScoreMap)
    requires DistinctScoreKeys(m)
    ensures ScoreMapFromMembers(ScoreMembers(m)) == Success(m)
  {
    var ms := ScoreMembers(m);
    DictKeysOfDistinct(ms);
    assert DictKeys(ms) == Keys(m);
    forall i | 0 <= i < |m|
      ensures Get(ms, m[i].key) == Some(ScoreToDict(m[i].value))
      ensures ScoreFromDict(ScoreToDict(m[i].value)) == Success(m[i].value)
    {
      GetLastBinding(ms, i);
      ScoreRoundTrip(m[i].value);
    }
    var r := ScoreEntries(ms, Keys(m));
    assert r.value == m;
  }

  /** A key given twice is rebuilt once, from its later value; the earlier one is never looked at. */
  lemma RepeatedKeyKeepsLast(k: string, v1: Json, v2: Json, s: CriterionScore)
    requires ScoreFromDict(v2) == Success(s)
    ensures ScoreMapFromMembers([(k, v1), (k, v2)]) == Success([KeyedScore(k, s)])
  {
    var ms := [(k, v1), (k, v2)];
    assert ms[..1] == [(k, v1)];
    assert [(k, v1)][..0] == [];
    assert DictKeys([(k, v1)]) == [k];
    assert DictKeys(ms) == [k];
    assert Get(ms, k) == Some(v2);
    assert [k][1..] == [] && ScoreEntries(ms, []) == Success([]);
    assert ScoreEntries(ms, [k]) == Success([KeyedScore(k, s)] + []);
    assert [KeyedScore(k, s)] + [] == [KeyedScore(k, s)];
    assert ScoreMapFromMembers(ms) == ScoreEntries(ms, DictKeys(ms));
  }

  /** A dictionary with one member per record field, in declaration order. */
  predicate LaidOutAsRecord(ms: seq<(string, Json)>) {
    |ms| == 12 &&
    ms[0].0 == "id" &&
    ms[1].0 == "timestamp" &&
    ms[2].0 == "use_case" &&
    ms[3].0 == "content" &&
    ms[4].0 == "context" &&
    ms[5].0 == "ai_scores" &&
    ms[6].0 == "ai_overall_score" &&
    ms[7].0 == "ai_decision" &&
    ms[8].0 == "human_scores" &&
    ms[9].0 == "human_overall_score" &&
    ms[10].0 == "human_decision" &&
    ms[11].0 == "human_feedback"
  }

  /** In such a dictionary each field is found again under its own name, and nothing else is there. */
  lemma RecordDictLookups(ms: seq<(string, Json)>)
    requires LaidOutAsRecord(ms)
    ensures HasRequiredFields(ms) && OnlyFields(ms, RecordFields)
    ensures Get(ms, "id") == Some(ms[0].1)
    ensures Get(ms, "timestamp") == Some(ms[1].1)
    ensures Get(ms, "use_case") == Some(ms[2].1)
    ensures Get(ms, "content") == Some(ms[3].1)
    ensures Get(ms, "context") == Some(ms[4].1)
    ensures Get(ms, "ai_scores") == Some(ms[5].1)
    ensures Get(ms, "ai_overall_score") == Some(ms[6].1)
    ensures Get(ms, "ai_decision") == Some(ms[7].1)
    ensures Get(ms, "human_scores") == Some(ms[8].1)
    ensures Get(ms, "human_overall_score") == Some(ms[9].1)
    ensures Get(ms, "human_decision") == Some(ms[10].1)
    ensures Get(ms, "human_feedback") == Some(ms[11].1)
  {
    RecordDictHead(ms);
    RecordDictTail(ms);
    forall i | 0 <= i < |ms|
      ensures ms[i].0 in RecordFields
    {
      assert ms[i].0 == RecordFields[i];
    }
  }

  lemma RecordDictHead(ms: seq<(string, Json)>)
    requires LaidOutAsRecord(ms)
    ensures Get(ms, "id") == Some(ms[0].1)
    ensures Get(ms, "timestamp") == Some(ms[1].1)
    ensures Get(ms, "use_case") == Some(ms[2].1)
    ensures Get(ms, "content") == Some(ms[3].1)
    ensures Get(ms, "context") == Some(ms[4].1)
    ensures Get(ms, "ai_scores") == Some(ms[5].1)
  {
    GetLastBinding(ms, 0);
    GetLastBinding(ms, 1);
    GetLastBinding(ms, 2);
    GetLastBinding(ms, 3);
    GetLastBinding(ms, 4);
    GetLastBinding(ms, 5);
  }

  lemma RecordDictTail(ms: seq<(string, Json)>)
    requires LaidOutAsRecord(ms)
    ensures Get(ms, "ai_overall_score") == Some(ms[6].1)
    ensures Get(ms, "ai_decision") == Some(ms[7].1)
    ensures Get(ms, "human_scores") == Some(ms[8].1)
    ensures Get(ms, "human_overall_score") == Some(ms[9].1)
    ensures Get(ms, "human_decision") == Some(ms[10].1)
    ensures Get(ms, "human_feedback") == Some(ms[11].1)
  {
    GetLastBinding(ms, 6);
    GetLastBinding(ms, 7);
    GetLastBinding(ms, 8);
    GetLastBinding(ms, 9);
    GetLastBinding(ms, 10);
    GetLastBinding(ms, 11);
  }

  lemma HumanScoresRoundTrip(v: Option<ScoreMap>)
    requires v.Some? ==> DistinctScoreKeys(v.value)
    ensures HumanScoresFromDict(Some(match v case None => JNull case Some(m) => JObj(ScoreMembers(m)))) == Success(v)
  {
    if v.Some? {
      ScoreMapRoundTrip(v.value);
    }
  }

  /** The member values `to_dict` writes for a record, in field order. */
  predicate HoldsRecord(ms: seq<(string, Json)>, r: EvaluationRecord)
    requires |ms| == 12
  {
    && ms[0].1 == JStr(r.id) && ms[1].1 == JStr(r.timestamp) && ms[2].1 == JStr(r.useCase)
    && ms[3].1 == JStr(r.content) && ms[4].1 == JStr(r.context)
    && ms[5].1 == JObj(ScoreMembers(r.aiScores))
    && ms[6].1 == JNum(r.aiOverallScore) && ms[7].1 == JStr(Label(r.aiDecision))
    && ms[8].1 == (match r.humanScores case None => JNull case Some(m) => JObj(ScoreMembers(m)))
    && ms[9].1 == OptionalNum(r.humanOverallScore)
    && ms[10].1 == OptionalStr(match r.humanDecision case None => None case Some(d) => Some(Label(d)))
    && ms[11].1 == OptionalStr(r.humanFeedback)
  }

  lemma OptionalNumRoundTrip(ms: seq<(string, Json)>, name: string, v: Option<real>)
    requires Get(ms, name) == Some(OptionalNum(v))
    ensures OptionalNumField(ms, name) == Success(v)
  {
  }

  lemma OptionalStrRoundTrip(ms: seq<(string, Json)>, name: string, v: Option<string>)
    requires Get(ms, name) == Some(OptionalStr(v))
    ensures OptionalStrField(ms, name) == Success(v)
  {
  }

  lemma FieldsRoundTrip(ms: seq<(string, Json)>, r: EvaluationRecord)
    requires LaidOutAsRecord(ms) && HoldsRecord(ms, r)
    ensures HasRequiredFields(ms) && RecordFromFields(ms, r.aiScores, r.humanScores) == Success(r)
  {
    RecordDictLookups(ms);
    FieldsFromMembers(ms, r);
  }

  /** Every field of the record comes back from the member it was laid out in; `None` comes back from null. */
  lemma FieldsFromMembers(ms: seq<(string, Json)>, r: EvaluationRecord)
    requires HasRequiredFields(ms)
    requires Get(ms, "id") == Some(JStr(r.id)) && Get(ms, "timestamp") == Some(JStr(r.timestamp))
    requires Get(ms, "use_case") == Some(JStr(r.useCase)) && Get(ms, "content") == Some(JStr(r.content))
    requires Get(ms, "context") == Some(JStr(r.context))
    requires Get(ms, "ai_overall_score") == Some(JNum(r.aiOverallScore))
    requires Get(ms, "ai_decision") == Some(JStr(Label(r.aiDecision)))
    requires Get(ms, "human_overall_score") == Some(OptionalNum(r.humanOverallScore))
    requires Get(ms, "human_decision") == Some(OptionalStr(match r.humanDecision case None => None case Some(d) => Some(Label(d))))
    requires Get(ms, "human_feedback") == Some(OptionalStr(r.humanFeedback))
    ensures RecordFromFields(ms, r.aiScores, r.humanScores) == Success(r)
  {
    StrFieldOf(ms, "id", r.id);
    StrFieldOf(ms, "timestamp", r.timestamp);
    StrFieldOf(ms, "use_case", r.useCase);
    StrFieldOf(ms, "content", r.content);
    StrFieldOf(ms, "context", r.context);
    StrFieldOf(ms, "ai_decision", Label(r.aiDecision));
    LabelRoundTrip(r.aiDecision);
    OptionalNumRoundTrip(ms, "human_overall_score", r.humanOverallScore);
    OptionalStrRoundTrip(ms, "human_feedback", r.humanFeedback);
    var humanLabel := match r.humanDecision case None => None case Some(d) => Some(Label(d));
    OptionalStrRoundTrip(ms, "human_decision", humanLabel);
    if r.humanDecision.Some? {
      LabelRoundTrip(r.humanDecision.value);
    }
    assert OptionalDecision(humanLabel) == Success(r.humanDecision);
  }

  lemma StrFieldOf(ms: seq<(string, Json)>, name: string, v: string)
    requires Get(ms, name) == Some(JStr(v))
    ensures HasKey(ms, name) && StrField(ms, name) == Success(v)
  {
  }

  /** Once both score dictionaries rebuild and the fields are right, `from_dict` is `cls(**data)`. */
  lemma RecordFromRebuilt(ms: seq<(string, Json)>, ai: ScoreMap, human: Option<ScoreMap>)
    requires HasKey(ms, "ai_scores") && ScoreMapFromDict(Get(ms, "ai_scores").value) == Success(ai)
    requires HumanScoresFromDict(Get(ms, "human_scores")) == Success(human)
    requires OnlyFields(ms, RecordFields) && HasRequiredFields(ms)
    ensures RecordFromDict(JObj(ms)) == RecordFromFields(ms, ai, human)
  {
  }

  /** The `ai_scores` member rebuilds to the map it was laid out from. */
  lemma AiScoresRebuilt(ms: seq<(string, Json)>, m: ScoreMap)
    requires Get(ms, "ai_scores") == Some(JObj(ScoreMembers(m))) && DistinctScoreKeys(m)
    ensures HasKey(ms, "ai_scores") && ScoreMapFromDict(Get(ms, "ai_scores").value) == Success(m)
  {
    ScoreMapRoundTrip(m);
  }

  /** The `human_scores` member rebuilds to the optional map it was laid out from. */
  lemma HumanScoresRebuilt(ms: seq<(string, Json)>, v: Option<ScoreMap>)
    requires Get(ms, "human_scores") == Some(match v case None => JNull case Some(m) => JObj(ScoreMembers(m)))
    requires v.Some? ==> DistinctScoreKeys(v.value)
    ensures HumanScoresFromDict(Get(ms, "human_scores")) == Success(v)
  {
    HumanScoresRoundTrip(v);
  }

  lemma LaidOutRoundTrip(ms: seq<(string, Json)>, r: EvaluationRecord)
    requires LaidOutAsRecord(ms) && HoldsRecord(ms, r) && WellKeyed(r)
    ensures RecordFromDict(JObj(ms)) == Success(r)
  {
    RecordDictLookups(ms);
    AiScoresRebuilt(ms, r.aiScores);
    HumanScoresRebuilt(ms, r.humanScores);
    FieldsRoundTrip(ms, r);
    RecordFromRebuilt(ms, r.aiScores, r.humanScores);
  }

  /**
   * `from_dict(to_dict(e))` gives back every field, with and without the
   * human judgment, for every record whose score dictionaries are dictionaries.
   */
  lemma RecordRoundTrip(r: EvaluationRecord)
    requires WellKeyed(r)
    ensures RecordFromDict(RecordToDict(r)) == Success(r)
  {
    var ms := RecordToDict(r).members;
    assert LaidOutAsRecord(ms) && HoldsRecord(ms, r);
    LaidOutRoundTrip(ms, r);
  }

  /** The mutable evaluation record. */
  class Evaluation {
    var id: string
    var timestamp: string
    var useCase: string
    var content: string
    var context: string
    var aiScores: ScoreMap
    var aiOverallScore: real
    var aiDecision: Decision
    var humanScores: Option<ScoreMap>
    var humanOverallScore: Option<real>
    var humanDecision: Option<Decision>
    var humanFeedback: Option<string>

    /** The dataclass constructor: the four human fields default to `None`. */
    constructor (id: string, timestamp: string, useCase: string, content: string, context: string,
                 aiScores: ScoreMap, aiOverallScore: real, aiDecision: Decision)
      ensures Record() == EvaluationRecord(id, timestamp, useCase, content, context,
                                           aiScores, aiOverallScore, aiDecision, None, None, None, None)
    {
      this.id, this.timestamp, this.useCase, this.content, this.context := id, timestamp, useCase, content, context;
      this.aiScores, this.aiOverallScore, this.aiDecision := aiScores, aiOverallScore, aiDecision;
      humanScores, humanOverallScore, humanDecision, humanFeedback := None, None, None, None;
    }

    /** The current value of every field. */
    function Record(): EvaluationRecord
      reads this
    {
      EvaluationRecord(id, timestamp, useCase, content, context, aiScores, aiOverallScore, aiDecision,
                       humanScores, humanOverallScore, humanDecision, humanFeedback)
    }

    /** `to_dict`: the dictionary that `from_dict` turns back into this record. */
    function ToDict(): (d: Json)
      reads this
      ensures WellKeyed(Record()) ==> RecordFromDict(d) == Success(Record())
    {
      if WellKeyed(Record()) then RecordRoundTrip(Record()); RecordToDict(Record())
      else RecordToDict(Record())
    }

    /** `Evaluation.from_dict`: a fresh record with the decoded fields, or the exception. */
    static method FromDict(data: Json) returns (r: Result<Evaluation, string>)
      ensures r.Failure? <==> RecordFromDict(data).Failure?
      ensures r.Success? ==> fresh(r.value) && r.value.Record() == RecordFromDict(data).value
      ensures r.Success? ==> WellKeyed(r.value.Record())
    {
      match RecordFromDict(data)
      case Failure(msg) =>
        r := Failure(msg);
      case Success(rec) =>
        var e := new Evaluation(rec.id, rec.timestamp, rec.useCase, rec.content, rec.context,
                                rec.aiScores, rec.aiOverallScore, rec.aiDecision);
        e.humanScores, e.humanOverallScore := rec.humanScores, rec.humanOverallScore;
        e.humanDecision, e.humanFeedback := rec.humanDecision, rec.humanFeedback;
        r := Success(e);
    }
  }
}
