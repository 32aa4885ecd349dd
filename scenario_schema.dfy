/**
 * The checks every scenario file must pass, as predicates over the loaded
 * record (the file's stem is a parameter): a check holds when its every
 * assertion holds and no step raises.  A record passing them all supplies
 * what the preference-pair extractor reads.
 */
module ScenarioSchema {
  import opened Wrappers
  import opened Text
  import opened Values
  import opened RunEval
  import opened ExtractPairs

  const RequiredScenarioFields: seq<string> :=
    ["id", "module", "relationship_type", "observed_relationship", "task", "grading_axes", "anchor_answers"]

  const ValidRelationshipTypes: seq<string> :=
    ["structural", "regime_dependent", "coincidental_exploitable", "noise"]

  const RequiredGradingAxes: seq<string> :=
    ["classification", "fragility", "risk_treatment", "critical_error"]

  const RequiredAnchorAnswers: seq<string> :=
    ["strong", "acceptable", "failing"]

  /** The file loads to something: an empty document loads to None. */
  predicate IsValidYaml(data: Value) {
    data != Null
  }

  /** `field in data` holds for every required field. */
  predicate HasRequiredFields(data: Value) {
    forall i :: 0 <= i < |RequiredScenarioFields| ==> Contains(data, RequiredScenarioFields[i]) == Success(true)
  }

  /** `data.get("relationship_type")` is one of the four listed strings. */
  predicate RelationshipTypeIsValid(data: Value) {
    var relationship := Get(data, "relationship_type", Null);
    relationship.Success? && relationship.value.Str? && relationship.value.s in ValidRelationshipTypes
  }

  /** Every name of `names` is `in` the value found under `key`, which defaults to an empty mapping. */
  predicate ContainsAll(data: Value, key: string, names: seq<string>) {
    var found := Get(data, key, Dict(map[]));
    found.Success? && forall i :: 0 <= i < |names| ==> Contains(found.value, names[i]) == Success(true)
  }

  predicate GradingAxesComplete(data: Value) {
    ContainsAll(data, "grading_axes", RequiredGradingAxes)
  }

  predicate AnchorAnswersComplete(data: Value) {
    ContainsAll(data, "anchor_answers", RequiredAnchorAnswers)
  }

  /** One anchor answer passes: it has a `response` whose length exceeds 100. */
  predicate HasLongResponse(answer: Value) {
    Contains(answer, "response") == Success(true) &&
    Index(answer, "response").Success? &&
    Len(Index(answer, "response").value).Success? &&
    Len(Index(answer, "response").value).value > 100
  }

  /** The answers must be a mapping (they are iterated with `items()`), and every answer passes. */
  predicate AnchorAnswersHaveResponse(data: Value) {
    var answers := Get(data, "anchor_answers", Dict(map[]));
    answers.Success? && answers.value.Dict? &&
    forall grade :: grade in answers.value.entries ==> HasLongResponse(answers.value.entries[grade])
  }

  /** `data.get("id") == scenario_file.stem`. */
  predicate IdMatchesFilename(data: Value, stem: string) {
    Get(data, "id", Null) == Success(Str(stem))
  }

  /** The failing answer's notes, lower-cased, mention the critical error. */
  predicate FailingAnswerExplainsCriticalError(data: Value) {
    var answers := Get(data, "anchor_answers", Dict(map[]));
    answers.Success? &&
    var failing := Get(answers.value, "failing", Dict(map[]));
    failing.Success? &&
    var notes := Get(failing.value, "notes", Str(""));
    notes.Success? && LowerValue(notes.value).Success? &&
    MentionsCriticalError(LowerValue(notes.value).value)
  }

  predicate MentionsCriticalError(lowered: string) {
    ContainsSub(lowered, "critical error") || ContainsSub(lowered, "critical_error")
  }

  predicate HasAdversarialVariants(data: Value) {
    var variants := Get(data, "adversarial_variants", List([]));
    variants.Success? && Len(variants.value).Success? && Len(variants.value).value >= 2
  }

  /** All per-file checks. */
  predicate ValidScenario(data: Value, stem: string) {
    IsValidYaml(data) && HasRequiredFields(data) && RelationshipTypeIsValid(data) &&
    GradingAxesComplete(data) && AnchorAnswersComplete(data) && AnchorAnswersHaveResponse(data) &&
    IdMatchesFilename(data, stem) && FailingAnswerExplainsCriticalError(data) && HasAdversarialVariants(data)
  }

  // ---------------------------------------------------------------- properties

  /**
   * A valid record is a mapping with every required key; its id is the
   * file stem, its relationship type one of the four, and it has at least
   * two adversarial variants.
   */
  lemma ValidScenarioFields(data: Value, stem: string)
    requires ValidScenario(data, stem)
    ensures data.Dict?
    ensures forall i :: 0 <= i < |RequiredScenarioFields| ==> RequiredScenarioFields[i] in data.entries
    ensures data.entries["id"] == Str(stem)
    ensures data.entries["relationship_type"].Str? && data.entries["relationship_type"].s in ValidRelationshipTypes
    ensures "adversarial_variants" in data.entries && Len(data.entries["adversarial_variants"]).value >= 2
  {
    assert Contains(data, RequiredScenarioFields[0]) == Success(true);
    assert Contains(data, RequiredScenarioFields[2]) == Success(true);
  }

  /** The strong and failing answers of a valid record are mappings with a `response`. */
  lemma ValidScenarioAnswers(data: Value, stem: string)
    requires ValidScenario(data, stem)
    ensures AnchorAnswer(data, "strong").Success? && AnchorAnswer(data, "failing").Success?
    ensures var strong, failing := AnchorAnswer(data, "strong").value, AnchorAnswer(data, "failing").value;
            strong.Dict? && "response" in strong.entries && failing.Dict? && "response" in failing.entries
  {
    ValidScenarioFields(data, stem);
    var answers := data.entries["anchor_answers"];
    assert Contains(answers, RequiredAnchorAnswers[0]) == Success(true);
    assert Contains(answers, RequiredAnchorAnswers[2]) == Success(true);
    assert HasLongResponse(answers.entries["strong"]);
    assert HasLongResponse(answers.entries["failing"]);
  }

  /**
   * A valid record supplies every key the extractor reads: extraction can
   * fail only because a field it strips is not a string, never for a
   * missing key or a value of the wrong kind to index.
   */
  lemma ValidScenarioSuppliesPairKeys(data: Value, stem: string)
    requires ValidScenario(data, stem)
    ensures ExtractPreferencePair(data).Failure? ==> ExtractPreferencePair(data).error == AttributeError
  {
    ValidScenarioFields(data, stem);
    ValidScenarioAnswers(data, stem);
    assert "observed_relationship" == RequiredScenarioFields[3];
    assert "task" == RequiredScenarioFields[4];
    PairFailsOnlyOnStrip(data);
  }

  /** The text fields of the record, and the two responses the pair copies, are strings. */
  predicate StringFields(data: Value) {
    data.Dict? &&
    (forall key :: key in {"observed_relationship", "task", "context"} && key in data.entries ==> data.entries[key].Str?) &&
    UsableAnswer(data, "strong") && UsableAnswer(data, "failing")
  }

  /**
   * With string text fields a valid record always gives a pair, whose
   * relationship type is one of the four and whose rejection reason
   * mentions the critical error.
   */
  lemma ValidScenarioGivesPair(data: Value, stem: string)
    requires ValidScenario(data, stem) && StringFields(data)
    ensures ExtractPreferencePair(data).Success?
    ensures var pair := ExtractPreferencePair(data).value.entries;
            pair["relationship_type"].Str? && pair["relationship_type"].s in ValidRelationshipTypes &&
            pair["rejection_reason"].Str? && MentionsCriticalError(Lower(pair["rejection_reason"].s))
  {
    ValidScenarioFields(data, stem);
    ValidScenarioAnswers(data, stem);
    assert "observed_relationship" == RequiredScenarioFields[3];
    assert "task" == RequiredScenarioFields[4];
    PairSucceedsIff(data);
    PairFields(data);
    PairDefaults(data);
  }
}
