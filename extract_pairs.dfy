/**
 * Preference pairs for preference training: the scenario prompt (without
 * a variant and without the probability instruction), the strong anchor
 * answer as the chosen response and the failing one as the rejected
 * response, with their scores and the failing answer's notes.
 */
module ExtractPairs {
  import opened Wrappers
  import opened Text
  import opened Values
  import opened RunEval

  /** The reads of this `build_prompt`: observed relationship, optional context, task. */
  function PairPromptFields(scenario: Value): (r: Result<PromptFields, PyError>)
    ensures r.Success? ==> r.value.manipulation.None? && !r.value.important
    ensures r.Success? ==> scenario.Dict? && StrippedField(scenario, "observed_relationship") == Success(r.value.observed)
    ensures r.Success? ==> StrippedField(scenario, "task") == Success(r.value.task)
    ensures r.Success? ==> (r.value.context.Some? <==> "context" in scenario.entries)
    ensures r.Success? && r.value.context.Some? ==> StrippedField(scenario, "context") == Success(r.value.context.value)
  {
    var observed := StrippedField(scenario, "observed_relationship");
    if observed.Failure? then Failure(observed.error)
    else
      var hasContext := "context" in scenario.entries;
      var context := if hasContext then StrippedField(scenario, "context") else Success([]);
      if context.Failure? then Failure(context.error)
      else
        var task := StrippedField(scenario, "task");
        if task.Failure? then Failure(task.error)
        else Success(PromptFields(observed.value, if hasContext then Some(context.value) else None, None, task.value, false))
  }

  /** The `parts` list of this `build_prompt`. */
  function PairPromptParts(scenario: Value): Result<seq<string>, PyError> {
    var fields := PairPromptFields(scenario);
    if fields.Failure? then Failure(fields.error)
    else Success(Assemble(fields.value.observed, fields.value.context, None, fields.value.task, None))
  }

  function BuildPairPrompt(scenario: Value): Result<string, PyError> {
    var parts := PairPromptParts(scenario);
    if parts.Failure? then Failure(parts.error) else Success(Join(parts.value, "\n\n"))
  }

  /** `build_prompt` as the code runs it: the fields read in order, the sections appended, the parts joined. */
  method BuildPairPromptByAppends(scenario: Value) returns (r: Result<string, PyError>)
    ensures r == BuildPairPrompt(scenario)
  {
    var fields := PairPromptFields(scenario);
    if fields.Failure? {
      return Failure(fields.error);
    }
    var parts := AppendSections(fields.value);
    r := Success(Join(parts, "\n\n"));
  }

  /**
   * The Context section appears exactly when the scenario has a `context`
   * key, there is never an Additional Information or Important section, and
   * the task closes the prompt.
   */
  lemma PairPromptSections(scenario: Value)
    requires PairPromptParts(scenario).Success?
    ensures var parts := PairPromptParts(scenario).value;
            scenario.Dict? && |parts| >= 4 &&
            parts[0] == "## Observed Relationship" && parts[1] == Strip(scenario.entries["observed_relationship"].s) &&
            ("\n## Context" in parts <==> "context" in scenario.entries) &&
            "\n## Additional Information" !in parts && "\n## Important" !in parts &&
            parts[|parts| - 2..] == ["\n## Task", Strip(scenario.entries["task"].s)]
  {
    var f := PairPromptFields(scenario).value;
    AssembleHeadings(f.observed, f.context, None, f.task, None);
    AssembleEnds(f.observed, f.context, None, f.task, None);
  }

  /** Outside module 07 both scripts build the same prompt for a scenario, failures included. */
  lemma PairPromptMatchesRunEval(scenario: Value)
    requires IsProbabilityModule(scenario) == Success(false)
    ensures BuildPairPrompt(scenario) == BuildPrompt(scenario, Null)
  {
  }

  /** For module 07 the evaluation prompt is the pair prompt followed by the probability instruction. */
  lemma PairPromptLacksInstruction(scenario: Value)
    requires IsProbabilityModule(scenario) == Success(true) && PairPromptParts(scenario).Success?
    ensures PromptParts(scenario, Null) == Success(PairPromptParts(scenario).value + ["\n## Important", ProbabilityInstruction])
  {
    var f := PairPromptFields(scenario).value;
    assert ReadPromptFields(scenario, Null) == Success(f.(important := true));
    assert Assemble(f.observed, f.context, None, f.task, Some(ProbabilityInstruction)) ==
           Assemble(f.observed, f.context, None, f.task, None) + ["\n## Important", ProbabilityInstruction];
  }

  /** A non-string `module` value fails the evaluation prompt but not the pair prompt, which never reads it. */
  lemma PairPromptIgnoresModule(scenario: Value)
    requires IsProbabilityModule(scenario).Failure? && PairPromptParts(scenario).Success?
    ensures BuildPrompt(scenario, Null) == Failure(AttributeError)
  {
    assert ReadPromptFields(scenario, Null) == Failure(IsProbabilityModule(scenario).error);
  }

  // ------------------------------------------------------------ extract_preference_pair

  /** `scenario["anchor_answers"][grade]`. */
  function AnchorAnswer(scenario: Value, grade: string): (r: Result<Value, PyError>)
    ensures r.Success? <==>
              scenario.Dict? && "anchor_answers" in scenario.entries &&
              scenario.entries["anchor_answers"].Dict? && grade in scenario.entries["anchor_answers"].entries
    ensures r.Success? ==> r.value == scenario.entries["anchor_answers"].entries[grade]
  {
    var answers := Index(scenario, "anchor_answers");
    if answers.Failure? then Failure(answers.error) else Index(answers.value, grade)
  }

  const PairKeys: set<string> := {"scenario_id", "prompt", "chosen", "rejected", "chosen_score",
                                  "rejected_score", "rejection_reason", "relationship_type"}

  /** The fields of the pair, in the order the dictionary display evaluates them after the prompt. */
  function ExtractPreferencePair(scenario: Value): (r: Result<Value, PyError>)
    ensures r.Success? ==> r.value.Dict? && r.value.entries.Keys == PairKeys
    ensures r.Failure? ==> r.error in {KeyError, TypeError, AttributeError}
  {
    var prompt := BuildPairPrompt(scenario);
    if prompt.Failure? then Failure(prompt.error)
    else
      var id := Index(scenario, "id");
      if id.Failure? then Failure(id.error)
      else
        var strong := AnchorAnswer(scenario, "strong");
        if strong.Failure? then Failure(strong.error)
        else
          var chosen := StrippedField(strong.value, "response");
          if chosen.Failure? then Failure(chosen.error)
          else
            var failing := AnchorAnswer(scenario, "failing");
            if failing.Failure? then Failure(failing.error)
            else
              var rejected := StrippedField(failing.value, "response");
              if rejected.Failure? then Failure(rejected.error)
              else
                // both answers are mappings here, so their `get` calls cannot fail
                var chosenScore := Get(strong.value, "score", Int(11)).value;
                var rejectedScore := Get(failing.value, "score", Int(5)).value;
                var reason := Get(failing.value, "notes", Str("")).value;
                var relationship := Index(scenario, "relationship_type");
                if relationship.Failure? then Failure(relationship.error)
                else
                  Success(Dict(map["scenario_id" := id.value, "prompt" := Str(prompt.value),
                                   "chosen" := Str(chosen.value), "rejected" := Str(rejected.value),
                                   "chosen_score" := chosenScore, "rejected_score" := rejectedScore,
                                   "rejection_reason" := reason, "relationship_type" := relationship.value]))
  }

  /** The anchor answer `grade` exists and its `response` is a string. */
  predicate UsableAnswer(scenario: Value, grade: string) {
    AnchorAnswer(scenario, grade).Success? &&
    AnchorAnswer(scenario, grade).value.Dict? &&
    "response" in AnchorAnswer(scenario, grade).value.entries &&
    AnchorAnswer(scenario, grade).value.entries["response"].Str?
  }

  /** Exactly the records with a buildable prompt, an id, a relationship type and usable strong and failing answers give a pair. */
  lemma PairSucceedsIff(scenario: Value)
    ensures ExtractPreferencePair(scenario).Success? <==>
              BuildPairPrompt(scenario).Success? && "id" in scenario.entries &&
              UsableAnswer(scenario, "strong") && UsableAnswer(scenario, "failing") &&
              "relationship_type" in scenario.entries
  {
  }

  /** With every key it reads present, the extractor can fail only where it strips a value that is not a string. */
  lemma PairFailsOnlyOnStrip(scenario: Value)
    requires scenario.Dict?
    requires "observed_relationship" in scenario.entries && "task" in scenario.entries
    requires "id" in scenario.entries && "relationship_type" in scenario.entries
    requires AnchorAnswer(scenario, "strong").Success? && AnchorAnswer(scenario, "failing").Success?
    requires var strong, failing := AnchorAnswer(scenario, "strong").value, AnchorAnswer(scenario, "failing").value;
             strong.Dict? && "response" in strong.entries && failing.Dict? && "response" in failing.entries
    ensures ExtractPreferencePair(scenario).Failure? ==> ExtractPreferencePair(scenario).error == AttributeError
  {
  }

  /** The copied and stripped fields: id, prompt, the two responses and the relationship type. */
  lemma PairFields(scenario: Value)
    requires ExtractPreferencePair(scenario).Success?
    ensures var pair := ExtractPreferencePair(scenario).value.entries;
            var strong := scenario.entries["anchor_answers"].entries["strong"];
            var failing := scenario.entries["anchor_answers"].entries["failing"];
            pair["scenario_id"] == scenario.entries["id"] &&
            pair["prompt"] == Str(BuildPairPrompt(scenario).value) &&
            pair["chosen"] == Str(Strip(strong.entries["response"].s)) &&
            pair["rejected"] == Str(Strip(failing.entries["response"].s)) &&
            pair["relationship_type"] == scenario.entries["relationship_type"]
  {
  }

  /** The scores and the notes are copied when present; otherwise they default to 11, 5 and the empty string. */
  lemma PairDefaults(scenario: Value)
    requires ExtractPreferencePair(scenario).Success?
    ensures var pair := ExtractPreferencePair(scenario).value.entries;
            var strong := scenario.entries["anchor_answers"].entries["strong"].entries;
            var failing := scenario.entries["anchor_answers"].entries["failing"].entries;
            pair["chosen_score"] == (if "score" in strong then strong["score"] else Int(11)) &&
            pair["rejected_score"] == (if "score" in failing then failing["score"] else Int(5)) &&
            pair["rejection_reason"] == (if "notes" in failing then failing["notes"] else Str(""))
  {
  }
}
