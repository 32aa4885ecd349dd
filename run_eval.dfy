/**
 * Running one scenario: the prompt assembled section by section, the
 * provider chosen from the model name, and the result record with one entry
 * for the base prompt and one per adversarial variant.  The two provider
 * APIs are parameters (prompt and model in, response text out); the
 * timestamp is a parameter too.
 */
module RunEval {
  import opened Wrappers
  import opened Text
  import opened Values

  const ProbabilityInstruction: string :=
    "For this scenario, you must provide explicit numerical probability " +
    "estimates (0-100%) with justification. Do not just give qualitative " +
    "assessments. Provide a point estimate and a defensible range."

  /** `d[key].strip()`. */
  function StrippedField(d: Value, key: string): (r: Result<string, PyError>)
    ensures r.Success? ==> d.Dict? && key in d.entries && d.entries[key].Str?
    ensures r.Success? ==> r.value == Strip(d.entries[key].s)
    ensures r.Success? ==> r.value == [] || !IsSpace(r.value[0])
  {
    var x := Index(d, key);
    if x.Failure? then Failure(x.error) else StripValue(x.value)
  }

  /** `scenario.get("module", "").startswith("07")`. */
  function IsProbabilityModule(scenario: Value): (r: Result<bool, PyError>)
    ensures r.Success? <==> scenario.Dict? && ("module" in scenario.entries ==> scenario.entries["module"].Str?)
    ensures r == Success(true) <==>
              scenario.Dict? && "module" in scenario.entries && scenario.entries["module"].Str? &&
              StartsWith(scenario.entries["module"].s, "07")
    ensures r.Failure? ==> r.error == AttributeError
  {
    var m := Get(scenario, "module", Str(""));
    if m.Failure? then Failure(m.error)
    else if m.value.Str? then Success(StartsWith(m.value.s, "07"))
    else Failure(AttributeError)
  }

  /** The section bodies `build_prompt` reads; an absent optional section is None. */
  datatype PromptFields = PromptFields(
    observed: string, context: Option<string>, manipulation: Option<string>, task: string, important: bool)

  /** The reads of `build_prompt`, in the order the code performs them. */
  function ReadPromptFields(scenario: Value, variant: Value): (r: Result<PromptFields, PyError>)
    ensures r.Success? ==> scenario.Dict? && IsProbabilityModule(scenario) == Success(r.value.important)
    ensures r.Success? ==> StrippedField(scenario, "observed_relationship") == Success(r.value.observed)
    ensures r.Success? ==> StrippedField(scenario, "task") == Success(r.value.task)
    ensures r.Success? ==> (r.value.context.Some? <==> "context" in scenario.entries)
    ensures r.Success? && r.value.context.Some? ==> StrippedField(scenario, "context") == Success(r.value.context.value)
    ensures r.Success? ==> (r.value.manipulation.Some? <==> Truthy(variant))
    ensures r.Success? && r.value.manipulation.Some? ==> StrippedField(variant, "manipulation") == Success(r.value.manipulation.value)
  {
    var observed := StrippedField(scenario, "observed_relationship");
    if observed.Failure? then Failure(observed.error)
    else
      var hasContext := "context" in scenario.entries;
      var context := if hasContext then StrippedField(scenario, "context") else Success([]);
      if context.Failure? then Failure(context.error)
      else
        var manipulation := if Truthy(variant) then StrippedField(variant, "manipulation") else Success([]);
        if manipulation.Failure? then Failure(manipulation.error)
        else
          var task := StrippedField(scenario, "task");
          if task.Failure? then Failure(task.error)
          else
            var important := IsProbabilityModule(scenario);
            if important.Failure? then Failure(important.error)
            else
              Success(PromptFields(observed.value,
                                   if hasContext then Some(context.value) else None,
                                   if Truthy(variant) then Some(manipulation.value) else None,
                                   task.value, important.value))
  }

  /** The `parts` list of `build_prompt`. */
  function PromptParts(scenario: Value, variant: Value): Result<seq<string>, PyError> {
    var fields := ReadPromptFields(scenario, variant);
    if fields.Failure? then Failure(fields.error)
    else
      var f := fields.value;
      Success(Assemble(f.observed, f.context, f.manipulation, f.task,
                       if f.important then Some(ProbabilityInstruction) else None))
  }

  /** An optional section: its heading and body, or nothing when the body is absent. */
  function Section(heading: string, body: Option<string>): seq<string> {
    if body.Some? then [heading, body.value] else []
  }

  /** The sections in the order `build_prompt` appends them; a missing optional section adds no parts. */
  function Assemble(observed: string, context: Option<string>, manipulation: Option<string>, task: string,
                    instruction: Option<string>): seq<string> {
    ["## Observed Relationship", observed] +
    Section("\n## Context", context) +
    Section("\n## Additional Information", manipulation) +
    ["\n## Task", task] +
    Section("\n## Important", instruction)
  }

  /** `build_prompt(scenario, adversarial_variant)`; `Null` stands for the omitted variant. */
  function BuildPrompt(scenario: Value, variant: Value): Result<string, PyError> {
    var parts := PromptParts(scenario, variant);
    if parts.Failure? then Failure(parts.error) else Success(Join(parts.value, "\n\n"))
  }

  /** `build_prompt` as the code runs it: the fields read in order, the sections appended, the parts joined. */
  method BuildPromptByAppends(scenario: Value, variant: Value) returns (r: Result<string, PyError>)
    ensures r == BuildPrompt(scenario, variant)
  {
    var fields := ReadPromptFields(scenario, variant);
    if fields.Failure? {
      return Failure(fields.error);
    }
    var parts := AppendSections(fields.value);
    r := Success(Join(parts, "\n\n"));
  }

  /** The appends of `build_prompt`: each heading and body added to `parts` in turn. */
  method AppendSections(f: PromptFields) returns (parts: seq<string>)
    ensures parts == Assemble(f.observed, f.context, f.manipulation, f.task,
                              if f.important then Some(ProbabilityInstruction) else None)
  {
    parts := [];
    parts := parts + ["## Observed Relationship"];
    parts := parts + [f.observed];
    ghost var expected := ["## Observed Relationship", f.observed];
    if f.context.Some? {
      parts := parts + ["\n## Context"];
      parts := parts + [f.context.value];
    }
    expected := expected + Section("\n## Context", f.context);
    assert parts == expected;
    if f.manipulation.Some? {
      parts := parts + ["\n## Additional Information"];
      parts := parts + [f.manipulation.value];
    }
    expected := expected + Section("\n## Additional Information", f.manipulation);
    assert parts == expected;
    parts := parts + ["\n## Task"];
    parts := parts + [f.task];
    expected := expected + ["\n## Task", f.task];
    assert parts == expected;
    var instruction := if f.important then Some(ProbabilityInstruction) else None;
    if f.important {
      parts := parts + ["\n## Important"];
      parts := parts + [ProbabilityInstruction];
    }
    expected := expected + Section("\n## Important", instruction);
    assert parts == expected;
  }

  lemma InstructionIsLong()
    ensures |ProbabilityInstruction| > 30
  {
  }

  /** A part that cannot be a later section heading, all of which start with a newline. */
  predicate NotHeading(part: string) {
    part == [] || part[0] != '\n'
  }

  /** Each optional section is present exactly when its body is given: no body can be mistaken for a heading. */
  lemma AssembleHeadings(observed: string, context: Option<string>, manipulation: Option<string>, task: string,
                         instruction: Option<string>)
    requires NotHeading(observed) && NotHeading(task)
    requires context.Some? ==> NotHeading(context.value)
    requires manipulation.Some? ==> NotHeading(manipulation.value)
    requires instruction.Some? ==> |instruction.value| > 30
    ensures var parts := Assemble(observed, context, manipulation, task, instruction);
            ("\n## Context" in parts <==> context.Some?) &&
            ("\n## Additional Information" in parts <==> manipulation.Some?) &&
            ("\n## Important" in parts <==> instruction.Some?)
  {
  }

  /** The observed relationship opens the prompt; the instruction, or else the task, closes it. */
  lemma AssembleEnds(observed: string, context: Option<string>, manipulation: Option<string>, task: string,
                     instruction: Option<string>)
    ensures var parts := Assemble(observed, context, manipulation, task, instruction);
            |parts| >= 4 && parts[0] == "## Observed Relationship" && parts[1] == observed &&
            (instruction.Some? ==> parts[|parts| - 2..] == ["\n## Important", instruction.value]) &&
            (instruction.None? ==> parts[|parts| - 2..] == ["\n## Task", task])
  {
  }

  /**
   * The order of the sections: Context right after the observation, the Task
   * section after Additional Information, and Important, when present, after
   * the Task section as the last two parts.
   */
  lemma AssembleOrder(observed: string, context: Option<string>, manipulation: Option<string>, task: string,
                      instruction: Option<string>)
    ensures var parts := Assemble(observed, context, manipulation, task, instruction);
            var t := |parts| - (if instruction.Some? then 4 else 2);
            2 <= t && parts[t..t + 2] == ["\n## Task", task] &&
            (context.Some? ==> parts[2..4] == ["\n## Context", context.value]) &&
            (manipulation.Some? ==> 4 <= t && parts[t - 2..t] == ["\n## Additional Information", manipulation.value]) &&
            (instruction.Some? ==> parts[t + 2..] == ["\n## Important", instruction.value])
  {
  }

  /**
   * The sections of a built prompt: the Context section exactly when the
   * scenario has a `context` key, Additional Information exactly when the
   * variant is truthy, and the probability instruction, last, exactly for a
   * module starting with "07" (the Task section is last otherwise).
   */
  lemma {:induction false} PromptSections(scenario: Value, variant: Value)
    requires PromptParts(scenario, variant).Success?
    ensures var parts := PromptParts(scenario, variant).value;
            scenario.Dict? && |parts| >= 4 &&
            parts[0] == "## Observed Relationship" && parts[1] == Strip(scenario.entries["observed_relationship"].s) &&
            ("\n## Context" in parts <==> "context" in scenario.entries) &&
            ("\n## Additional Information" in parts <==> Truthy(variant)) &&
            ("\n## Important" in parts <==> IsProbabilityModule(scenario) == Success(true))
    ensures var parts := PromptParts(scenario, variant).value;
            (IsProbabilityModule(scenario) == Success(true) ==> parts[|parts| - 2..] == ["\n## Important", ProbabilityInstruction]) &&
            (IsProbabilityModule(scenario) == Success(false) ==>
               parts[|parts| - 2..] == ["\n## Task", Strip(scenario.entries["task"].s)])
  {
    var f := ReadPromptFields(scenario, variant).value;
    var instruction := if f.important then Some(ProbabilityInstruction) else None;
    InstructionIsLong();
    AssembleHeadings(f.observed, f.context, f.manipulation, f.task, instruction);
    AssembleEnds(f.observed, f.context, f.manipulation, f.task, instruction);
  }

  /**
   * The order of a built prompt's sections: Context, when the scenario has
   * one, right after the observation; Additional Information, for a truthy
   * variant, right before the Task section; the probability instruction, for
   * module 07, right after it.
   */
  lemma PromptSectionOrder(scenario: Value, variant: Value)
    requires PromptParts(scenario, variant).Success?
    ensures scenario.Dict?
    ensures var parts := PromptParts(scenario, variant).value;
            var t := |parts| - (if IsProbabilityModule(scenario) == Success(true) then 4 else 2);
            2 <= t && parts[t..t + 2] == ["\n## Task", Strip(scenario.entries["task"].s)] &&
            ("context" in scenario.entries ==> parts[2..4] == ["\n## Context", Strip(scenario.entries["context"].s)]) &&
            (Truthy(variant) ==>
               4 <= t && parts[t - 2..t] == ["\n## Additional Information", Strip(variant.entries["manipulation"].s)])
  {
    var f := ReadPromptFields(scenario, variant).value;
    var instruction := if f.important then Some(ProbabilityInstruction) else None;
    AssembleOrder(f.observed, f.context, f.manipulation, f.task, instruction);
  }

  /** `"\n\n".join` puts the first two parts, separated by a blank line, at the head of the prompt. */
  lemma {:induction false} JoinHead(parts: seq<string>, sep: string)
    requires |parts| >= 2
    ensures StartsWith(Join(parts, sep), parts[0] + sep + parts[1])
  {
    var rest := Join(parts[1..], sep);
    assert Join(parts, sep) == parts[0] + sep + rest;
    if |parts| == 2 {
      assert rest == parts[1];
    } else {
      assert rest == parts[1] + sep + Join(parts[2..], sep);
    }
    assert Join(parts, sep) == (parts[0] + sep + parts[1]) + (rest[|parts[1]|..]);
  }

  /** Every prompt opens with the observed relationship under its heading. */
  lemma PromptOpensWithObservation(scenario: Value, variant: Value)
    requires BuildPrompt(scenario, variant).Success?
    ensures StartsWith(BuildPrompt(scenario, variant).value,
                       "## Observed Relationship" + "\n\n" + Strip(scenario.entries["observed_relationship"].s))
  {
    PromptSections(scenario, variant);
    JoinHead(PromptParts(scenario, variant).value, "\n\n");
  }

  // ------------------------------------------------------------ call_model

  datatype Provider = OpenAI | Anthropic

  /** The provider for a model name: `gpt`/`o1` prefixes go to OpenAI, `claude` to Anthropic, anything else is a ValueError. */
  function Route(model: string): (r: Result<Provider, PyError>)
    ensures r.Failure? ==> r.error == ValueError
    ensures r == Success(OpenAI) <==> StartsWith(model, "gpt") || StartsWith(model, "o1")
    ensures r == Success(Anthropic) <==>
              !StartsWith(model, "gpt") && !StartsWith(model, "o1") && StartsWith(model, "claude")
    ensures r.Failure? <==> !StartsWith(model, "gpt") && !StartsWith(model, "o1") && !StartsWith(model, "claude")
  {
    if StartsWith(model, "gpt") || StartsWith(model, "o1") then Success(OpenAI)
    else if StartsWith(model, "claude") then Success(Anthropic)
    else Failure(ValueError)
  }

  lemma StartsWithExtended(s: string, prefix: string, suffix: string)
    ensures StartsWith(s, prefix) ==> StartsWith(s + suffix, prefix)
  {
    if StartsWith(s, prefix) {
      assert (s + suffix)[..|prefix|] == s[..|prefix|];
    }
  }

  /** Routing is decided by a prefix: lengthening a routable name never changes its provider. */
  lemma RouteByPrefix(model: string, suffix: string)
    requires Route(model).Success?
    ensures Route(model + suffix) == Route(model)
  {
    StartsWithExtended(model, "gpt", suffix);
    StartsWithExtended(model, "o1", suffix);
    StartsWithExtended(model, "claude", suffix);
    if !StartsWith(model, "gpt") && !StartsWith(model, "o1") {
      // model starts with "claude", so model + suffix starts with 'c'
      assert (model + suffix)[0] == 'c';
    }
  }

  /** The model names of the command-line help, and a name no provider claims. */
  lemma RouteExamples()
    ensures Route("gpt-4-turbo") == Success(OpenAI)
    ensures Route("o1-preview") == Success(OpenAI)
    ensures Route("claude-3-opus-20240229") == Success(Anthropic)
    ensures Route("gemini-pro") == Failure(ValueError)
  {
    assert "gpt-4-turbo"[..3] == "gpt";
    assert "o1-preview"[..2] == "o1";
    assert "claude-3-opus-20240229"[..6] == "claude";
    assert "gemini-pro"[..3][1] == 'e' && "gpt"[1] == 'p';
    assert "gemini-pro"[..2][0] == 'g' && "o1"[0] == 'o';
    assert "gemini-pro"[..6][0] == 'g' && "claude"[0] == 'c';
  }

  /** A provider API: prompt and model name in, response text out. */
  type Api = (string, string) -> string

  function CallModel(prompt: string, model: string, openai: Api, anthropic: Api): (r: Result<string, PyError>)
    ensures r.Success? <==> Route(model).Success?
    ensures Route(model) == Success(OpenAI) ==> r == Success(openai(prompt, model))
    ensures Route(model) == Success(Anthropic) ==> r == Success(anthropic(prompt, model))
  {
    var provider := Route(model);
    if provider.Failure? then Failure(provider.error)
    else if provider.value == OpenAI then Success(openai(prompt, model))
    else Success(anthropic(prompt, model))
  }

  // ------------------------------------------------------------ run_single_eval

  /** A fresh, ungraded evaluation entry. */
  function EvalEntry(prompt: string, response: string): Value {
    Dict(map["prompt" := Str(prompt), "response" := Str(response), "scores" := Null, "notes" := Str("")])
  }

  /**
   * The variants iterated: none unless requested and present; a list is
   * iterated in order; an empty mapping or string gives no iterations, a
   * non-empty one yields strings that `variant['variant_id']` rejects, and
   * any other value is not iterable.
   */
  function VariantsToRun(scenario: map<string, Value>, includeAdversarial: bool): (r: Result<seq<Value>, PyError>)
    ensures !includeAdversarial || "adversarial_variants" !in scenario ==> r == Success([])
    ensures r.Failure? ==> r.error == TypeError
  {
    if !includeAdversarial || "adversarial_variants" !in scenario then Success([])
    else
      match scenario["adversarial_variants"]
      case List(items) => Success(items)
      case Dict(m) => if m == map[] then Success([]) else Failure(TypeError)
      case Str(s) => if s == [] then Success([]) else Failure(TypeError)
      case _ => Failure(TypeError)
  }

  /** One adversarial evaluation: the variant's own fields, its prompt and the model's response. */
  function VariantEval(scenario: Value, variant: Value, model: string, openai: Api, anthropic: Api): (r: Result<Value, PyError>)
    ensures r.Success? ==> variant.Dict? && r.value.Dict?
  {
    var id := Index(variant, "variant_id");
    if id.Failure? then Failure(id.error)
    else
      var prompt := BuildPrompt(scenario, variant);
      if prompt.Failure? then Failure(prompt.error)
      else
        var response := CallModel(prompt.value, model, openai, anthropic);
        if response.Failure? then Failure(response.error)
        else
          var manipulation := Index(variant, "manipulation");
          var expected := Index(variant, "expected_failure_mode");
          if manipulation.Failure? then Failure(manipulation.error)
          else if expected.Failure? then Failure(expected.error)
          else
            Success(Dict(EvalEntry(prompt.value, response.value).entries
                           ["variant_id" := id.value]
                           ["manipulation" := manipulation.value]
                           ["expected_failure_mode" := expected.value]))
  }

  /** The adversarial evaluations in variant order; the first failure aborts the run. */
  function VariantEvals(scenario: Value, variants: seq<Value>, model: string, openai: Api, anthropic: Api): (r: Result<seq<Value>, PyError>)
    ensures r.Success? ==> |r.value| == |variants|
    ensures r.Success? ==> forall k :: 0 <= k < |r.value| ==> r.value[k].Dict?
    ensures r.Success? ==>
              forall k :: 0 <= k < |variants| ==> VariantEval(scenario, variants[k], model, openai, anthropic) == Success(r.value[k])
  {
    if variants == [] then Success([])
    else
      var n := |variants| - 1;
      var init := VariantEvals(scenario, variants[..n], model, openai, anthropic);
      var last := VariantEval(scenario, variants[n], model, openai, anthropic);
      if init.Failure? then Failure(init.error)
      else if last.Failure? then Failure(last.error)
      else Success(init.value + [last.value])
  }

  /** The record header written before any model is called: the seven keys of the result format, nothing graded or run yet. */
  function Header(scenario: map<string, Value>, scenarioPath: string, model: string, timestamp: string): (r: map<string, Value>)
    requires "id" in scenario && "relationship_type" in scenario
    ensures r.Keys == {"scenario_id", "scenario_path", "model", "timestamp",
                       "relationship_type_ground_truth", "base_eval", "adversarial_evals"}
  {
    map["scenario_id" := scenario["id"], "scenario_path" := Str(scenarioPath), "model" := Str(model),
        "timestamp" := Str(timestamp), "relationship_type_ground_truth" := scenario["relationship_type"],
        "base_eval" := Null, "adversarial_evals" := List([])]
  }

  function SingleEval(scenario: Value, scenarioPath: string, model: string, includeAdversarial: bool,
                      timestamp: string, openai: Api, anthropic: Api): Result<Value, PyError> {
    var id := Index(scenario, "id");
    var relationship := Index(scenario, "relationship_type");
    if id.Failure? then Failure(id.error)
    else if relationship.Failure? then Failure(relationship.error)
    else
      var prompt := BuildPrompt(scenario, Null);
      if prompt.Failure? then Failure(prompt.error)
      else
        var response := CallModel(prompt.value, model, openai, anthropic);
        if response.Failure? then Failure(response.error)
        else
          var variants := VariantsToRun(scenario.entries, includeAdversarial);
          if variants.Failure? then Failure(variants.error)
          else
            var evals := VariantEvals(scenario, variants.value, model, openai, anthropic);
            if evals.Failure? then Failure(evals.error)
            else
              Success(Dict(Header(scenario.entries, scenarioPath, model, timestamp)
                             ["base_eval" := EvalEntry(prompt.value, response.value)]
                             ["adversarial_evals" := List(evals.value)]))
  }

  lemma VariantEvalsStep(scenario: Value, variants: seq<Value>, j: nat, model: string, openai: Api, anthropic: Api)
    requires j < |variants|
    ensures VariantEvals(scenario, variants[..j + 1], model, openai, anthropic) ==
              var init := VariantEvals(scenario, variants[..j], model, openai, anthropic);
              var last := VariantEval(scenario, variants[j], model, openai, anthropic);
              if init.Failure? then Failure(init.error)
              else if last.Failure? then Failure(last.error)
              else Success(init.value + [last.value])
  {
    assert variants[..j + 1][..j] == variants[..j];
  }

  lemma {:induction false} VariantEvalsAbort(scenario: Value, variants: seq<Value>, j: nat, model: string, openai: Api, anthropic: Api)
    requires j <= |variants| && VariantEvals(scenario, variants[..j], model, openai, anthropic).Failure?
    ensures VariantEvals(scenario, variants, model, openai, anthropic) == VariantEvals(scenario, variants[..j], model, openai, anthropic)
    decreases |variants| - j
  {
    if j < |variants| {
      VariantEvalsStep(scenario, variants, j, model, openai, anthropic);
      VariantEvalsAbort(scenario, variants, j + 1, model, openai, anthropic);
    } else {
      assert variants[..j] == variants;
    }
  }

  /** `run_single_eval`: the record filled in step by step, the variants appended in a loop. */
  method RunSingleEval(scenario: Value, scenarioPath: string, model: string, includeAdversarial: bool,
                       timestamp: string, openai: Api, anthropic: Api) returns (r: Result<Value, PyError>)
    ensures r == SingleEval(scenario, scenarioPath, model, includeAdversarial, timestamp, openai, anthropic)
  {
    var id := Index(scenario, "id");
    var relationship := Index(scenario, "relationship_type");
    if id.Failure? {
      return Failure(id.error);
    }
    if relationship.Failure? {
      return Failure(relationship.error);
    }
    var results := Header(scenario.entries, scenarioPath, model, timestamp);
    var prompt := BuildPrompt(scenario, Null);
    if prompt.Failure? {
      return Failure(prompt.error);
    }
    var response := CallModel(prompt.value, model, openai, anthropic);
    if response.Failure? {
      return Failure(response.error);
    }
    results := results["base_eval" := EvalEntry(prompt.value, response.value)];
    var variants := VariantsToRun(scenario.entries, includeAdversarial);
    if variants.Failure? {
      return Failure(variants.error);
    }
    var evals: seq<Value> := [];
    var j := 0;
    while j < |variants.value|
      invariant 0 <= j <= |variants.value|
      invariant VariantEvals(scenario, variants.value[..j], model, openai, anthropic) == Success(evals)
    {
      VariantEvalsStep(scenario, variants.value, j, model, openai, anthropic);
      var entry := VariantEval(scenario, variants.value[j], model, openai, anthropic);
      if entry.Failure? {
        VariantEvalsAbort(scenario, variants.value, j + 1, model, openai, anthropic);
        return Failure(entry.error);
      }
      evals := evals + [entry.value];
      j := j + 1;
    }
    assert variants.value[..j] == variants.value;
    r := Success(Dict(results["adversarial_evals" := List(evals)]));
  }

  // ------------------------------------------------------------ the record

  /** The record has exactly the seven keys of the result format, the scenario's id and relationship type copied unchanged. */
  lemma SingleEvalKeys(scenario: Value, scenarioPath: string, model: string, includeAdversarial: bool,
                       timestamp: string, openai: Api, anthropic: Api)
    requires SingleEval(scenario, scenarioPath, model, includeAdversarial, timestamp, openai, anthropic).Success?
    ensures var rec := SingleEval(scenario, scenarioPath, model, includeAdversarial, timestamp, openai, anthropic).value;
            rec.Dict? &&
            rec.entries.Keys == {"scenario_id", "scenario_path", "model", "timestamp",
                                 "relationship_type_ground_truth", "base_eval", "adversarial_evals"} &&
            rec.entries["scenario_id"] == scenario.entries["id"] &&
            rec.entries["relationship_type_ground_truth"] == scenario.entries["relationship_type"] &&
            rec.entries["scenario_path"] == Str(scenarioPath) &&
            rec.entries["model"] == Str(model) && rec.entries["timestamp"] == Str(timestamp)
  {
  }

  /**
   * The base entry holds the prompt built without a variant and the
   * response to it, still ungraded; one adversarial entry per variant run,
   * and none when adversarial runs are off.
   */
  lemma SingleEvalEntries(scenario: Value, scenarioPath: string, model: string, includeAdversarial: bool,
                          timestamp: string, openai: Api, anthropic: Api)
    requires SingleEval(scenario, scenarioPath, model, includeAdversarial, timestamp, openai, anthropic).Success?
    ensures var rec := SingleEval(scenario, scenarioPath, model, includeAdversarial, timestamp, openai, anthropic).value;
            var prompt := BuildPrompt(scenario, Null).value;
            rec.Dict? && "base_eval" in rec.entries && "adversarial_evals" in rec.entries &&
            rec.entries["base_eval"] == EvalEntry(prompt, CallModel(prompt, model, openai, anthropic).value) &&
            rec.entries["adversarial_evals"].List? &&
            |rec.entries["adversarial_evals"].items| == |VariantsToRun(scenario.entries, includeAdversarial).value| &&
            (!includeAdversarial ==> rec.entries["adversarial_evals"] == List([]))
  {
  }



  /** The record's adversarial entries are the runs of the scenario's variants, one each, in order. */
  lemma SingleEvalVariantsInOrder(scenario: Value, scenarioPath: string, model: string, includeAdversarial: bool,
                                  timestamp: string, openai: Api, anthropic: Api)
    requires SingleEval(scenario, scenarioPath, model, includeAdversarial, timestamp, openai, anthropic).Success?
    ensures var rec := SingleEval(scenario, scenarioPath, model, includeAdversarial, timestamp, openai, anthropic).value;
            var variants := VariantsToRun(scenario.entries, includeAdversarial).value;
            var items := rec.entries["adversarial_evals"].items;
            |items| == |variants| &&
            forall k :: 0 <= k < |variants| ==> VariantEval(scenario, variants[k], model, openai, anthropic) == Success(items[k])
  {
    SingleEvalEntries(scenario, scenarioPath, model, includeAdversarial, timestamp, openai, anthropic);
  }

  /** An unknown model name fails the run whenever the prompt can be built. */
  lemma UnknownModelFails(scenario: Value, scenarioPath: string, model: string, includeAdversarial: bool,
                          timestamp: string, openai: Api, anthropic: Api)
    requires Route(model).Failure?
    requires Index(scenario, "id").Success? && Index(scenario, "relationship_type").Success?
    requires BuildPrompt(scenario, Null).Success?
    ensures SingleEval(scenario, scenarioPath, model, includeAdversarial, timestamp, openai, anthropic) == Failure(ValueError)
  {
  }

  /**
   * One adversarial entry: it is written exactly when the variant has its three
   * fields, the prompt builds and the model routes; it copies those fields
   * unstripped, holds the variant's prompt and the routed API's answer, and
   * leaves `scores` empty and `notes` blank for grading.
   */
  lemma VariantEvalEntries(scenario: Value, variant: Value, model: string, openai: Api, anthropic: Api)
    ensures VariantEval(scenario, variant, model, openai, anthropic).Success? <==>
              variant.Dict? && "variant_id" in variant.entries && "manipulation" in variant.entries &&
              "expected_failure_mode" in variant.entries &&
              BuildPrompt(scenario, variant).Success? && Route(model).Success?
    ensures VariantEval(scenario, variant, model, openai, anthropic).Success? ==>
              var e := VariantEval(scenario, variant, model, openai, anthropic).value.entries;
              e.Keys == {"variant_id", "manipulation", "expected_failure_mode", "prompt", "response", "scores", "notes"} &&
              e["variant_id"] == variant.entries["variant_id"] &&
              e["manipulation"] == variant.entries["manipulation"] &&
              e["expected_failure_mode"] == variant.entries["expected_failure_mode"] &&
              e["prompt"] == Str(BuildPrompt(scenario, variant).value) &&
              e["response"] == Str(CallModel(BuildPrompt(scenario, variant).value, model, openai, anthropic).value) &&
              e["scores"] == Null && e["notes"] == Str("")
  {
    var r := VariantEval(scenario, variant, model, openai, anthropic);
    if r.Success? {
      var prompt := BuildPrompt(scenario, variant).value;
      var response := CallModel(prompt, model, openai, anthropic).value;
      assert r.value == Dict(EvalEntry(prompt, response).entries
                               ["variant_id" := variant.entries["variant_id"]]
                               ["manipulation" := variant.entries["manipulation"]]
                               ["expected_failure_mode" := variant.entries["expected_failure_mode"]]);
    }
  }

  /** Every adversarial prompt carries the Additional Information section (a variant that has an id is truthy). */
  lemma VariantPromptIsAdversarial(scenario: Value, variant: Value, model: string, openai: Api, anthropic: Api)
    requires VariantEval(scenario, variant, model, openai, anthropic).Success?
    ensures "\n## Additional Information" in PromptParts(scenario, variant).value
  {
    assert "variant_id" in variant.entries;
    assert Truthy(variant);
    PromptSections(scenario, variant);
  }
}
