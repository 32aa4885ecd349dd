/**
 * The grading tool: the acceptance rules of the score and critical-error
 * prompts, the three-axis total with its cap, the in-place write-back of
 * grades into a results list, and the counts and averages of the summary.
 * The rater at the keyboard is a parameter: `rater(i, None)` are the answers
 * typed for the base evaluation of result `i`, and `rater(i, Some(j))` those
 * for its adversarial variant `j`; `grade_response` turns them into grades.
 */
module Grade {
  import opened Wrappers
  import opened Text
  import opened Values

  // ------------------------------------------------------------ answer acceptance

  /** Python's `int(s)` on an already stripped string: an optional sign and one or more digits. */
  function ParseInt(s: string): (r: Option<int>)
    ensures r.Some? ==> s != [] && (r.value < 0 ==> s[0] == '-')
  {
    if s == [] then None
    else if s[0] == '-' || s[0] == '+' then
      var digits := s[1..];
      if digits != [] && AllDigits(digits) then
        Some(if s[0] == '-' then -(DecimalValue(digits) as int) else DecimalValue(digits))
      else None
    else if AllDigits(s) then Some(DecimalValue(s))
    else None
  }

  /** The decimal digits of `n`, without leading zeros (`str(n)`). */
  function DecimalString(n: nat): (s: string)
    ensures s != [] && AllDigits(s)
    decreases n
  {
    var digit := ['0' + (n % 10) as char];
    if n < 10 then digit else DecimalString(n / 10) + digit
  }

  lemma {:induction false} DecimalStringValue(n: nat)
    ensures DecimalValue(DecimalString(n)) == n
    decreases n
  {
    var s := DecimalString(n);
    var digit := ['0' + (n % 10) as char];
    if n >= 10 {
      DecimalStringValue(n / 10);
      assert s[..|s| - 1] == DecimalString(n / 10);
    }
  }

  /**
   * One answer to `get_score`'s prompt: accepted when, after stripping, it is
   * an integer in `[0, maxScore]`; otherwise the prompt repeats.
   */
  function AcceptScore(line: string, maxScore: int): (r: Option<int>)
    ensures r.Some? ==> 0 <= r.value <= maxScore
    ensures r.Some? ==> ParseInt(Strip(line)) == r
  {
    var v := ParseInt(Strip(line));
    if v.Some? && 0 <= v.value <= maxScore then v else None
  }

  /** Every score the prompt allows is accepted when typed as its decimal numeral. */
  lemma AcceptScoreRoundTrip(n: nat, maxScore: int)
    requires n <= maxScore
    ensures AcceptScore(DecimalString(n), maxScore) == Some(n)
  {
    var s := DecimalString(n);
    StripUnchanged(s);
    DecimalStringValue(n);
  }

  /** One answer to `get_critical_error`'s prompt: y/yes and n/no after strip and lower-casing. */
  function AcceptCriticalError(line: string): (r: Option<bool>)
    ensures r == Some(true) <==> Lower(Strip(line)) in {"y", "yes"}
    ensures r == Some(false) <==> Lower(Strip(line)) in {"n", "no"}
  {
    var answer := Lower(Strip(line));
    if answer == "y" || answer == "yes" then Some(true)
    else if answer == "n" || answer == "no" then Some(false)
    else None
  }

  /** The critical-error prompt does not care about letter case. */
  lemma AcceptCriticalErrorIgnoresCase(line: string)
    ensures AcceptCriticalError(Lower(line)) == AcceptCriticalError(line)
  {
    StripLowerCommute(line);
    LowerIdempotent(Strip(line));
  }

  /**
   * The `while True` retry loop of both prompts over a finite stream of typed
   * lines: the first accepted line decides, and `consumed` lines are read.
   * `None` means the stream ended first.
   */
  method FirstAccepted<T(==)>(inputs: seq<string>, accept: string -> Option<T>) returns (r: Option<T>, consumed: nat)
    ensures r.None? <==> forall k :: 0 <= k < |inputs| ==> accept(inputs[k]).None?
    ensures r.Some? ==> 1 <= consumed <= |inputs| && accept(inputs[consumed - 1]) == r
    ensures r.Some? ==> forall k :: 0 <= k < consumed - 1 ==> accept(inputs[k]).None?
    ensures r.None? ==> consumed == |inputs|
  {
    consumed := 0;
    while consumed < |inputs|
      invariant consumed <= |inputs|
      invariant forall k :: 0 <= k < consumed ==> accept(inputs[k]).None?
    {
      var answer := accept(inputs[consumed]);
      consumed := consumed + 1;
      if answer.Some? {
        return answer, consumed;
      }
    }
    r := None;
  }

  // ------------------------------------------------------------ grading one response

  /** The accepted answers for one response (each score already passed `AcceptScore` with 3). */
  datatype Answers = Answers(classification: int, fragility: int, riskTreatment: int, criticalError: bool, notes: string)

  function RawTotal(a: Answers): int {
    a.classification + a.fragility + a.riskTreatment
  }

  /** The recorded total: the raw sum, capped at 6 when a critical error was flagged. */
  function Total(a: Answers): int {
    if a.criticalError then (if RawTotal(a) < 6 then RawTotal(a) else 6) else RawTotal(a)
  }

  /** The `scores` dictionary of `grade_response`. */
  function ScoresValue(a: Answers): Value {
    Dict(map[
      "classification" := Int(a.classification),
      "fragility" := Int(a.fragility),
      "risk_treatment" := Int(a.riskTreatment),
      "critical_error" := Str(if a.criticalError then "fail" else "pass"),
      "total" := Int(Total(a))])
  }

  /** The five keys of the scores, `critical_error` as "fail"/"pass" and the capped total. */
  lemma ScoresValueShape(a: Answers)
    ensures var v := ScoresValue(a);
            v.entries.Keys == {"classification", "fragility", "risk_treatment", "critical_error", "total"} &&
            v.entries["critical_error"] == Str(if a.criticalError then "fail" else "pass") &&
            v.entries["total"] == Int(Total(a))
  {
  }

  /** `grade_response`'s result `{"scores": ..., "notes": ...}`. */
  datatype Grading = Grading(scores: Value, notes: string)

  function GradeResponse(a: Answers): (g: Grading)
    ensures g.scores == ScoresValue(a) && g.notes == Strip(a.notes)
  {
    Grading(ScoresValue(a), Strip(a.notes))
  }

  /**
   * A scores record as `grade_response` writes it for accepted answers: the
   * five keys, each axis an integer in 0-3, `critical_error` "fail" or "pass",
   * and the total the axis sum, capped at 6 on "fail".
   */
  predicate WellGraded(v: Value) {
    v.Dict? &&
    v.entries.Keys == {"classification", "fragility", "risk_treatment", "critical_error", "total"} &&
    (forall k :: k in {"classification", "fragility", "risk_treatment"} ==>
       v.entries[k].Int? && 0 <= v.entries[k].i <= 3) &&
    (v.entries["critical_error"] == Str("fail") || v.entries["critical_error"] == Str("pass")) &&
    v.entries["total"].Int? &&
    var raw := v.entries["classification"].i + v.entries["fragility"].i + v.entries["risk_treatment"].i;
    v.entries["total"].i == if v.entries["critical_error"] == Str("fail") && raw > 6 then 6 else raw
  }

  /**
   * What `grade_response` promises: the axis scores as typed, `critical_error`
   * "fail" exactly when a critical error was flagged, the total the raw sum
   * capped at 6 on "fail" only, the stripped notes; for accepted answers the
   * scores are well graded, so a "fail" never totals more than 6.
   */
  lemma GradeResponseMeaning(a: Answers)
    ensures var g := GradeResponse(a);
            g.scores.Dict? &&
            g.scores.entries.Keys == {"classification", "fragility", "risk_treatment", "critical_error", "total"} &&
            g.scores.entries["classification"] == Int(a.classification) &&
            g.scores.entries["fragility"] == Int(a.fragility) &&
            g.scores.entries["risk_treatment"] == Int(a.riskTreatment) &&
            (g.scores.entries["critical_error"] == Str("fail") <==> a.criticalError) &&
            (g.scores.entries["critical_error"] == Str("pass") <==> !a.criticalError) &&
            g.notes == Strip(a.notes)
    ensures a.criticalError ==> GradeResponse(a).scores.entries["total"] == Int(if RawTotal(a) <= 6 then RawTotal(a) else 6)
    ensures !a.criticalError ==> GradeResponse(a).scores.entries["total"] == Int(RawTotal(a))
    ensures 0 <= a.classification <= 3 && 0 <= a.fragility <= 3 && 0 <= a.riskTreatment <= 3 ==>
              WellGraded(GradeResponse(a).scores) &&
              (GradeResponse(a).scores.entries["critical_error"] == Str("fail") ==> GradeResponse(a).scores.entries["total"].i <= 6)
  {
  }

  /** The cap rule: never above 6 after a critical error, and the raw sum whenever that is at most 6. */
  lemma TotalCap(a: Answers)
    ensures a.criticalError ==> Total(a) <= 6
    ensures a.criticalError && RawTotal(a) <= 6 ==> Total(a) == RawTotal(a)
    ensures a.criticalError && RawTotal(a) > 6 ==> Total(a) == 6
    ensures !a.criticalError ==> Total(a) == RawTotal(a)
    ensures Total(a) <= RawTotal(a)
  {
  }

  /** With every axis in 0-3 the total lies in 0-9, and in 0-6 after a critical error. */
  lemma TotalRange(a: Answers)
    requires 0 <= a.classification <= 3 && 0 <= a.fragility <= 3 && 0 <= a.riskTreatment <= 3
    ensures 0 <= Total(a) <= 9
    ensures a.criticalError ==> 0 <= Total(a) <= 6
  {
  }

  /** A critical error costs at most 3 points, and only when the raw sum exceeds 6. */
  lemma CriticalErrorCost(a: Answers)
    requires 0 <= a.classification <= 3 && 0 <= a.fragility <= 3 && 0 <= a.riskTreatment <= 3
    ensures Total(a.(criticalError := false)) - Total(a.(criticalError := true)) <= 3
    ensures Total(a.(criticalError := true)) < Total(a.(criticalError := false)) <==> RawTotal(a) > 6
  {
  }

  // ------------------------------------------------------------ grade_file

  /** `e["scores"] = grading["scores"]; e["notes"] = grading["notes"]` on one evaluation. */
  function GradedEval(e: Value, g: Grading): (r: Result<Value, PyError>)
    ensures r.Success? <==> e.Dict?
  {
    var withScores := SetKey(e, "scores", g.scores);
    if withScores.Failure? then Failure(withScores.error) else SetKey(withScores.value, "notes", Str(g.notes))
  }

  /** Answers whose axis scores are ones `AcceptScore(_, 3)` accepts. */
  type AcceptedAnswers = a: Answers | 0 <= a.classification <= 3 && 0 <= a.fragility <= 3 && 0 <= a.riskTreatment <= 3
    witness Answers(0, 0, 0, false, "")

  /** The answers typed for each response: `rater(i, None)` for the base evaluation of result `i`, `rater(i, Some(j))` for its variant `j`. */
  type Rater = (nat, Option<nat>) -> AcceptedAnswers

  /** The write-back adds (or replaces) exactly `scores` and `notes` and keeps every other field. */
  lemma GradedEvalWrites(e: Value, g: Grading)
    requires e.Dict?
    ensures var r := GradedEval(e, g).value;
            r.Dict? && r.entries.Keys == e.entries.Keys + {"scores", "notes"} &&
            r.entries["scores"] == g.scores && r.entries["notes"] == Str(g.notes) &&
            forall k :: k in e.entries && k != "scores" && k != "notes" ==> r.entries[k] == e.entries[k]
  {
  }

  /**
   * The list iterated by `enumerate(eval_result.get("adversarial_evals", []))`.
   * An empty mapping or string is iterated zero times; a non-empty mapping fails
   * at `adversarial_evals[0]` (its keys are strings), a non-empty string at the
   * item assignment, and `None` or a number is not iterable.
   */
  function VariantsOf(rec: map<string, Value>): (r: Result<seq<Value>, PyError>)
    ensures "adversarial_evals" !in rec ==> r == Success([])
    ensures "adversarial_evals" in rec && rec["adversarial_evals"].List? ==> r == Success(rec["adversarial_evals"].items)
  {
    if "adversarial_evals" !in rec then Success([])
    else
      match rec["adversarial_evals"]
      case List(items) => Success(items)
      case Dict(m) => if m == map[] then Success([]) else Failure(KeyError)
      case Str(s) => if s == [] then Success([]) else Failure(TypeError)
      case _ => Failure(TypeError)
  }

  /** The inner loop: variant `j` of result `i` graded with `rater(i, Some(j))`, the first failure aborting. */
  function GradeVariants(variants: seq<Value>, i: nat, rater: Rater): (r: Result<seq<Value>, PyError>)
    ensures r.Success? <==> forall j :: 0 <= j < |variants| ==> variants[j].Dict?
    ensures r.Success? ==> |r.value| == |variants|
  {
    if variants == [] then Success([])
    else
      var n := |variants| - 1;
      var init := GradeVariants(variants[..n], i, rater);
      var last := GradedEval(variants[n], GradeResponse(rater(i, Some(n))));
      if init.Failure? then Failure(init.error)
      else if last.Failure? then Failure(last.error)
      else Success(init.value + [last.value])
  }

  /** Variant `j` of the graded list is variant `j` of the old list with its grades written back. */
  lemma {:induction false} GradeVariantsElements(variants: seq<Value>, i: nat, rater: Rater)
    requires GradeVariants(variants, i, rater).Success?
    ensures forall j :: 0 <= j < |variants| ==>
              GradedEval(variants[j], GradeResponse(rater(i, Some(j)))) == Success(GradeVariants(variants, i, rater).value[j])
  {
    if variants != [] {
      var n := |variants| - 1;
      var prefix := variants[..n];
      GradeVariantsElements(prefix, i, rater);
      var init := GradeVariants(prefix, i, rater).value;
      var last := GradedEval(variants[n], GradeResponse(rater(i, Some(n))));
      assert GradeVariants(variants, i, rater).value == init + [last.value];
      forall j | 0 <= j < n
        ensures GradedEval(variants[j], GradeResponse(rater(i, Some(j)))) == Success(init[j])
      {
        assert prefix[j] == variants[j];
      }
    }
  }

  /** Grading result `i`: the base evaluation first, then each adversarial variant. */
  function GradeRecord(rec: Value, i: nat, rater: Rater): (r: Result<Value, PyError>)
    ensures !rec.Dict? ==> r == Failure(TypeError)
    ensures rec.Dict? && "base_eval" !in rec.entries ==> r == Failure(KeyError)
    ensures r.Success? <==>
              rec.Dict? && "base_eval" in rec.entries && rec.entries["base_eval"].Dict? &&
              VariantsOf(rec.entries).Success? &&
              forall j :: 0 <= j < |VariantsOf(rec.entries).value| ==> VariantsOf(rec.entries).value[j].Dict?
    ensures r.Success? ==> r.value.Dict?
  {
    if !rec.Dict? then Failure(TypeError)
    else if "base_eval" !in rec.entries then Failure(KeyError)
    else
      var base := GradedEval(rec.entries["base_eval"], GradeResponse(rater(i, None)));
      if base.Failure? then Failure(base.error)
      else
        var variants := VariantsOf(rec.entries);
        if variants.Failure? then Failure(variants.error)
        else if variants.value == [] then Success(Dict(rec.entries["base_eval" := base.value]))
        else
          var graded := GradeVariants(variants.value, i, rater);
          if graded.Failure? then Failure(graded.error)
          else Success(Dict(rec.entries["base_eval" := base.value]["adversarial_evals" := List(graded.value)]))
  }

  /** The outer loop over the results list; the first failure aborts. */
  function GradeAll(records: seq<Value>, rater: Rater): (r: Result<seq<Value>, PyError>)
    ensures r.Success? <==> forall i :: 0 <= i < |records| ==> GradeRecord(records[i], i, rater).Success?
    ensures r.Success? ==> |r.value| == |records|
    ensures r.Success? ==> forall i :: 0 <= i < |records| ==> GradeRecord(records[i], i, rater) == Success(r.value[i])
  {
    if records == [] then Success([])
    else
      var n := |records| - 1;
      var init := GradeAll(records[..n], rater);
      var last := GradeRecord(records[n], n, rater);
      if init.Failure? then Failure(init.error)
      else if last.Failure? then Failure(last.error)
      else Success(init.value + [last.value])
  }

  lemma GradeAllStep(records: seq<Value>, i: nat, rater: Rater)
    requires i < |records|
    ensures GradeAll(records[..i + 1], rater) ==
              var init := GradeAll(records[..i], rater);
              var last := GradeRecord(records[i], i, rater);
              if init.Failure? then Failure(init.error)
              else if last.Failure? then Failure(last.error)
              else Success(init.value + [last.value])
  {
    assert records[..i + 1][..i] == records[..i];
  }

  lemma GradeVariantsStep(variants: seq<Value>, j: nat, i: nat, rater: Rater)
    requires j < |variants|
    ensures GradeVariants(variants[..j + 1], i, rater) ==
              var init := GradeVariants(variants[..j], i, rater);
              var last := GradedEval(variants[j], GradeResponse(rater(i, Some(j))));
              if init.Failure? then Failure(init.error)
              else if last.Failure? then Failure(last.error)
              else Success(init.value + [last.value])
  {
    assert variants[..j + 1][..j] == variants[..j];
  }

  /** The variants of one result graded in place, one element at a time. */
  method GradeVariantsInPlace(variants: array<Value>, i: nat, rater: Rater) returns (error: Option<PyError>)
    modifies variants
    ensures var spec := GradeVariants(old(variants[..]), i, rater);
            (error.None? <==> spec.Success?) &&
            (error.Some? ==> spec == Failure(error.value)) &&
            (spec.Success? ==> variants[..] == spec.value)
  {
    ghost var original := variants[..];
    var j := 0;
    while j < variants.Length
      invariant 0 <= j <= variants.Length
      invariant GradeVariants(original[..j], i, rater) == Success(variants[..j])
      invariant forall k :: j <= k < variants.Length ==> variants[k] == original[k]
    {
      GradeVariantsStep(original, j, i, rater);
      assert variants[j] == original[j];
      var e := GradedEval(variants[j], GradeResponse(rater(i, Some(j))));
      if e.Failure? {
        assert GradeVariants(original[..j + 1], i, rater) == Failure(e.error);
        GradeVariantsAbort(original, j + 1, i, rater);
        return Some(e.error);
      }
      ghost var done := variants[..j];
      variants[j] := e.value;
      assert variants[..j + 1] == done + [e.value];
      j := j + 1;
    }
    assert original[..j] == original;
    error := None;
  }

  /** A failure on a prefix of the variants is the failure of the whole list. */
  lemma {:induction false} GradeVariantsAbort(variants: seq<Value>, j: nat, i: nat, rater: Rater)
    requires j <= |variants| && GradeVariants(variants[..j], i, rater).Failure?
    ensures GradeVariants(variants, i, rater) == GradeVariants(variants[..j], i, rater)
    decreases |variants| - j
  {
    if j < |variants| {
      GradeVariantsStep(variants, j, i, rater);
      GradeVariantsAbort(variants, j + 1, i, rater);
    } else {
      assert variants[..j] == variants;
    }
  }

  /** A failure on a prefix of the results is the failure of the whole list. */
  lemma {:induction false} GradeAllAbort(records: seq<Value>, i: nat, rater: Rater)
    requires i <= |records| && GradeAll(records[..i], rater).Failure?
    ensures GradeAll(records, rater) == GradeAll(records[..i], rater)
    decreases |records| - i
  {
    if i < |records| {
      GradeAllStep(records, i, rater);
      GradeAllAbort(records, i + 1, rater);
    } else {
      assert records[..i] == records;
    }
  }

  /**
   * `grade_file` without the file and console I/O: every result of the list is
   * graded in place, and on success the list is exactly `GradeAll` of its old contents.
   */
  method GradeFile(results: array<Value>, rater: Rater) returns (error: Option<PyError>)
    modifies results
    ensures var spec := GradeAll(old(results[..]), rater);
            (error.None? <==> spec.Success?) &&
            (error.Some? ==> spec == Failure(error.value)) &&
            (spec.Success? ==> results[..] == spec.value)
  {
    ghost var original := results[..];
    var i := 0;
    while i < results.Length
      invariant 0 <= i <= results.Length
      invariant GradeAll(original[..i], rater) == Success(results[..i])
      invariant forall k :: i <= k < results.Length ==> results[k] == original[k]
    {
      GradeAllStep(original, i, rater);
      assert results[i] == original[i];
      var graded := GradeResultInPlace(results[i], i, rater);
      if graded.Failure? {
        GradeAllAbort(original, i + 1, rater);
        return Some(graded.error);
      }
      ghost var done := results[..i];
      results[i] := graded.value;
      assert results[..i + 1] == done + [graded.value];
      i := i + 1;
    }
    assert original[..i] == original;
    error := None;
  }

  /** One iteration of the outer loop: the base evaluation, then the variants through a buffer. */
  method GradeResultInPlace(rec: Value, i: nat, rater: Rater) returns (r: Result<Value, PyError>)
    ensures r == GradeRecord(rec, i, rater)
  {
    if !rec.Dict? {
      return Failure(TypeError);
    }
    if "base_eval" !in rec.entries {
      return Failure(KeyError);
    }
    var base := GradedEval(rec.entries["base_eval"], GradeResponse(rater(i, None)));
    if base.Failure? {
      return Failure(base.error);
    }
    var entries := rec.entries["base_eval" := base.value];
    var variants := VariantsOf(rec.entries);
    if variants.Failure? {
      return Failure(variants.error);
    }
    if variants.value == [] {
      return Success(Dict(entries));
    }
    var buffer := new Value[|variants.value|](k requires 0 <= k < |variants.value| => variants.value[k]);
    assert buffer[..] == variants.value;
    var failed := GradeVariantsInPlace(buffer, i, rater);
    if failed.Some? {
      return Failure(failed.value);
    }
    r := Success(Dict(entries["adversarial_evals" := List(buffer[..])]));
  }

  // ------------------------------------------------------------ what grading guarantees

  /**
   * A graded result keeps every key; its base evaluation and each adversarial
   * variant at the same index carry the rater's scores and notes, the variant
   * list keeps its length, and no other field changes.
   */
  lemma {:induction false} GradeRecordWritesBack(rec: Value, i: nat, rater: Rater)
    requires GradeRecord(rec, i, rater).Success?
    ensures var out := GradeRecord(rec, i, rater).value;
            rec.Dict? && out.Dict? && out.entries.Keys == rec.entries.Keys &&
            (forall k :: k in rec.entries && k != "base_eval" && k != "adversarial_evals" ==> out.entries[k] == rec.entries[k]) &&
            out.entries["base_eval"] == GradedEval(rec.entries["base_eval"], GradeResponse(rater(i, None))).value
    ensures var out := GradeRecord(rec, i, rater).value;
            "adversarial_evals" in rec.entries && rec.entries["adversarial_evals"].List? ==>
              var before := rec.entries["adversarial_evals"].items;
              out.entries["adversarial_evals"].List? &&
              |out.entries["adversarial_evals"].items| == |before| &&
              forall j :: 0 <= j < |before| ==>
                GradedEval(before[j], GradeResponse(rater(i, Some(j)))) == Success(out.entries["adversarial_evals"].items[j])
  {
    var variants := VariantsOf(rec.entries);
    if variants.Success? && variants.value != [] {
      GradeVariantsElements(variants.value, i, rater);
    }
  }

  /**
   * Every scores record `grade_file` writes into result `i` is `grade_response`'s
   * for the rater's answers to that response, hence well graded: a "fail"
   * never totals more than 6.
   */
  lemma GradeRecordScores(rec: Value, i: nat, rater: Rater)
    requires GradeRecord(rec, i, rater).Success?
    ensures var out := GradeRecord(rec, i, rater).value;
            out.Dict? && "base_eval" in out.entries && out.entries["base_eval"].Dict? &&
            "scores" in out.entries["base_eval"].entries &&
            out.entries["base_eval"].entries["scores"] == ScoresValue(rater(i, None)) &&
            WellGraded(out.entries["base_eval"].entries["scores"])
    ensures var out := GradeRecord(rec, i, rater).value;
            "adversarial_evals" in rec.entries && rec.entries["adversarial_evals"].List? ==>
              out.entries["adversarial_evals"].List? &&
              var after := out.entries["adversarial_evals"].items;
              forall j :: 0 <= j < |after| ==>
                after[j].Dict? && "scores" in after[j].entries &&
                after[j].entries["scores"] == ScoresValue(rater(i, Some(j))) &&
                WellGraded(after[j].entries["scores"])
  {
    GradeRecordWritesBack(rec, i, rater);
    var base := rec.entries["base_eval"];
    GradedEvalWrites(base, GradeResponse(rater(i, None)));
    GradeResponseMeaning(rater(i, None));
    if "adversarial_evals" in rec.entries && rec.entries["adversarial_evals"].List? {
      var before := rec.entries["adversarial_evals"].items;
      var after := GradeRecord(rec, i, rater).value.entries["adversarial_evals"].items;
      forall j | 0 <= j < |after|
        ensures after[j].Dict? && "scores" in after[j].entries &&
                after[j].entries["scores"] == ScoresValue(rater(i, Some(j))) &&
                WellGraded(after[j].entries["scores"])
      {
        assert GradedEval(before[j], GradeResponse(rater(i, Some(j)))) == Success(after[j]);
        GradedEvalWrites(before[j], GradeResponse(rater(i, Some(j))));
        GradeResponseMeaning(rater(i, Some(j)));
      }
    }
  }

  /** After a successful `grade_file` every result's base evaluation carries well-graded scores. */
  lemma GradeAllScores(records: seq<Value>, rater: Rater)
    requires GradeAll(records, rater).Success?
    ensures forall i :: 0 <= i < |records| ==>
              var out := GradeAll(records, rater).value[i];
              out.Dict? && "base_eval" in out.entries && out.entries["base_eval"].Dict? &&
              "scores" in out.entries["base_eval"].entries &&
              out.entries["base_eval"].entries["scores"] == ScoresValue(rater(i, None)) &&
              WellGraded(out.entries["base_eval"].entries["scores"])
  {
    forall i | 0 <= i < |records|
      ensures var out := GradeAll(records, rater).value[i];
              out.Dict? && "base_eval" in out.entries && out.entries["base_eval"].Dict? &&
              "scores" in out.entries["base_eval"].entries &&
              out.entries["base_eval"].entries["scores"] == ScoresValue(rater(i, None)) &&
              WellGraded(out.entries["base_eval"].entries["scores"])
    {
      GradeRecordScores(records[i], i, rater);
    }
  }

  // ------------------------------------------------------------ print_summary

  /** `r.get("base_eval", {}).get("scores")`. */
  function ScoresEntry(r: Value): (s: Result<Value, PyError>)
    ensures s.Success? <==> r.Dict? && ("base_eval" in r.entries ==> r.entries["base_eval"].Dict?)
  {
    var base := Get(r, "base_eval", Dict(map[]));
    if base.Failure? then Failure(base.error) else Get(base.value, "scores", Null)
  }

  /** `graded_scenarios`: the results whose scores are not None. */
  function GradedCount(results: seq<Value>): (r: Result<nat, PyError>)
    ensures r.Failure? ==> r.error == AttributeError
    ensures r.Success? ==> r.value <= |results|
    ensures r.Success? <==> forall k :: 0 <= k < |results| ==> ScoresEntry(results[k]).Success?
  {
    if results == [] then Success(0)
    else
      var n := |results| - 1;
      var init := GradedCount(results[..n]);
      var last := ScoresEntry(results[n]);
      if init.Failure? then Failure(init.error)
      else if last.Failure? then Failure(last.error)
      else Success(init.value + (if last.value != Null then 1 else 0))
  }

  /** The list `scores` of line 157: the truthy scores, in order. */
  function TruthyScores(results: seq<Value>): seq<Value>
    requires forall k :: 0 <= k < |results| ==> ScoresEntry(results[k]).Success?
  {
    if results == [] then []
    else
      var n := |results| - 1;
      var s := ScoresEntry(results[n]).value;
      TruthyScores(results[..n]) + (if Truthy(s) then [s] else [])
  }

  /** A number as `sum` adds it; `True` counts as 1. */
  function Numeric(v: Value): Result<real, PyError> {
    match v
    case Int(i) => Success(i as real)
    case Real(r) => Success(r)
    case Bool(b) => Success(if b then 1.0 else 0.0)
    case _ => Failure(TypeError)
  }

  /** `sum(s[key] for s in scores)`. */
  function FieldSum(scores: seq<Value>, key: string): (r: Result<real, PyError>)
    ensures r.Failure? ==> r.error == KeyError || r.error == TypeError
  {
    if scores == [] then Success(0.0)
    else
      var n := |scores| - 1;
      var init := FieldSum(scores[..n], key);
      var field := Index(scores[n], key);
      if init.Failure? then Failure(init.error)
      else if field.Failure? then Failure(field.error)
      else
        var x := Numeric(field.value);
        if x.Failure? then Failure(x.error) else Success(init.value + x.value)
  }

  /** `sum(1 for s in scores if s["critical_error"] == "fail")`. */
  function FailCount(scores: seq<Value>): (r: Result<nat, PyError>)
    ensures r.Success? ==> r.value <= |scores|
    ensures r.Failure? ==> r.error == KeyError || r.error == TypeError
  {
    if scores == [] then Success(0)
    else
      var n := |scores| - 1;
      var init := FailCount(scores[..n]);
      var field := Index(scores[n], "critical_error");
      if init.Failure? then Failure(init.error)
      else if field.Failure? then Failure(field.error)
      else Success(init.value + (if field.value == Str("fail") then 1 else 0))
  }

  const Axes: seq<string> := ["classification", "fragility", "risk_treatment"]

  datatype SummaryStats = SummaryStats(avgTotal: real, criticalErrorRate: real, axisAverages: seq<real>)

  /** The figures `print_summary` prints; `stats` is None when it returns after the count. */
  datatype Summary = Summary(totalScenarios: nat, gradedScenarios: nat, stats: Option<SummaryStats>)

  /** The averages over a non-empty score list, in the order the code evaluates them. */
  function Averages(scores: seq<Value>): (r: Result<SummaryStats, PyError>)
    requires |scores| > 0
    ensures r.Failure? ==> r.error == KeyError || r.error == TypeError
  {
    var n := |scores| as real;
    var total := FieldSum(scores, "total");
    if total.Failure? then Failure(total.error)
    else
      var fails := FailCount(scores);
      if fails.Failure? then Failure(fails.error)
      else
        var c := FieldSum(scores, Axes[0]);
        var f := FieldSum(scores, Axes[1]);
        var t := FieldSum(scores, Axes[2]);
        if c.Failure? then Failure(c.error)
        else if f.Failure? then Failure(f.error)
        else if t.Failure? then Failure(t.error)
        else Success(SummaryStats(total.value / n, fails.value as real / n, [c.value / n, f.value / n, t.value / n]))
  }

  /**
   * `print_summary` as written: it counts scores that are not None but averages
   * over the truthy ones, so `{}` scores are counted and then divided by zero.
   */
  function SummaryAsWritten(results: seq<Value>): Result<Summary, PyError> {
    var graded := GradedCount(results);
    if graded.Failure? then Failure(graded.error)
    else if graded.value == 0 then Success(Summary(|results|, 0, None))
    else
      var scores := TruthyScores(results);
      var total := FieldSum(scores, "total");
      if total.Failure? then Failure(total.error)
      else if scores == [] then Failure(ZeroDivisionError)
      else
        var stats := Averages(scores);
        if stats.Failure? then Failure(stats.error) else Success(Summary(|results|, graded.value, Some(stats.value)))
  }

  /** `print_summary` with the early return tested on the list it averages over. */
  function PrintSummary(results: seq<Value>): (r: Result<Summary, PyError>)
    ensures r.Success? ==> r.value.totalScenarios == |results| && r.value.gradedScenarios <= |results|
    ensures r.Success? && r.value.stats.Some? ==> 0.0 <= r.value.stats.value.criticalErrorRate <= 1.0
    ensures r != Failure(ZeroDivisionError)
  {
    var graded := GradedCount(results);
    if graded.Failure? then Failure(graded.error)
    else
      var scores := TruthyScores(results);
      if scores == [] then Success(Summary(|results|, graded.value, None))
      else
        var stats := Averages(scores);
        if stats.Failure? then Failure(stats.error)
        else
          RateInUnit(FailCount(scores).value, |scores|);
          Success(Summary(|results|, graded.value, Some(stats.value)))
  }

  lemma RateInUnit(count: nat, n: nat)
    requires 0 < n && count <= n
    ensures 0.0 <= count as real / n as real <= 1.0
  {
  }

  /** A list with one result whose scores are `{}`: counted as graded, yet nothing to average. */
  const EmptyScoresResults: seq<Value> := [Dict(map["base_eval" := Dict(map["scores" := Dict(map[])])])]

  lemma EmptyScoresDividesByZero()
    ensures SummaryAsWritten(EmptyScoresResults) == Failure(ZeroDivisionError)
    ensures PrintSummary(EmptyScoresResults) == Success(Summary(1, 1, None))
  {
    var results := EmptyScoresResults;
    assert results[..0] == [];
    assert ScoresEntry(results[0]) == Success(Dict(map[]));
    assert GradedCount(results) == Success(1);
    assert TruthyScores(results) == [];
  }

  /** The two versions differ only where the one as written divides by zero. */
  lemma {:induction false} SummaryCorrectionIsConservative(results: seq<Value>)
    ensures SummaryAsWritten(results) != Failure(ZeroDivisionError) ==> SummaryAsWritten(results) == PrintSummary(results)
    ensures SummaryAsWritten(results) == Failure(ZeroDivisionError) <==>
              GradedCount(results).Success? && GradedCount(results).value > 0 && TruthyScores(results) == []
  {
    var graded := GradedCount(results);
    if graded.Success? && graded.value == 0 {
      NoneNotTruthy(results);
    }
  }

  /** When nothing is graded, nothing is truthy either. */
  lemma {:induction false} NoneNotTruthy(results: seq<Value>)
    requires GradedCount(results) == Success(0)
    ensures TruthyScores(results) == []
  {
    if results != [] {
      var n := |results| - 1;
      assert GradedCount(results[..n]) == Success(0);
      NoneNotTruthy(results[..n]);
    }
  }
}
