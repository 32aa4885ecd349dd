/**
 * The hand-over between the two scripts: the result record that running
 * a scenario writes is one the grading pass accepts, and until it is
 * graded it counts as ungraded in the summary.
 */
module Pipeline {
  import opened Wrappers
  import opened Values
  import opened RunEval
  import opened Grade

  /** Grading never fails on a freshly run record, whatever the rater answers. */
  lemma RunRecordIsGradeable(scenario: Value, scenarioPath: string, model: string, includeAdversarial: bool,
                             timestamp: string, openai: Api, anthropic: Api, i: nat, rater: Rater)
    requires SingleEval(scenario, scenarioPath, model, includeAdversarial, timestamp, openai, anthropic).Success?
    ensures GradeRecord(SingleEval(scenario, scenarioPath, model, includeAdversarial, timestamp, openai, anthropic).value,
                        i, rater).Success?
  {
    SingleEvalEntries(scenario, scenarioPath, model, includeAdversarial, timestamp, openai, anthropic);
  }

  /** A freshly run record has its base scores still None, so the summary counts it as not graded. */
  lemma RunRecordIsUngraded(scenario: Value, scenarioPath: string, model: string, includeAdversarial: bool,
                            timestamp: string, openai: Api, anthropic: Api)
    requires SingleEval(scenario, scenarioPath, model, includeAdversarial, timestamp, openai, anthropic).Success?
    ensures GradedCount([SingleEval(scenario, scenarioPath, model, includeAdversarial, timestamp, openai, anthropic).value]) ==
              Success(0)
  {
    SingleEvalEntries(scenario, scenarioPath, model, includeAdversarial, timestamp, openai, anthropic);
  }
}
