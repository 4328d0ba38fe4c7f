/**
 * The enhancement use case: ask the provider, gate its answer through the
 * validator, and stamp the answer with a computed confidence.
 */
module UseCase {
  import opened Wrappers
  import opened Text
  import opened Models
  import opened Llm
  import opened Validation

  /** What `execute` can fail with: the provider's error or the validator's. */
  datatype ExecError =
    | ProviderError(cause: LLMError)
    | ValidationFailure(reason: ValidationError)

  /** The text the error displays, which is its cause's own text. */
  function ExecErrorMessage(e: ExecError): (m: string)
    ensures e.ProviderError? ==> m == Message(e.cause)
    ensures e.ValidationFailure? ==> m == ErrorMessage(e.reason)
  {
    match e
    case ProviderError(c) => Message(c)
    case ValidationFailure(v) => ErrorMessage(v)
  }

  /**
   * What `execute` yields with `provider`: the provider's error, the
   * validator's error, or the provider's answer with the computed confidence.
   */
  function Outcome(provider: Provider, prompt: Prompt, options: EnhancementOptions): Result<EnhancedPrompt, ExecError> {
    match provider(prompt, options)
    case Failure(e) => Failure(ProviderError(e))
    case Success(answer) =>
      match Check(answer.text)
      case Failure(v) => Failure(ValidationFailure(v))
      case Success(_) => Success(answer.(confidence := Some(ComputeConfidence(answer.text))))
  }

  /** The use case, holding the provider it was built with. */
  class EnhancePrompt {
    const provider: Provider

    /** `EnhancePrompt::new`. */
    constructor(provider: Provider)
      ensures this.provider == provider
    {
      this.provider := provider;
    }

    /**
     * Rust's `execute`. A provider error is passed on unchanged; an answer
     * the validator rejects fails with the validator's error; an accepted
     * answer keeps the provider's text and rationale, and its confidence is
     * replaced by the computed score. The input prompt itself is never
     * checked: the outcome depends on it only through the provider's answer.
     */
    method Execute(prompt: Prompt, options: EnhancementOptions) returns (r: Result<EnhancedPrompt, ExecError>)
      ensures r == Outcome(provider, prompt, options)
      ensures provider(prompt, options).Failure? ==> r == Failure(ProviderError(provider(prompt, options).error))
      ensures provider(prompt, options).Success? ==>
        var answer := provider(prompt, options).value;
        && (r.Success? <==> PassesGate(answer.text))
        && (r.Failure? ==> r.error == ValidationFailure(Check(answer.text).error))
        && (r.Success? ==>
              && r.value.text == answer.text
              && r.value.rationale == answer.rationale
              && r.value.confidence == Some(ComputeConfidence(answer.text)))
      ensures r.Success? ==> PassesGate(r.value.text) && 0.0 <= r.value.confidence.value <= 1.0
    {
      var answer := provider(prompt, options);
      if answer.Failure? {
        return Failure(ProviderError(answer.error));
      }
      var enhanced := answer.value;
      var verdict := ValidateEnhancedPrompt(enhanced);
      CheckOkIff(enhanced.text);
      if verdict.Failure? {
        return Failure(ValidationFailure(verdict.error));
      }
      var confidence := ComputeConfidence(enhanced.text);
      enhanced := enhanced.(confidence := Some(confidence));
      return Success(enhanced);
    }
  }
}
