/** The provider abstraction: its error type and the shape of `enhance`. */
module Llm {
  import opened Wrappers
  import opened Models

  /** Errors a provider reports. */
  datatype LLMError =
    | NotConfigured(detail: string)
    | RequestFailed(detail: string)
    | UnexpectedResponse(detail: string)

  /** The fixed text that precedes the detail in each variant's message. */
  function Prefix(e: LLMError): string {
    match e
    case NotConfigured(_) => "provider not configured: "
    case RequestFailed(_) => "request failed: "
    case UnexpectedResponse(_) => "unexpected response: "
  }

  /** The `Display` text of an error. */
  function Message(e: LLMError): (m: string)
    ensures m == Prefix(e) + e.detail
  {
    match e
    case NotConfigured(s) => "provider not configured: " + s
    case RequestFailed(s) => "request failed: " + s
    case UnexpectedResponse(s) => "unexpected response: " + s
  }

  /**
   * Messages identify errors: the three prefixes start with different
   * letters, and within one variant the detail is what follows the prefix.
   */
  lemma {:induction false} MessageInjective(e1: LLMError, e2: LLMError)
    ensures Message(e1) == Message(e2) <==> e1 == e2
  {
    if Message(e1) == Message(e2) {
      assert Message(e1)[0] == Prefix(e1)[0] && Message(e2)[0] == Prefix(e2)[0];
      assert Prefix(e1) == Prefix(e2);
      var n := |Prefix(e1)|;
      assert e1.detail == Message(e1)[n..] && e2.detail == Message(e2)[n..];
    }
  }

  /**
   * A provider's `enhance`: given a prompt and options it yields exactly one
   * of an enhanced prompt or an error.
   */
  type Provider = (Prompt, EnhancementOptions) -> Result<EnhancedPrompt, LLMError>
}
