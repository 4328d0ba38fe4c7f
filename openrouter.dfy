/**
 * The OpenRouter gateway, reduced to its deterministic policy: reading the
 * client settings from the environment, building the chat request from the
 * prompt and options, the retry loop with exponential backoff and graceful
 * fallback, and the classification of the response.
 */
module OpenRouter {
  import opened Wrappers
  import opened MachineInts
  import opened Text
  import opened Models
  import opened Llm
  import opened FewShot

  /** The client settings; the HTTP client itself is not part of this model. */
  datatype OpenRouterClient = OpenRouterClient(
    apiKey: string,
    model: string,
    referer: Option<string>,
    title: Option<string>)

  const ApiKeyVar := "OPENROUTER_API_KEY"
  const ModelVar := "OPENROUTER_MODEL"
  const RefererVar := "OPENROUTER_REFERER"
  const TitleVar := "OPENROUTER_TITLE"
  const DefaultModel := "openrouter/auto"

  /** An environment lookup, as `env::var(..).ok()`. */
  function Lookup(env: map<string, string>, name: string): (r: Option<string>)
    ensures r.Some? <==> name in env
    ensures r.Some? ==> r.value == env[name]
  {
    if name in env then Some(env[name]) else None
  }

  /** Rust's `OpenRouterClient::from_env`, over an explicit environment. */
  function FromEnv(env: map<string, string>): (r: Result<OpenRouterClient, LLMError>)
    ensures r.Failure? <==> ApiKeyVar !in env
    ensures r.Failure? ==> r.error == NotConfigured("OPENROUTER_API_KEY missing")
    ensures r.Success? ==>
      && r.value.apiKey == env[ApiKeyVar]
      && r.value.model == (if ModelVar in env then env[ModelVar] else DefaultModel)
      && r.value.referer == Lookup(env, RefererVar)
      && r.value.title == Lookup(env, TitleVar)
  {
    match Lookup(env, ApiKeyVar)
    case None => Failure(NotConfigured("OPENROUTER_API_KEY missing"))
    case Some(key) =>
      Success(OpenRouterClient(key, Lookup(env, ModelVar).GetOr(DefaultModel), Lookup(env, RefererVar), Lookup(env, TitleVar)))
  }

  // ---- the request ----

  /** The system message (written in pieces to keep each literal short). */
  const SystemPrompt :=
    "You are an expert prompt engineering "
    + "assistant. Your ONLY task is to refine and "
    + "enhance user prompts for Large Language "
    + "Models. You must return ONLY the enhanced "
    + "prompt text - no introductions, no "
    + "explanations, no additional commentary of "
    + "any kind. Simply output the improved prompt "
    + "directly.\n\nCRITICAL: Your response must "
    + "contain ONLY the enhanced prompt. No "
    + "prefixes like 'Enhanced prompt:' or 'Here "
    + "is the enhanced version:'. No "
    + "meta-commentary. No acknowledgments. Just "
    + "the enhanced prompt text "
    + "itself.\n\nGuidelines for enhancement:\n- "
    + "Maximize clarity and specificity\n- Specify "
    + "clear goals and constraints\n- Resolve "
    + "ambiguities while staying faithful to "
    + "original intent\n- Structure the prompt for "
    + "optimal LLM performance\n- If a specific "
    + "language is requested, write the entire "
    + "enhanced prompt in that "
    + "language\n\nRemember: Output ONLY the "
    + "enhanced prompt. Nothing else."

  /** The text of an option line: `name`, the value, and a newline; nothing when absent. */
  function OptionLine(name: string, value: Option<string>): (line: seq<string>)
    ensures value.None? ==> line == []
    ensures value.Some? ==> line == [name + value.value + "\n"]
  {
    if value.Some? then [name + value.value + "\n"] else []
  }

  function LevelText(level: Option<u8>): Option<string> {
    if level.Some? then Some(NatToString(level.value) + " (1-5)") else None
  }

  /** One line per present option, in the order goal, style, tone, level, audience, language. */
  function OptionLines(o: EnhancementOptions): seq<string> {
    OptionLine("Goal: ", o.goal) + OptionLine("Style: ", o.style) + OptionLine("Tone: ", o.tone)
    + OptionLine("Enhancement level: ", LevelText(o.level))
    + OptionLine("Audience: ", o.audience) + OptionLine("Language: ", o.language)
  }

  /** Every element is a non-empty line ending in a newline. */
  predicate AllLines(ls: seq<string>) {
    forall i | 0 <= i < |ls| :: ls[i] != [] && ls[i][|ls[i]| - 1] == '\n'
  }

  lemma AllLinesAppend(a: seq<string>, b: seq<string>)
    requires AllLines(a) && AllLines(b)
    ensures AllLines(a + b)
  {
    forall i | 0 <= i < |a + b|
      ensures (a + b)[i] != [] && (a + b)[i][|(a + b)[i]| - 1] == '\n'
    {
      if i >= |a| {
        assert (a + b)[i] == b[i - |a|];
      }
    }
  }

  lemma OptionLineIsLine(name: string, value: Option<string>)
    ensures AllLines(OptionLine(name, value))
  {
    if value.Some? {
      var line := name + value.value + "\n";
      assert line[|line| - 1] == '\n';
    }
  }

  /** Every line ends with a newline, and there is one per present option. */
  lemma OptionLinesShape(o: EnhancementOptions)
    ensures AllLines(OptionLines(o))
    ensures |OptionLines(o)| ==
      (if o.goal.Some? then 1 else 0) + (if o.style.Some? then 1 else 0) + (if o.tone.Some? then 1 else 0)
      + (if o.level.Some? then 1 else 0) + (if o.audience.Some? then 1 else 0) + (if o.language.Some? then 1 else 0)
  {
    var a := OptionLine("Goal: ", o.goal);
    var b := OptionLine("Style: ", o.style);
    var c := OptionLine("Tone: ", o.tone);
    var d := OptionLine("Enhancement level: ", LevelText(o.level));
    var e := OptionLine("Audience: ", o.audience);
    var f := OptionLine("Language: ", o.language);
    OptionLineIsLine("Goal: ", o.goal);
    OptionLineIsLine("Style: ", o.style);
    OptionLineIsLine("Tone: ", o.tone);
    OptionLineIsLine("Enhancement level: ", LevelText(o.level));
    OptionLineIsLine("Audience: ", o.audience);
    OptionLineIsLine("Language: ", o.language);
    AllLinesAppend(a, b);
    AllLinesAppend(a + b, c);
    AllLinesAppend(a + b + c, d);
    AllLinesAppend(a + b + c + d, e);
    AllLinesAppend(a + b + c + d + e, f);
  }

  /** Appends the line for one option, as one `push_str`. */
  method PushOption(instruction: string, ghost lines: seq<string>, name: string, value: Option<string>)
    returns (r: string)
    requires instruction == Concat(lines)
    ensures r == Concat(lines + OptionLine(name, value))
  {
    r := instruction;
    if value.Some? {
      ConcatAppend(lines, name + value.value + "\n");
      r := r + name + value.value + "\n";
    } else {
      assert lines + [] == lines;
    }
  }

  /** The instruction block of Rust's `enhance`, built by successive `push_str`. */
  method BuildInstruction(o: EnhancementOptions) returns (instruction: string)
    ensures instruction == Concat(OptionLines(o))
  {
    instruction := "";
    instruction := PushOption(instruction, [], "Goal: ", o.goal);
    ghost var lines := OptionLine("Goal: ", o.goal);
    assert [] + lines == lines;
    instruction := PushOption(instruction, lines, "Style: ", o.style);
    lines := lines + OptionLine("Style: ", o.style);
    instruction := PushOption(instruction, lines, "Tone: ", o.tone);
    lines := lines + OptionLine("Tone: ", o.tone);
    instruction := PushOption(instruction, lines, "Enhancement level: ", LevelText(o.level));
    lines := lines + OptionLine("Enhancement level: ", LevelText(o.level));
    instruction := PushOption(instruction, lines, "Audience: ", o.audience);
    lines := lines + OptionLine("Audience: ", o.audience);
    instruction := PushOption(instruction, lines, "Language: ", o.language);
    lines := lines + OptionLine("Language: ", o.language);
    assert lines == OptionLines(o);
  }

  /** The instruction is empty exactly when no option is set. */
  lemma InstructionEmptyIff(o: EnhancementOptions)
    ensures Concat(OptionLines(o)) == [] <==> o == DefaultOptions()
  {
    OptionLinesShape(o);
    ConcatEmptyIff(OptionLines(o));
    if o != DefaultOptions() {
      assert |OptionLines(o)| > 0;
      assert OptionLines(o)[0] != [];
    }
  }

  const OriginalPromptSeparator := "\n\n---\nOriginal prompt:\n"

  /** The user message before examples: the prompt alone, or the instruction, a separator and the prompt. */
  function BaseUserMessage(instruction: string, text: string): (m: string)
    ensures instruction == [] ==> m == text
    ensures instruction != [] ==> IsPrefix(instruction, m) && IsSuffix(OriginalPromptSeparator + text, m)
    ensures instruction != [] ==> |m| == |instruction| + |OriginalPromptSeparator| + |text|
  {
    if instruction == [] then text
    else
      PrefixSuffixOfConcat(instruction, OriginalPromptSeparator + text);
      instruction + (OriginalPromptSeparator + text)
  }

  /** The keyword groups of `categorize_prompt`, tried on the lower-cased prompt in this order. */
  predicate MentionsCode(t: string) {
    Contains(t, "code") || Contains(t, "function") || Contains(t, "program")
  }

  predicate MentionsExplanation(t: string) {
    Contains(t, "explain") || Contains(t, "what is")
  }

  predicate MentionsDefinition(t: string) {
    Contains(t, "define") || Contains(t, "definition")
  }

  /** The few-shot category of a prompt: the first keyword group found, ignoring case. */
  function Category(text: string): (c: string)
    ensures c in {"code", "explanation", "definition", "general"}
    ensures var t := ToLower(text); c == "code" <==> MentionsCode(t)
    ensures var t := ToLower(text);
      c == "explanation" <==> !MentionsCode(t) && MentionsExplanation(t)
    ensures var t := ToLower(text);
      c == "definition" <==> !MentionsCode(t) && !MentionsExplanation(t) && MentionsDefinition(t)
    ensures var t := ToLower(text);
      c == "general" <==> !MentionsCode(t) && !MentionsExplanation(t) && !MentionsDefinition(t)
  {
    var t := ToLower(text);
    assert "code"[0] != "explanation"[0] && "code"[0] != "definition"[0] && |"code"| != |"general"|;
    assert "general"[0] != "explanation"[0] && "general"[0] != "definition"[0];
    assert "explanation"[0] != "definition"[0];
    if MentionsCode(t) then "code"
    else if MentionsExplanation(t) then "explanation"
    else if MentionsDefinition(t) then "definition"
    else "general"
  }

  const ExamplesHeader := "Here are some examples to guide your response:\n\n"

  function ExampleBlock(ex: FewShotExample): string {
    "Example Input: " + ex.input + "\nExample Output: " + ex.output
  }

  /** The examples text: each example as a block, blocks separated by a blank line. */
  function ExamplesText(examples: seq<FewShotExample>): string {
    Join(seq(|examples|, i requires 0 <= i < |examples| => ExampleBlock(examples[i])), "\n\n")
  }

  /** The examples block, when there are examples, put in front of the base message. */
  function WithExamples(examples: seq<FewShotExample>, base: string): (m: string)
    ensures examples == [] ==> m == base
    ensures examples != [] ==>
      IsPrefix(ExamplesHeader + ExamplesText(examples), m) && IsSuffix("\n\n" + base, m)
    ensures examples != [] ==> |m| == |ExamplesHeader| + |ExamplesText(examples)| + 2 + |base|
  {
    if examples == [] then base
    else
      PrefixSuffixOfConcat(ExamplesHeader + ExamplesText(examples), "\n\n" + base);
      assert ExamplesHeader + ExamplesText(examples) + "\n\n" + base
        == (ExamplesHeader + ExamplesText(examples)) + ("\n\n" + base);
      ExamplesHeader + ExamplesText(examples) + "\n\n" + base
  }

  /** The user message: the options and the prompt, preceded by the examples of the prompt's category. */
  function UserMessage(prompt: Prompt, o: EnhancementOptions): string {
    WithExamples(SelectExamples(Category(prompt.text), 2), BaseUserMessage(Concat(OptionLines(o)), prompt.text))
  }

  /** Whatever the options and the examples, the user message ends with the prompt itself. */
  lemma PromptEndsUserMessage(prompt: Prompt, o: EnhancementOptions)
    ensures IsSuffix(prompt.text, UserMessage(prompt, o))
  {
    var instruction := Concat(OptionLines(o));
    var base := BaseUserMessage(instruction, prompt.text);
    if instruction != [] {
      PrefixSuffixOfConcat(OriginalPromptSeparator, prompt.text);
      SuffixOfSuffix(prompt.text, OriginalPromptSeparator + prompt.text, base);
    }
    var examples := SelectExamples(Category(prompt.text), 2);
    if examples != [] {
      PrefixSuffixOfConcat("\n\n", base);
      SuffixOfSuffix(base, "\n\n" + base, UserMessage(prompt, o));
      SuffixOfSuffix(prompt.text, base, UserMessage(prompt, o));
    }
  }

  /** A prompt with none of the category keywords gets no examples. */
  lemma GeneralPromptHasNoExamples(prompt: Prompt, o: EnhancementOptions)
    requires Category(prompt.text) == "general"
    ensures UserMessage(prompt, o) == BaseUserMessage(Concat(OptionLines(o)), prompt.text)
  {
    GeneralSelectsNothing(2);
  }

  /** A prompt about code is shown the hello-world example, then the factorial one. */
  lemma CodePromptExamples(prompt: Prompt, o: EnhancementOptions)
    requires Category(prompt.text) == "code"
    ensures UserMessage(prompt, o) ==
      ExamplesHeader + ExamplesText([HelloWorld, Factorial]) + "\n\n" + BaseUserMessage(Concat(OptionLines(o)), prompt.text)
  {
    CodeSelection(2);
  }

  datatype ChatMessage = ChatMessage(role: string, content: string)
  datatype ChatRequest = ChatRequest(model: string, messages: seq<ChatMessage>, temperature: real)

  /** The request body: the model, the system prompt, the user message, temperature 0.2. */
  function Payload(model: string, user: string): (req: ChatRequest)
    ensures req.model == model && req.temperature == 0.2
    ensures |req.messages| == 2
    ensures req.messages[0] == ChatMessage("system", SystemPrompt)
    ensures req.messages[1] == ChatMessage("user", user)
  {
    ChatRequest(model, [ChatMessage("system", SystemPrompt), ChatMessage("user", user)], 0.2)
  }

  /**
   * Whether a header value is accepted: every byte is visible ASCII, a
   * space, a tab, or part of a multi-byte character.
   */
  predicate ValidHeaderValue(s: string) {
    forall i | 0 <= i < |s| :: s[i] == '\t' || (s[i] as int >= 32 && s[i] as int != 127)
  }

  const InvalidHeader := "failed to parse header value"

  /** The authorization, referer and title headers can all be built. */
  predicate HeadersValid(client: OpenRouterClient) {
    && ValidHeaderValue("Bearer " + client.apiKey)
    && (client.referer.Some? ==> ValidHeaderValue(client.referer.value))
    && (client.title.Some? ==> ValidHeaderValue(client.title.value))
  }

  // ---- transport and classification ----

  /** A status line: the code and its canonical reason phrase, if it has one. */
  datatype Status = Status(code: nat, reason: Option<string>)

  /** The decoded body: a decoding error, or the contents of the choices in order. */
  datatype Body = Malformed(error: string) | Choices(contents: seq<string>)

  /** The result of one send: the request did not get through, or a response arrived. */
  datatype SendResult = SendFailed | Delivered(status: Status, body: Body)

  /** Rust's `Display` for a status: the code, a space, the reason (or a placeholder). */
  function StatusText(s: Status): string {
    NatToString(s.code) + " " + s.reason.GetOr("<unknown status code>")
  }

  predicate IsSuccessStatus(s: Status) {
    200 <= s.code < 300
  }

  /** Turns a delivered response into the provider's answer. */
  function Classify(status: Status, body: Body): (r: Result<EnhancedPrompt, LLMError>)
    ensures !IsSuccessStatus(status) ==> r == Failure(RequestFailed("status " + StatusText(status)))
    ensures IsSuccessStatus(status) && body.Malformed? ==> r == Failure(UnexpectedResponse(body.error))
    ensures IsSuccessStatus(status) && body.Choices? && body.contents == [] ==> r == Failure(UnexpectedResponse("no choices"))
    ensures r.Success? <==> IsSuccessStatus(status) && body.Choices? && body.contents != []
    ensures r.Success? ==> r.value == EnhancedPrompt(Trim(body.contents[0]), None, None)
  {
    if !IsSuccessStatus(status) then Failure(RequestFailed("status " + StatusText(status)))
    else match body
      case Malformed(e) => Failure(UnexpectedResponse(e))
      case Choices(cs) =>
        if cs == [] then Failure(UnexpectedResponse("no choices"))
        else Success(EnhancedPrompt(Trim(cs[0]), None, None))
  }

  const MaxRetries: nat := 3

  function Pow2(n: nat): (p: nat)
    ensures p >= 1
  {
    if n == 0 then 1 else 2 * Pow2(n - 1)
  }

  /** The pause after failed attempt `k`, in milliseconds. */
  function Backoff(k: nat): nat
    requires k >= 1
  {
    500 * Pow2(k - 1)
  }

  /** The pauses after the first `n` failed attempts. */
  function Backoffs(n: nat): (d: seq<nat>)
    ensures |d| == n
  {
    seq(n, i requires 0 <= i < n => Backoff(i + 1))
  }

  /** The fallback answer when every attempt fails to get through. */
  function Fallback(prompt: Prompt): EnhancedPrompt {
    EnhancedPrompt("Enhanced: " + prompt.text, Some("Fallback due to API failure after retries"), Some(0.3))
  }

  /** The first attempt, from `k` to the last allowed one, whose request got through. */
  function FirstDelivery(send: (ChatRequest, nat) -> SendResult, req: ChatRequest, k: nat): (r: Option<nat>)
    requires k >= 1
    ensures r.Some? ==> k <= r.value <= MaxRetries && send(req, r.value).Delivered?
    ensures r.Some? ==> forall j | k <= j < r.value :: send(req, j).SendFailed?
    ensures r.None? ==> forall j | k <= j <= MaxRetries :: send(req, j).SendFailed?
    decreases MaxRetries + 1 - k
  {
    if k > MaxRetries then None
    else if send(req, k).Delivered? then Some(k)
    else FirstDelivery(send, req, k + 1)
  }

  /** What the retry loop yields for `req`: the fallback if nothing got through, else the classified response. */
  function RetryResult(send: (ChatRequest, nat) -> SendResult, req: ChatRequest, prompt: Prompt): Result<EnhancedPrompt, LLMError> {
    match FirstDelivery(send, req, 1)
    case None => Success(Fallback(prompt))
    case Some(k) => Classify(send(req, k).status, send(req, k).body)
  }

  /** The pauses the retry loop takes for `req`: one after each failed attempt but the last. */
  function RetryDelays(send: (ChatRequest, nat) -> SendResult, req: ChatRequest): seq<nat> {
    match FirstDelivery(send, req, 1)
    case None => Backoffs(MaxRetries - 1)
    case Some(k) => Backoffs(k - 1)
  }

  /** The request `enhance` posts. */
  function EnhanceRequest(client: OpenRouterClient, prompt: Prompt, o: EnhancementOptions): ChatRequest {
    Payload(client.model, UserMessage(prompt, o))
  }

  /** What Rust's `enhance` returns, for the transport behaviour `send`. */
  function EnhanceResult(client: OpenRouterClient, prompt: Prompt, o: EnhancementOptions,
                         send: (ChatRequest, nat) -> SendResult): Result<EnhancedPrompt, LLMError>
  {
    if !HeadersValid(client) then Failure(RequestFailed(InvalidHeader))
    else RetryResult(send, EnhanceRequest(client, prompt, o), prompt)
  }

  /** The pauses `enhance` takes, for the transport behaviour `send`. */
  function EnhanceDelays(client: OpenRouterClient, prompt: Prompt, o: EnhancementOptions,
                         send: (ChatRequest, nat) -> SendResult): seq<nat>
  {
    if !HeadersValid(client) then [] else RetryDelays(send, EnhanceRequest(client, prompt, o))
  }

  /** The user message of Rust's `enhance`, built and then reassigned when examples apply. */
  method BuildUserMessage(prompt: Prompt, o: EnhancementOptions) returns (user: string)
    ensures user == UserMessage(prompt, o)
    ensures IsSuffix(prompt.text, user)
  {
    var instruction := BuildInstruction(o);
    user := if instruction == [] then prompt.text else instruction + OriginalPromptSeparator + prompt.text;
    assert user == BaseUserMessage(instruction, prompt.text);
    var category := Category(prompt.text);
    var examples := SelectExamples(category, 2);
    if examples != [] {
      user := ExamplesHeader + ExamplesText(examples) + "\n\n" + user;
    }
    PromptEndsUserMessage(prompt, o);
  }

  /**
   * The retry loop of Rust's `enhance`: post `req` up to three times while
   * the request does not get through, pausing 500 ms, then 1000 ms, between
   * attempts. `send(req, k)` is what the `k`-th attempt yields; instead of
   * sleeping, the pauses are returned in order.
   */
  method Retry(send: (ChatRequest, nat) -> SendResult, req: ChatRequest, prompt: Prompt)
    returns (r: Result<EnhancedPrompt, LLMError>, delays: seq<nat>)
    ensures r == RetryResult(send, req, prompt)
    ensures delays == RetryDelays(send, req)
  {
    delays := [];
    var attempts: nat := 0;
    var response := SendFailed;
    while true
      invariant attempts < MaxRetries
      invariant delays == Backoffs(attempts)
      invariant FirstDelivery(send, req, 1) == FirstDelivery(send, req, attempts + 1)
      decreases MaxRetries - attempts
    {
      attempts := attempts + 1;
      var outcome := send(req, attempts);
      if outcome.Delivered? {
        response := outcome;
        break;
      }
      if attempts >= MaxRetries {
        return Success(Fallback(prompt)), delays;
      }
      assert Backoffs(attempts) == Backoffs(attempts - 1) + [Backoff(attempts)];
      delays := delays + [Backoff(attempts)];
    }
    r := Classify(response.status, response.body);
  }

  /**
   * Rust's `enhance`: build the request, check the headers, then run the
   * retry loop.
   */
  method Enhance(client: OpenRouterClient, prompt: Prompt, o: EnhancementOptions,
                 send: (ChatRequest, nat) -> SendResult)
    returns (r: Result<EnhancedPrompt, LLMError>, delays: seq<nat>)
    ensures r == EnhanceResult(client, prompt, o, send)
    ensures delays == EnhanceDelays(client, prompt, o, send)
  {
    var user := BuildUserMessage(prompt, o);
    var payload := Payload(client.model, user);
    if !HeadersValid(client) {
      return Failure(RequestFailed(InvalidHeader)), [];
    }
    r, delays := Retry(send, payload, prompt);
  }

  /** At most three attempts: at most two pauses, of 500 and then 1000 milliseconds. */
  lemma DelaysBounded(send: (ChatRequest, nat) -> SendResult, req: ChatRequest)
    ensures var d := RetryDelays(send, req);
      |d| <= MaxRetries - 1 && (|d| >= 1 ==> d[0] == 500) && (|d| >= 2 ==> d[1] == 1000)
  {
  }

  /** When no attempt gets through, the answer is the fallback, after pausing 500 then 1000 milliseconds. */
  lemma AllAttemptsFailFallback(send: (ChatRequest, nat) -> SendResult, req: ChatRequest, prompt: Prompt)
    requires forall k | 1 <= k <= MaxRetries :: send(req, k).SendFailed?
    ensures RetryResult(send, req, prompt) ==
      Success(EnhancedPrompt("Enhanced: " + prompt.text, Some("Fallback due to API failure after retries"), Some(0.3)))
    ensures RetryDelays(send, req) == [500, 1000]
  {
  }

  /** An error status is final: it is reported as a failed request and not retried. */
  lemma ErrorStatusNotRetried(send: (ChatRequest, nat) -> SendResult, req: ChatRequest, prompt: Prompt)
    requires send(req, 1).Delivered? && !IsSuccessStatus(send(req, 1).status)
    ensures RetryResult(send, req, prompt) == Failure(RequestFailed("status " + StatusText(send(req, 1).status)))
    ensures RetryDelays(send, req) == []
  {
  }

  /**
   * The retry loop's answers: the fallback, or the trimmed first choice with
   * no rationale or confidence; every failure is a failed request or an
   * unexpected response, never a configuration error.
   */
  lemma RetryOutcomes(send: (ChatRequest, nat) -> SendResult, req: ChatRequest, prompt: Prompt)
    ensures var r := RetryResult(send, req, prompt);
      && (r.Success? ==> r.value == Fallback(prompt) || (r.value.rationale.None? && r.value.confidence.None?))
      && (r.Failure? ==> r.error.RequestFailed? || r.error.UnexpectedResponse?)
  {
  }
}
