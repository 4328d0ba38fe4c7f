# anytra prompt enhancer, modelled in Dafny

anytra is a small Model Context Protocol (MCP) server. It reads JSON-RPC 2.0
requests, one per line, from standard input and writes one response per
request to standard output. Its single tool, `enhance_prompt`, works in three
steps:

- it asks an LLM provider (OpenRouter) to rewrite a prompt;
- it gates the answer through a validator;
- it returns the accepted text.

It also contains the pieces below. This project models all of them:

- a few-shot example table;
- a sequential-thinking engine that keeps a history of thoughts and an index of branches;
- the environment-driven configuration.

Each file models one file of the Rust source:

| Dafny file | module | source file |
|---|---|---|
| `wrappers.dfy` | `Wrappers`, `MachineInts` | `Option`, `Result` and fixed-width integers |
| `text.dfy` | `Text` | the `str` operations the core relies on |
| `json.dfy` | `Json` | a JSON value and its field-by-field decoding |
| `models.dfy` | `Models` | `src/domain/models.rs` |
| `llm.dfy` | `Llm` | `src/domain/llm.rs` |
| `validation.dfy` | `Validation` | `src/domain/validation.rs` |
| `sequential_thinking.dfy` | `Thinking` | `src/domain/sequential_thinking.rs` |
| `fewshot.dfy` | `FewShot` | `src/domain/fewshot.rs` |
| `openrouter.dfy` | `OpenRouter` | `src/infrastructure/providers/openrouter.rs` |
| `enhance_prompt.dfy` | `UseCase` | `src/usecases/enhance_prompt.rs` |
| `config.dfy` | `Config` | `src/infrastructure/config.rs` |
| `server.dfy` | `McpServer` | `src/interface/mcp/server.rs` |

The parts of the program that change state in place or work step by step are modelled imperatively:

- **The sequential-thinking engine** is the class `Thinking.SequentialThinking`. Its history is a `seq` and its branch map is a `map`. `ProcessThought` appends to the history and, for a branched thought, updates the branch map. The class invariant states two things:
  - the branch map is exactly the index of the history by branch id;
  - every stored thought has a number no larger than its total.
- **The use case** is the class `UseCase.EnhancePrompt`. It holds the provider. Its method `Execute` is proved equal to the function `UseCase.Outcome`.
- **Loops** become methods with `while` loops, each proved equal to a specification function:
  - `OpenRouter.Retry`, the client's retry loop;
  - `Validation.ValidateEnhancedPrompt`'s denylist scan;
  - `Validation.CheckGrammarAndClarity`'s sentence-length sum;
  - `Validation.ScanForDuplicate`'s duplicate-sentence scan;
  - `McpServer.Serve`, the server's read loop.
- **Straight-line reassignments** become methods that reassign a local string:
  - `OpenRouter.BuildInstruction` makes six `OpenRouter.PushOption` calls, one per `push_str`, and is proved equal to `Concat(OptionLines(o))`;
  - `OpenRouter.BuildUserMessage` builds the user message and reassigns it when examples apply, and is proved equal to `UserMessage`;
  - `OpenRouter.Enhance` builds the request, checks the headers and runs `Retry`, and is proved equal to `EnhanceResult` and `EnhanceDelays`;
  - `Validation.CheckConsistency` and `Validation.CheckFormatting` push issues onto a list.

The rest is pure functions, with lemmas about them.

The model replaces what it cannot see with parameters:

- **Environment:** a `map<string, string>`.
- **LLM provider:** a function value. The Rust trait object becomes `(Prompt, EnhancementOptions) -> Result<EnhancedPrompt, LLMError>`.
- **HTTP transport:** a function `send(request, attempt)` that says whether the attempt got through, and if so, with which status and body.
- **JSON parser for request lines:** a function `parse`.
- **Standard input:** a sequence of reads. Each read is a line, the end of input, or a read error.
- **Server version:** a parameter.

Floating-point numbers (`f32`) are modelled as `real`.

Some contracts encode observations about the code itself:

- **Trailing-space check:** `check_grammar_and_clarity` looks for a line that still ends with a space after `trim_end`. No such line exists, so the issue is never reported. `Validation.TrailingSpaceNeverReported` proves this, and `Validation.CheckGrammarAndClarity` keeps the check as written.
- **`shutdown`:** the request is answered like any other request. The loop's `shutting_down` flag is never set, so the server keeps reading until the input ends. `McpServer.TranscriptMatchesLines` states this.
- **Tool description key:** the tool description is serialised in camelCase, so its schema sits under `inputSchema`. A unit test in server.rs looks the schema up under `input_schema`, which the serialised description does not contain. `McpServer.ToolDescriptionKeys` states both facts, and the model follows the code.

## Model

| member | source | states |
|---|---|---|
| MachineInts.TruncateToU32 | src/domain/sequential_thinking.rs:73-79 | the `as u32` cast keeps values below 2^32, never increases a value, and gives the one `u32` that differs from its input by a multiple of 2^32 |
| Text.ByteLen | src/domain/validation.rs:33 | `len()` counts UTF-8 bytes: one to four per character, a single character its UTF-8 width, and exactly one per character when the text is all ASCII |
| Text.ByteLenAppend | src/domain/validation.rs:76-77 | the byte length of two texts together is the sum of their byte lengths |
| Text.ToLower | src/domain/validation.rs:50 | lower-casing keeps the length, maps each ASCII capital to its small letter and leaves every other character alone |
| Text.ToLowerLeavesNoCapitals | src/domain/validation.rs:50 | no ASCII capital is left after lower-casing |
| Text.TrimStart | src/domain/validation.rs:94 | the result is a suffix of the input, starts with a non-whitespace character, and only whitespace was removed |
| Text.TrimEnd | src/domain/validation.rs:72 | the result is a prefix of the input, ends with a non-whitespace character, and only whitespace was removed |
| Text.TrimEmptyIffBlank | src/domain/validation.rs:29 | a text trims to nothing exactly when it is all whitespace |
| Text.Words | src/domain/validation.rs:42 | `split_whitespace` yields only non-empty runs without whitespace |
| Text.WordsOfJoin | src/domain/validation.rs:42 | words joined by single spaces split back into the same words |
| Text.WordsConcat | src/domain/validation.rs:42 | the words hold every non-whitespace character of the text, in order |
| Text.WordsAtWhitespace | src/domain/validation.rs:42 | any whitespace character separates words: the words of `a + [c] + b` are those of `a` followed by those of `b` |
| Text.NoWordsIffBlank | src/domain/validation.rs:42-44 | a text has no words exactly when it is blank |
| Text.SplitOn | src/domain/validation.rs:76 | splitting on the sentence terminators yields at least one piece, and no piece contains a terminator |
| Text.JoinSplit | src/domain/validation.rs:76 | the pieces of a split joined with the separator give the text back |
| Text.SplitJoin | src/domain/validation.rs:76 | separator-free pieces joined with the separator split back into the same pieces |
| Text.SplitCount | src/domain/validation.rs:76-77 | a text with n separators splits into n + 1 pieces |
| Text.Lines | src/domain/validation.rs:72 | the empty text has no lines |
| Text.LinesOfPieces | src/domain/validation.rs:72 | a final empty piece is dropped; every piece before the last loses one trailing carriage return; a non-empty last piece is kept as it is |
| Text.LinesOfTerminated | src/domain/validation.rs:72 | lines each ending in a newline come back, without the carriage return of a "\r\n" ending |
| Text.LinesOfUnterminated | src/domain/validation.rs:72 | a last line without a newline comes back unchanged |
| Text.Join | src/infrastructure/providers/openrouter.rs:104 | joining nothing gives the empty text; joining one part gives that part |
| Text.JoinAppend | src/infrastructure/providers/openrouter.rs:104 | joining one more part appends the separator and that part |
| Text.ConcatAppend | src/infrastructure/providers/openrouter.rs:77-83 | each `push_str` appends its piece to the text so far |
| Text.ConcatEmptyIff | src/infrastructure/providers/openrouter.rs:85 | the pieces concatenate to nothing exactly when every piece is empty |
| Text.NatToString | src/domain/sequential_thinking.rs:119 | a number prints as a non-empty string of decimal digits, without a leading zero unless it is zero |
| Text.NatToStringValue | src/domain/sequential_thinking.rs:119 | the printed digits read back as the number |
| Json.DecodeString | src/interface/mcp/server.rs:60 | a required string field decodes exactly when it is present and a string, to that string |
| Json.DecodeOptString | src/interface/mcp/server.rs:61-66 | an absent or null field gives no value; a string gives that string; any other value fails with the field's type error |
| Json.OptStringRoundTrip | src/domain/models.rs:11-27 | an optional string encoded as a string or null decodes back to itself |
| Json.DecodeOptU8 | src/interface/mcp/server.rs:64 | an absent or null field gives no level; an integer in 0..255 gives that integer; any other value fails with the field's type error |
| Json.DecodeOptNumber | src/domain/models.rs:34-35 | an absent or null field gives no confidence; an integer or a float gives its value; any other value fails with the field's type error |
| Models.DefaultOptions | src/domain/models.rs:8-28 | the default options have every field unset |
| Models.DecodePrompt | src/domain/models.rs:3-6 | a prompt decodes exactly when the value is an object whose `text` is a string |
| Models.PromptRoundTrip | src/domain/models.rs:3-6 | a prompt serialises to `{"text": ...}` and decodes back to itself |
| Models.DecodeOptionFields | src/domain/models.rs:8-28 | an empty object decodes to the default options; decoding fails exactly when one of the six fields fails; a success holds each field's own decoded value |
| Models.DecodeWithoutOptionKeys | src/domain/models.rs:8-28 | an object with none of the option keys decodes to the default options |
| Models.DecodeOptionFieldsOf | src/domain/models.rs:8-28 | each option is read from its own key |
| Models.OptionsKeys | src/domain/models.rs:8-28 | options serialise their keys in declaration order |
| Models.OptionsRoundTrip | src/domain/models.rs:8-28 | any options serialise and decode back to themselves |
| Models.EnhancedRoundTrip | src/domain/models.rs:30-36 | an enhanced prompt serialises with keys text, rationale, confidence and decodes back to itself |
| Models.MissingConfidenceIsNone | src/domain/models.rs:34-35 | a missing `confidence` key decodes to no confidence |
| Llm.Message | src/domain/llm.rs:5-13 | each error displays as its variant's prefix followed by its detail |
| Llm.MessageInjective | src/domain/llm.rs:5-13 | two errors display the same text exactly when they are the same error |
| Validation.ErrorMessage | src/domain/validation.rs:14-24 | every message except the inappropriate-content one starts "Enhanced prompt is "; that one is "Inappropriate content detected: " and the word found |
| Validation.ErrorMessageInjective | src/domain/validation.rs:14-24 | different errors have different messages |
| Validation.FirstDenied | src/domain/validation.rs:48-53 | the word reported is a denylist word in the text; nothing is reported exactly when no denylist word occurs |
| Validation.FirstDeniedAt | src/domain/validation.rs:48-53 | the first denylist word that occurs is the one reported |
| Validation.ValidateEnhancedPrompt | src/domain/validation.rs:28-56 | the validator's loop over the denylist decides what the ordered checks decide |
| Validation.CheckOkIff | src/domain/validation.rs:28-56 | a text is accepted exactly when it is non-blank, 10 to 5000 bytes long, has at least 10 words, and contains neither denylist word in any case |
| Validation.CheckOrder | src/domain/validation.rs:28-56 | blank texts are "empty"; then too short; then too long; "too simple" only for texts within the length bounds; a content error only for texts that pass all earlier checks |
| Validation.DenylistDecides | src/domain/validation.rs:28-53 | a non-blank text of 10 to 5000 bytes and at least 10 words fails with the denylist word found in its lower-cased form |
| Validation.DenylistOrder | src/domain/validation.rs:47-53 | "inappropriate" is reported before "offensive" when both occur |
| Validation.Score | src/domain/validation.rs:58-62 | the score lies between 0 and 1 |
| Validation.ComputeConfidence | src/domain/validation.rs:58-62 | the confidence lies between 0 and 1 |
| Validation.ScoreIsOneIff | src/domain/validation.rs:58-62 | the score is 1 exactly when the text has at least 1000 bytes and 50 words |
| Validation.ScoreMonotone | src/domain/validation.rs:58-62 | more bytes and more words never lower the score |
| Validation.ConfidencePositive | src/domain/validation.rs:58-62 | the confidence is positive exactly when the text is non-empty |
| Validation.TrailingSpaceNeverReported | src/domain/validation.rs:72-74 | no line ends with a space after `trim_end`, so that issue is never raised |
| Validation.CheckGrammarAndClarity | src/domain/validation.rs:65-85 | each issue is present exactly when its condition holds (double spaces, trailing space, average sentence length over 100 or under 10); no other issue is reported and none twice; the double-space issue comes first; at most three issues |
| Validation.SentenceKey | src/domain/validation.rs:94-95 | a sentence is skipped exactly when it is blank |
| Validation.KeysBeforeSpec | src/domain/validation.rs:92-95 | the set of seen keys holds exactly the keys of the sentences scanned so far |
| Validation.ScanStep | src/domain/validation.rs:93-98 | one step of the scan either finds a duplicate or keeps the seen set equal to the keys before it |
| Validation.ScanForDuplicate | src/domain/validation.rs:92-99 | the scan that inserts keys into a set and stops at the first one already present finds a repeat exactly when two pieces share a key |
| Validation.CheckConsistency | src/domain/validation.rs:88-101 | the duplicate-sentence issue is reported once, exactly when two non-blank sentences are equal after trimming and lower-casing |
| Validation.CheckFormatting | src/domain/validation.rs:104-115 | the spacing issue is present exactly when a space precedes punctuation; the missing-space issue exactly when punctuation is doubled; when both are present they come in that order; no other issue is reported |
| Thinking.ThoughtData.WithRevision | src/domain/sequential_thinking.rs:38-42 | marks the thought as a revision of `n` and changes nothing else |
| Thinking.ThoughtData.WithBranch | src/domain/sequential_thinking.rs:44-48 | sets the branch origin and id and changes nothing else |
| Thinking.NewThought | src/domain/sequential_thinking.rs:19-36 | the given fields are set and every optional field is unset |
| Thinking.ValidateThoughtData | src/domain/sequential_thinking.rs:64-100 | each required field in turn (thought, thoughtNumber, totalThoughts, nextThoughtNeeded) fails with its own message once the earlier ones decode; a decoded thought holds the decoded values; it is never a revision; it is branched exactly when both branch fields decode, and then holds the truncated branch number and the branch id |
| Thinking.InputFields | src/domain/sequential_thinking.rs:68-83 | the encoded arguments hold each required field under its key |
| Thinking.InputBranchFields | src/domain/sequential_thinking.rs:85-91 | the encoded arguments hold the branch fields exactly when the thought is branched |
| Thinking.InputRoundTrip | src/domain/sequential_thinking.rs:64-100 | any thought the decoder can produce is decoded back from its own arguments |
| Thinking.Corrected | src/domain/sequential_thinking.rs:127-129 | the total is raised to the thought's number when smaller, and nothing else changes |
| Thinking.Marker | src/domain/sequential_thinking.rs:103-109 | the revision marker for revisions, the branch marker for other branched thoughts, else the thought marker |
| Thinking.DebugString | src/domain/sequential_thinking.rs:114 | the debug form of a string is enclosed in double quotes, its inside unescapes to the string, and a string with nothing to escape is only quoted |
| Thinking.UnescapeEscaped | src/domain/sequential_thinking.rs:114 | escaping loses nothing: unescaping gives the string back |
| Thinking.Context | src/domain/sequential_thinking.rs:111-117 | " (revising thought n)" for a revision; otherwise " (from thought n, ID: id)" with the id in debug form for a branch; otherwise empty |
| Thinking.FormatThought | src/domain/sequential_thinking.rs:102-122 | the marker and "number/total" then the context then a newline and the thought, and nothing else |
| Thinking.BranchRecords | src/domain/sequential_thinking.rs:133-135 | the records of a branch are branched thoughts of the history carrying that id |
| Thinking.BranchRecordsEmptyIff | src/domain/sequential_thinking.rs:133-135 | a branch has records exactly when its id occurs in the history |
| Thinking.BranchRecordsAppend | src/domain/sequential_thinking.rs:131-135 | appending a thought adds it to its own branch only |
| Thinking.BranchIdsAppend | src/domain/sequential_thinking.rs:131-135 | appending a branched thought adds its id to the branch ids; any other thought adds nothing |
| Thinking.BranchIndexAppend | src/domain/sequential_thinking.rs:131-135 | appending a thought extends exactly its branch's list (creating it when new) in the index |
| Thinking.SequentialThinking.constructor | src/domain/sequential_thinking.rs:57-62 | a new engine has no thoughts and no branches |
| Thinking.SequentialThinking.ProcessThought | src/domain/sequential_thinking.rs:124-149 | bad input changes nothing and returns the decoder's error; otherwise the corrected thought is appended, its branch list is extended or created, and the summary reports the new lengths and branch ids; the index invariant is kept |
| Thinking.SequentialThinking.GetThoughtHistory | src/domain/sequential_thinking.rs:151-153 | every stored thought has number no larger than its total |
| Thinking.SequentialThinking.GetBranches | src/domain/sequential_thinking.rs:155-157 | every branch is non-empty and holds only thoughts of the history carrying that branch's id |
| FewShot.GetExamples | src/domain/fewshot.rs:9-36 | four examples, each with a quality score between 0 and 1 |
| FewShot.OfCategory | src/domain/fewshot.rs:42 | filtering keeps only examples of the category |
| FewShot.OfCategorySubset | src/domain/fewshot.rs:42 | filtering only drops examples |
| FewShot.OfCategoryKeepsAll | src/domain/fewshot.rs:42 | filtering keeps every example of the category |
| FewShot.InsertByScore | src/domain/fewshot.rs:43 | insertion adds exactly the inserted example |
| FewShot.InsertSorted | src/domain/fewshot.rs:43 | inserting into a best-first list keeps it best first |
| FewShot.SortByScore | src/domain/fewshot.rs:43 | the sort is best first and a permutation of its input |
| FewShot.WithScoreAppend | src/domain/fewshot.rs:43 | the examples of one score in two lists together are those of each list in turn |
| FewShot.InsertKeepsTies | src/domain/fewshot.rs:43 | insertion keeps the order among examples of equal score |
| FewShot.SortIsStable | src/domain/fewshot.rs:43 | the sort is stable: examples of equal score keep their order |
| FewShot.TakePrefix | src/domain/fewshot.rs:44 | taking a prefix keeps order, category and membership |
| FewShot.Select | src/domain/fewshot.rs:38-46 | the result has `min(limit, matches)` examples, all of the category, best first, drawn from the table; no example of the category left out scores higher than one kept; for each score the kept examples are the first of that score in table order |
| FewShot.SortedPrefixIsBest | src/domain/fewshot.rs:43-44 | the first n of a sorted list are never beaten by the rest, and keep the order of ties |
| FewShot.SelectExamples | src/domain/fewshot.rs:38-46 | the same, over the fixed table |
| FewShot.OfCategoryCons | src/domain/fewshot.rs:42 | filtering a list starts with its head exactly when the head matches |
| FewShot.SortTwo | src/domain/fewshot.rs:43 | two examples are swapped only when the second scores higher |
| FewShot.TableCategories | src/domain/fewshot.rs:9-36 | the table has two code examples (factorial, then hello world), one explanation and one definition |
| FewShot.SelectOfTwo | src/domain/fewshot.rs:38-46 | from a category of two, the higher-scoring example comes first |
| FewShot.CodeSelection | src/domain/fewshot.rs:38-46 | two code examples are the hello-world example, then the factorial one |
| FewShot.GeneralSelectsNothing | src/domain/fewshot.rs:38-46 | the "general" category yields no examples |
| OpenRouter.FromEnv | src/infrastructure/providers/openrouter.rs:19-30 | fails with "not configured" exactly when the API key is unset; otherwise the model defaults to openrouter/auto and the referer and title are read when set |
| OpenRouter.OptionLine | src/infrastructure/providers/openrouter.rs:78-83 | an absent option contributes nothing; a present one contributes its label, value and a newline |
| OpenRouter.AllLinesAppend | src/infrastructure/providers/openrouter.rs:77-83 | lists of newline-terminated lines concatenate to such a list |
| OpenRouter.OptionLineIsLine | src/infrastructure/providers/openrouter.rs:78-83 | every option line ends with a newline |
| OpenRouter.OptionLinesShape | src/infrastructure/providers/openrouter.rs:77-83 | one newline-terminated line per present option |
| OpenRouter.PushOption | src/infrastructure/providers/openrouter.rs:78-83 | one `push_str` appends that option's line |
| OpenRouter.BuildInstruction | src/infrastructure/providers/openrouter.rs:77-83 | the instruction is the option lines, in the order goal, style, tone, level, audience, language |
| OpenRouter.InstructionEmptyIff | src/infrastructure/providers/openrouter.rs:77-89 | the instruction is empty exactly when no option is set |
| OpenRouter.BaseUserMessage | src/infrastructure/providers/openrouter.rs:85-89 | with no instruction the message is the prompt; otherwise it is the instruction, then the separator and the prompt, and nothing else |
| OpenRouter.Category | src/infrastructure/providers/openrouter.rs:92-100 | "code" exactly when a code keyword occurs in any case; "explanation" exactly when no code keyword but an explanation keyword occurs; "definition" exactly when only a definition keyword occurs; "general" otherwise |
| OpenRouter.WithExamples | src/infrastructure/providers/openrouter.rs:102-106 | without examples the message is unchanged; with examples it is the header and the examples, a blank line, and the message, and nothing else |
| OpenRouter.GeneralPromptHasNoExamples | src/infrastructure/providers/openrouter.rs:85-106 | a prompt of no category is sent with no examples |
| OpenRouter.CodePromptExamples | src/infrastructure/providers/openrouter.rs:92-106 | a code prompt is preceded by the hello-world example, then the factorial one |
| OpenRouter.BuildUserMessage | src/infrastructure/providers/openrouter.rs:77-106 | the `push_str` and `format!` steps build the message that the options, category and examples determine, and it ends with the prompt |
| OpenRouter.PromptEndsUserMessage | src/infrastructure/providers/openrouter.rs:85-106 | whatever the options and examples, the user message ends with the prompt |
| OpenRouter.Payload | src/infrastructure/providers/openrouter.rs:108-115 | the request has the client's model, temperature 0.2, and exactly the system then the user message |
| OpenRouter.Classify | src/infrastructure/providers/openrouter.rs:149-160 | a non-2xx status fails with "status ..."; a malformed body or no choices is an unexpected response; otherwise the trimmed first choice, without rationale or confidence |
| OpenRouter.Pow2 | src/infrastructure/providers/openrouter.rs:143 | powers of two are at least 1 |
| OpenRouter.Backoffs | src/infrastructure/providers/openrouter.rs:143 | one pause per failed attempt |
| OpenRouter.FirstDelivery | src/infrastructure/providers/openrouter.rs:130-147 | the attempt found is the first that got through, within the three allowed; none is found only when all fail |
| OpenRouter.Retry | src/infrastructure/providers/openrouter.rs:127-147 | the loop returns the fallback or the classified first delivered response, and pauses as the policy says |
| OpenRouter.Enhance | src/infrastructure/providers/openrouter.rs:63-161 | an invalid header value fails the request; otherwise the retry loop decides the result |
| OpenRouter.DelaysBounded | src/infrastructure/providers/openrouter.rs:127-147 | at most two pauses, of 500 ms then 1000 ms |
| OpenRouter.AllAttemptsFailFallback | src/infrastructure/providers/openrouter.rs:134-145 | when no attempt gets through, the fallback "Enhanced: ..." with confidence 0.3 is returned after pausing 500 and 1000 ms |
| OpenRouter.ErrorStatusNotRetried | src/infrastructure/providers/openrouter.rs:130-151 | an error status on the first attempt fails at once, with no pause |
| OpenRouter.RetryOutcomes | src/infrastructure/providers/openrouter.rs:127-160 | a success is the fallback or has no rationale and no confidence; a failure is a failed request or an unexpected response |
| UseCase.ExecErrorMessage | src/usecases/enhance_prompt.rs:14-16 | the error displays its cause's own text |
| UseCase.EnhancePrompt.constructor | src/usecases/enhance_prompt.rs:10-12 | the use case holds the provider it was given |
| UseCase.EnhancePrompt.Execute | src/usecases/enhance_prompt.rs:14-20 | a provider error passes through; an answer is accepted exactly when it passes the gate, keeps its text and rationale, and gets the computed confidence in [0, 1] |
| OpenRouter.Lookup | src/infrastructure/config.rs:58-63 | a variable is found exactly when it is set, with its value |
| Config.EnableSequentialThinkingDefault | src/infrastructure/config.rs:100-116 | an unset variable or a truthy token enables |
| Config.DisabledIffFalsy | src/infrastructure/config.rs:100-116 | disabled exactly when the variable holds a falsy token, in any case |
| Config.EnableIgnoresCase | src/infrastructure/config.rs:103 | values equal up to letter case give the same setting |
| Config.OpenRouterConfigFromEnv | src/infrastructure/config.rs:57-71 | fails with the required-variable message exactly when the key is unset; the model defaults to openrouter/auto; the referer and title are read when set |
| Config.MissingApiKeyNamesVariable | src/infrastructure/config.rs:59 | the error message names the missing variable |
| Config.ConfigAgreesWithProvider | src/infrastructure/config.rs:57-71 | the configuration and the provider's `from_env` succeed on the same environments with the same settings |
| Config.SequentialThinkingConfigFromEnv | src/infrastructure/config.rs:76-82 | disabled exactly when the variable holds a falsy token |
| Config.LoggingConfigFromEnv | src/infrastructure/config.rs:87-93 | the level is the variable's value, or "info" when unset |
| Config.ConfigFromEnv | src/infrastructure/config.rs:37-47 | fails exactly when the API key is unset, with its message; otherwise holds the three parts |
| Config.LoadedThinkingSetting | src/infrastructure/config.rs:50-52 | a loaded configuration enables sequential thinking unless a falsy token is set |
| McpServer.DecodeToolCallParams | src/interface/mcp/server.rs:51-56 | parameters decode exactly when they are an object with a string `name`; missing `arguments` is null |
| McpServer.DecodeEnhanceArgs | src/interface/mcp/server.rs:58-67 | arguments decode exactly when they are an object with a string `prompt` and well-typed options |
| McpServer.PromptOnlyArguments | src/interface/mcp/server.rs:58-67 | arguments with only a prompt decode to that prompt and the default options |
| McpServer.ToolResult | src/interface/mcp/server.rs:175-193 | success is the text as content; failure is "tool error: " and the error's text, flagged `isError` |
| McpServer.RouteOf | src/interface/mcp/server.rs:127-206 | each known method name selects its own arm |
| McpServer.HandleRequest | src/interface/mcp/server.rs:126-207 | every response is version 2.0, echoes the id, and carries exactly one of result and error; the only error codes are -32601 and -32602, without data |
| McpServer.UnknownMethodIff | src/interface/mcp/server.rs:206 | outside `tools/call`, an error is returned exactly for unknown methods, as "unknown method: " and the name |
| McpServer.InitializeResponse | src/interface/mcp/server.rs:128-139 | protocol version 2024-11-05, tools capabilities list and call, server name anytra with the given version; both method names answer alike |
| McpServer.ToolsListResponse | src/interface/mcp/server.rs:141-160 | the result lists exactly the one tool description |
| McpServer.ToolDescriptionKeys | src/interface/mcp/server.rs:43-49 | the tool is `enhance_prompt`; the schema sits under `inputSchema` and not `input_schema` |
| McpServer.InputSchemaKeys | src/interface/mcp/server.rs:145-158 | only `prompt` is required; the properties are as listed |
| McpServer.LevelSchema | src/interface/mcp/server.rs:154 | the level property is bounded to 1..5 |
| McpServer.PingAndShutdown | src/interface/mcp/server.rs:202-204 | ping answers `{"message": "pong"}`; shutdown answers `{"ok": true}` |
| McpServer.ToolCallErrors | src/interface/mcp/server.rs:163-200 | bad parameters and bad arguments give -32602 with their prefixes; another tool's name gives -32601 "unknown tool: " |
| McpServer.ToolCallOutcome | src/interface/mcp/server.rs:170-193 | decoded arguments always give a result: accepted text (which passes the gate) or a flagged tool error |
| McpServer.ParseErrorResponse | src/interface/mcp/server.rs:93-99 | an unparsable line gets -32700 "parse error: ..." with no id |
| McpServer.RequestLines | src/interface/mcp/server.rs:79-82 | the lines answered are never blank |
| McpServer.TranscriptMatchesLines | src/interface/mcp/server.rs:77-117 | one response per non-blank line read before the input ends, in order, each the response to that line |
| McpServer.StopsAtEnd | src/interface/mcp/server.rs:107-113 | nothing after the end of input or a read error is answered |
| McpServer.TranscriptStep | src/interface/mcp/server.rs:79-113 | one iteration of the loop: skip a blank line, answer a line, or stop |
| McpServer.Serve | src/interface/mcp/server.rs:69-124 | the loop writes exactly the transcript of its input |

## Left out

- Process I/O is not modelled. Standard input is a sequence of reads. Writing, flushing and serialising responses are left out, and so is the `select!` around the read.
- The shutdown pause at the end of `run_stdio_server` is left out. Its `shutting_down` flag is never set in the source.
- HTTP is left out: the `reqwest` client, its user agent, the URL, header maps and sleeping. A transport function stands in for the send. The pauses are returned instead of slept. Building a header is reduced to a predicate on the header values.
- McpServer.DecodeToolCallParams: serde's derived `Deserialize` also accepts a struct written as a JSON array of its fields in declaration order; the model rejects that form, as it does for McpServer.DecodeEnhanceArgs and Models.DecodePrompt.
- McpServer.DecodeEnhanceArgs: the array form of the struct is rejected, as above.
- Models.DecodePrompt: the array form of the struct is rejected, as above.
- Json.Get: objects are assumed to have distinct keys. For a repeated key `Get` takes the first field, while `serde_json` keeps the last one.
- serde is only partly modelled. The JSON text parser and serializer, the exact texts of its error messages, and which error it reports first when several fields are wrong are all left out. Decoding is written field by field over a JSON value, and its error texts are close to serde's but not identical.
- `f32` arithmetic is modelled as exact `real` arithmetic, for the confidence score and the quality scores.
- `to_lowercase` is modelled for ASCII only. Whitespace follows the Unicode White_Space property.
- `{:?}` formatting of a branch id escapes quotes, backslashes, newline, carriage return, tab and NUL. Rust's escapes for other control and non-printable characters are left out.
- `HashMap` and `HashSet` iteration order is not modelled. The branch keys in a thinking summary are a set.
- `eprintln!`/`println!` logging and `track_quality_metrics` are not modelled: they only write to the console.
- `src/main.rs` and `src/infrastructure/logger.rs` are not part of this model. They are wiring and logger set-up.
- The crate version reported by `initialize` comes from the build environment, so it is a parameter.
- The number of calls made to the provider is not observable in the model, because the provider is a function.
- Config.SequentialThinkingEnabled: stated through Config.LoadedThinkingSetting, because the function only reads a field.
- OpenRouter.UserMessage: stated through OpenRouter.BuildUserMessage, OpenRouter.WithExamples, OpenRouter.GeneralPromptHasNoExamples and OpenRouter.CodePromptExamples, because it only composes those.
- McpServer.Transcript: stated through McpServer.TranscriptMatchesLines, McpServer.StopsAtEnd and McpServer.Serve, because it only recurses over the input.
