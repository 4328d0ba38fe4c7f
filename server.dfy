/**
 * The MCP server over JSON-RPC 2.0: the dispatcher that turns one request
 * into one response, and the line loop that reads requests and writes
 * responses. Reading and writing are replaced by a sequence of line reads
 * and the sequence of responses written; the JSON text parser is a
 * parameter.
 */
module McpServer {
  import opened Wrappers
  import opened Text
  import opened Json
  import opened Models
  import opened Validation
  import opened UseCase

  // ---- records ----

  datatype JsonRpcRequest = JsonRpcRequest(jsonrpc: string, id: Option<Json>, methodName: string, params: Json)

  datatype JsonRpcError = JsonRpcError(code: int, message: string, data: Option<Json>)

  /** A response; a field that is `None` is left out when written. */
  datatype JsonRpcResponse = JsonRpcResponse(
    jsonrpc: string,
    id: Option<Json>,
    result: Option<Json>,
    error: Option<JsonRpcError>)

  /** The error codes of section 5.1 of the JSON-RPC 2.0 specification that the server uses. */
  const ParseError: int := -32700
  const MethodNotFound: int := -32601
  const InvalidParams: int := -32602

  const ProtocolVersion := "2024-11-05"
  const ServerName := "anytra"
  const ToolName := "enhance_prompt"

  function ResultResponse(id: Option<Json>, result: Json): JsonRpcResponse {
    JsonRpcResponse("2.0", id, Some(result), None)
  }

  function ErrorResponse(id: Option<Json>, code: int, message: string): JsonRpcResponse {
    JsonRpcResponse("2.0", id, None, Some(JsonRpcError(code, message, None)))
  }

  // ---- fixed results ----

  /** The result of `initialize`; `version` is the package version fixed at build time. */
  function InitializeResult(version: string): Json {
    JObj([
      ("protocolVersion", JStr(ProtocolVersion)),
      ("capabilities", JObj([("tools", JObj([("list", JBool(true)), ("call", JBool(true))]))])),
      ("serverInfo", JObj([("name", JStr(ServerName)), ("version", JStr(version))]))])
  }

  function StringProperty(description: string): Json {
    JObj([("type", JStr("string")), ("description", JStr(description))])
  }

  function NullableProperty(kind: string, description: string): Json {
    JObj([("type", JArr([JStr(kind), JStr("null")])), ("description", JStr(description))])
  }

  /** The schema of `level`: an integer or null, from 1 to 5. */
  function LevelProperty(): Json {
    JObj([
      ("type", JArr([JStr("integer"), JStr("null")])),
      ("minimum", JInt(1)),
      ("maximum", JInt(5)),
      ("description", JStr("Enhancement strength 1-5"))])
  }

  /** The properties of the tool's arguments: the prompt and the six options. */
  function SchemaProperties(): Json {
    JObj([
      ("prompt", StringProperty("The raw prompt to enhance")),
      ("goal", NullableProperty("string", "Desired outcome")),
      ("style", NullableProperty("string", "Writing style (concise, formal, etc.)")),
      ("tone", NullableProperty("string", "Tone (neutral, persuasive, etc.)")),
      ("level", LevelProperty()),
      ("audience", NullableProperty("string", "Target audience")),
      ("language", NullableProperty("string", "Output language, e.g., en, id"))])
  }

  /** The JSON schema of the tool's arguments. */
  function InputSchema(): Json {
    JObj([
      ("$schema", JStr("http://json-schema.org/draft-07/schema#")),
      ("type", JStr("object")),
      ("required", JArr([JStr("prompt")])),
      ("properties", SchemaProperties())])
  }

  /** The one tool, serialized with camel-case keys. */
  function ToolDescription(): Json {
    JObj([
      ("name", JStr(ToolName)),
      ("description", JStr("Enhance a user prompt for clarity, constraints, and specificity")),
      ("inputSchema", InputSchema())])
  }

  function TextContent(text: string): Json {
    JObj([("type", JStr("text")), ("text", JStr(text))])
  }

  // ---- decoding the parameters of `tools/call` ----

  datatype ToolCallParams = ToolCallParams(name: string, arguments: Json)

  /** `serde_json::from_value::<ToolCallParams>`: `name` is required, `arguments` defaults to null. */
  function DecodeToolCallParams(v: Json): (r: Result<ToolCallParams, string>)
    ensures r.Success? <==> v.JObj? && DecodeString(v.fields, "name").Success?
    ensures r.Success? ==> r.value.name == DecodeString(v.fields, "name").value
    ensures r.Success? ==> r.value.arguments == Get(v.fields, "arguments").GetOr(JNull)
  {
    if !v.JObj? then Failure("invalid type: expected struct ToolCallParams")
    else
      match DecodeString(v.fields, "name")
      case Failure(e) => Failure(e)
      case Success(name) => Success(ToolCallParams(name, Get(v.fields, "arguments").GetOr(JNull)))
  }

  /** `serde_json::from_value::<EnhanceArgs>`: a required `prompt` and the six optional options. */
  function DecodeEnhanceArgs(v: Json): (r: Result<(Prompt, EnhancementOptions), string>)
    ensures r.Success? <==>
      v.JObj? && DecodeString(v.fields, "prompt").Success? && DecodeOptionFields(v.fields).Success?
    ensures r.Success? ==>
      r.value.0 == Prompt(DecodeString(v.fields, "prompt").value) && r.value.1 == DecodeOptionFields(v.fields).value
  {
    if !v.JObj? then Failure("invalid type: expected struct EnhanceArgs")
    else
      match DecodeString(v.fields, "prompt")
      case Failure(e) => Failure(e)
      case Success(text) =>
        match DecodeOptionFields(v.fields)
        case Failure(e) => Failure(e)
        case Success(o) => Success((Prompt(text), o))
  }

  /** Arguments holding only a prompt decode to that prompt with the default options. */
  lemma PromptOnlyArguments(text: string)
    ensures DecodeEnhanceArgs(JObj([("prompt", JStr(text))])) == Success((Prompt(text), DefaultOptions()))
  {
    var f := [("prompt", JStr(text))];
    assert f[0].0[0] == 'p';
    assert "goal"[0] == 'g' && "style"[0] == 's' && "tone"[0] == 't';
    assert "level"[0] == 'l' && "audience"[0] == 'a' && "language"[0] == 'l';
    GetAt(f, 0, "prompt");
    GetAbsent(f, "goal");
    GetAbsent(f, "style");
    GetAbsent(f, "tone");
    GetAbsent(f, "level");
    GetAbsent(f, "audience");
    GetAbsent(f, "language");
  }

  // ---- dispatch ----

  /** The answer to `tools/call` once the arguments are decoded: the use case's outcome as tool content. */
  function ToolResult(outcome: Result<EnhancedPrompt, ExecError>): (result: Json)
    ensures outcome.Success? ==> result == JObj([("content", JArr([TextContent(outcome.value.text)]))])
    ensures outcome.Failure? ==>
      result == JObj([("content", JArr([TextContent("tool error: " + ExecErrorMessage(outcome.error))])), ("isError", JBool(true))])
  {
    match outcome
    case Success(enhanced) => JObj([("content", JArr([TextContent(enhanced.text)]))])
    case Failure(e) => JObj([("content", JArr([TextContent("tool error: " + ExecErrorMessage(e))])), ("isError", JBool(true))])
  }

  /** `tools/call`: decode the parameters and the arguments, then run the use case. */
  function ToolCall(usecase: EnhancePrompt, req: JsonRpcRequest): JsonRpcResponse {
    match DecodeToolCallParams(req.params)
    case Failure(e) => ErrorResponse(req.id, InvalidParams, "invalid params: " + e)
    case Success(p) =>
      if p.name != ToolName then ErrorResponse(req.id, MethodNotFound, "unknown tool: " + p.name)
      else
        match DecodeEnhanceArgs(p.arguments)
        case Failure(e) => ErrorResponse(req.id, InvalidParams, "invalid arguments: " + e)
        case Success(args) => ResultResponse(req.id, ToolResult(Outcome(usecase.provider, args.0, args.1)))
  }

  /** The methods the server knows, and everything else. */
  datatype Route = Initialize | ToolsList | ToolsCall | Ping | Shutdown | UnknownMethod

  /** Which arm of the dispatch a method name takes. */
  function RouteOf(m: string): (r: Route)
    ensures r == Initialize <==> m == "initialize" || m == "mcp/initialize"
    ensures r == ToolsList <==> m == "tools/list"
    ensures r == ToolsCall <==> m == "tools/call"
    ensures r == Ping <==> m == "ping"
    ensures r == Shutdown <==> m == "shutdown"
  {
    if m == "initialize" || m == "mcp/initialize" then Initialize
    else if m == "tools/list" then ToolsList
    else if m == "tools/call" then ToolsCall
    else if m == "ping" then Ping
    else if m == "shutdown" then Shutdown
    else UnknownMethod
  }

  /**
   * Rust's `handle_request`. Every response is version "2.0", echoes the
   * request's id, and carries exactly one of a result and an error; the only
   * error codes are "method not found" and "invalid params".
   */
  function HandleRequest(usecase: EnhancePrompt, version: string, req: JsonRpcRequest): (resp: JsonRpcResponse)
    ensures resp.jsonrpc == "2.0" && resp.id == req.id
    ensures resp.result.Some? <==> resp.error.None?
    ensures resp.error.Some? ==> resp.error.value.code in {MethodNotFound, InvalidParams} && resp.error.value.data.None?
  {
    match RouteOf(req.methodName)
    case Initialize => ResultResponse(req.id, InitializeResult(version))
    case ToolsList => ResultResponse(req.id, JObj([("tools", JArr([ToolDescription()]))]))
    case ToolsCall => ToolCall(usecase, req)
    case Ping => ResultResponse(req.id, JObj([("message", JStr("pong"))]))
    case Shutdown => ResultResponse(req.id, JObj([("ok", JBool(true))]))
    case UnknownMethod => ErrorResponse(req.id, MethodNotFound, "unknown method: " + req.methodName)
  }

  /** Exactly the methods outside the six known ones get "method not found" with the method's name. */
  lemma UnknownMethodIff(usecase: EnhancePrompt, version: string, req: JsonRpcRequest)
    requires req.methodName != "tools/call"
    ensures HandleRequest(usecase, version, req).error.Some? <==>
      !(req.methodName in {"initialize", "mcp/initialize", "tools/list", "ping", "shutdown"})
    ensures !(req.methodName in {"initialize", "mcp/initialize", "tools/list", "ping", "shutdown"}) ==>
      HandleRequest(usecase, version, req).error == Some(JsonRpcError(MethodNotFound, "unknown method: " + req.methodName, None))
  {
  }

  /** Both initialize methods give the protocol version, the capabilities and the server's name and version. */
  lemma InitializeResponse(usecase: EnhancePrompt, version: string, req: JsonRpcRequest)
    requires req.methodName == "initialize" || req.methodName == "mcp/initialize"
    ensures var r := HandleRequest(usecase, version, req).result;
      && r.Some?
      && Field(r.value, "protocolVersion") == Some(JStr("2024-11-05"))
      && Field(r.value, "capabilities") == Some(JObj([("tools", JObj([("list", JBool(true)), ("call", JBool(true))]))]))
      && Field(r.value, "serverInfo") == Some(JObj([("name", JStr("anytra")), ("version", JStr(version))]))
    ensures HandleRequest(usecase, version, req) == HandleRequest(usecase, version, req.(methodName := "initialize"))
  {
    var f := InitializeResult(version).fields;
    assert DistinctKeys(f) by {
      assert f[0].0[0] == 'p' && f[1].0[0] == 'c' && f[2].0[0] == 's';
    }
    GetDistinct(f, 0);
    GetDistinct(f, 1);
    GetDistinct(f, 2);
  }

  /**
   * `tools/list` lists one tool: the description of `enhance_prompt`.
   */
  lemma ToolsListResponse(usecase: EnhancePrompt, version: string, req: JsonRpcRequest)
    requires req.methodName == "tools/list"
    ensures var r := HandleRequest(usecase, version, req).result;
      && r.Some?
      && Field(r.value, "tools") == Some(JArr([ToolDescription()]))
  {
    GetAt([("tools", JArr([ToolDescription()]))], 0, "tools");
  }

  /**
   * The tool is named `enhance_prompt` and its schema sits under the key
   * "inputSchema"; there is no "input_schema" key.
   */
  lemma ToolDescriptionKeys()
    ensures Field(ToolDescription(), "name") == Some(JStr(ToolName))
    ensures Field(ToolDescription(), "inputSchema") == Some(InputSchema())
    ensures Field(ToolDescription(), "input_schema") == None
  {
    var t := ToolDescription().fields;
    assert t[0].0[0] == 'n' && t[1].0[0] == 'd' && t[2].0[0] == 'i' && t[2].0[5] == 'S';
    assert "input_schema"[0] == 'i' && "input_schema"[5] == '_';
    GetAt(t, 0, "name");
    GetAt(t, 2, "inputSchema");
    GetAbsent(t, "input_schema");
  }

  /** The schema requires `prompt` and describes the arguments by their properties. */
  lemma InputSchemaKeys()
    ensures Field(InputSchema(), "required") == Some(JArr([JStr("prompt")]))
    ensures Field(InputSchema(), "properties") == Some(SchemaProperties())
  {
    var s := InputSchema().fields;
    assert s[0].0[0] == '$' && s[1].0[0] == 't' && s[2].0[0] == 'r' && s[3].0[0] == 'p';
    GetAt(s, 2, "required");
    GetAt(s, 3, "properties");
  }

  /** The `level` property admits the integers from 1 to 5. */
  lemma LevelSchema()
    ensures Field(SchemaProperties(), "level") == Some(LevelProperty())
    ensures Field(LevelProperty(), "minimum") == Some(JInt(1))
    ensures Field(LevelProperty(), "maximum") == Some(JInt(5))
  {
    var p := SchemaProperties().fields;
    assert p[0].0[0] == 'p' && p[1].0[0] == 'g' && p[2].0[0] == 's' && p[3].0[0] == 't' && p[4].0[0] == 'l';
    GetAt(p, 4, "level");
    var l := LevelProperty().fields;
    assert l[0].0[0] == 't' && l[1].0[1] == 'i' && l[2].0[1] == 'a';
    GetAt(l, 1, "minimum");
    GetAt(l, 2, "maximum");
  }

  /** `ping` answers `{"message": "pong"}` and `shutdown` answers `{"ok": true}`. */
  lemma PingAndShutdown(usecase: EnhancePrompt, version: string, req: JsonRpcRequest)
    ensures req.methodName == "ping" ==> HandleRequest(usecase, version, req).result == Some(JObj([("message", JStr("pong"))]))
    ensures req.methodName == "shutdown" ==> HandleRequest(usecase, version, req).result == Some(JObj([("ok", JBool(true))]))
  {
  }

  /**
   * How `tools/call` fails: undecodable parameters and undecodable
   * arguments are "invalid params", another tool's name is "method not
   * found", each with its message prefix.
   */
  lemma ToolCallErrors(usecase: EnhancePrompt, version: string, req: JsonRpcRequest)
    requires req.methodName == "tools/call"
    ensures var resp := HandleRequest(usecase, version, req);
      match DecodeToolCallParams(req.params)
      case Failure(e) => resp.error == Some(JsonRpcError(InvalidParams, "invalid params: " + e, None))
      case Success(p) =>
        if p.name != ToolName then resp.error == Some(JsonRpcError(MethodNotFound, "unknown tool: " + p.name, None))
        else match DecodeEnhanceArgs(p.arguments)
          case Failure(e) => resp.error == Some(JsonRpcError(InvalidParams, "invalid arguments: " + e, None))
          case Success(_) => resp.error.None?
  {
  }

  /**
   * Once the arguments decode, the use case runs and its outcome is a
   * result, never a JSON-RPC error: its text as content, or "tool error: "
   * and the error's text flagged with `isError`. Content without the flag
   * is always text that passes the validation gate.
   */
  lemma ToolCallOutcome(usecase: EnhancePrompt, version: string, req: JsonRpcRequest,
                        p: ToolCallParams, args: (Prompt, EnhancementOptions))
    requires req.methodName == "tools/call"
    requires DecodeToolCallParams(req.params) == Success(p) && p.name == ToolName
    requires DecodeEnhanceArgs(p.arguments) == Success(args)
    ensures var resp := HandleRequest(usecase, version, req);
      var outcome := Outcome(usecase.provider, args.0, args.1);
      && resp.error.None?
      && (outcome.Success? ==>
            && resp.result == Some(JObj([("content", JArr([TextContent(outcome.value.text)]))]))
            && PassesGate(outcome.value.text))
      && (outcome.Failure? ==>
            resp.result == Some(JObj([("content", JArr([TextContent("tool error: " + ExecErrorMessage(outcome.error))])),
                                      ("isError", JBool(true))])))
  {
    var outcome := Outcome(usecase.provider, args.0, args.1);
    if outcome.Success? {
      CheckOkIff(usecase.provider(args.0, args.1).value.text);
    }
  }

  // ---- the line loop ----

  /** What one read of standard input gives: a line, the end of input, or an error. */
  datatype LineRead = Line(text: string) | EndOfInput | ReadError(message: string)

  /** The answer to a line that is not JSON-RPC: a parse error with no id. */
  function ParseErrorResponse(e: string): (resp: JsonRpcResponse)
    ensures resp.id.None? && resp.result.None?
    ensures resp.error == Some(JsonRpcError(ParseError, "parse error: " + e, None))
  {
    ErrorResponse(None, ParseError, "parse error: " + e)
  }

  /** The response written for one non-blank line. */
  function Respond(usecase: EnhancePrompt, version: string,
                   parse: string -> Result<JsonRpcRequest, string>, line: string): JsonRpcResponse {
    match parse(line)
    case Success(req) => HandleRequest(usecase, version, req)
    case Failure(e) => ParseErrorResponse(e)
  }

  /** The responses written for `input`: one per non-blank line, until the input ends or fails. */
  function Transcript(usecase: EnhancePrompt, version: string,
                      parse: string -> Result<JsonRpcRequest, string>, input: seq<LineRead>): seq<JsonRpcResponse>
    decreases |input|
  {
    if input == [] || !input[0].Line? then []
    else if Trim(input[0].text) == [] then Transcript(usecase, version, parse, input[1..])
    else [Respond(usecase, version, parse, input[0].text)] + Transcript(usecase, version, parse, input[1..])
  }

  /** The non-blank lines read before the input ends or fails, in order. */
  function RequestLines(input: seq<LineRead>): (lines: seq<string>)
    ensures forall i | 0 <= i < |lines| :: !IsBlank(lines[i])
    decreases |input|
  {
    if input == [] || !input[0].Line? then []
    else if Trim(input[0].text) == [] then RequestLines(input[1..])
    else
      TrimEmptyIffBlank(input[0].text);
      [input[0].text] + RequestLines(input[1..])
  }

  /**
   * One response per non-blank line, in input order, each the response to
   * that line; a `shutdown` request is answered like any other and does not
   * end the loop.
   */
  lemma {:induction false} TranscriptMatchesLines(usecase: EnhancePrompt, version: string,
                                                   parse: string -> Result<JsonRpcRequest, string>, input: seq<LineRead>)
    ensures var out := Transcript(usecase, version, parse, input);
      var lines := RequestLines(input);
      && |out| == |lines|
      && forall i | 0 <= i < |out| :: out[i] == Respond(usecase, version, parse, lines[i])
    decreases |input|
  {
    if input != [] && input[0].Line? {
      TranscriptMatchesLines(usecase, version, parse, input[1..]);
      if Trim(input[0].text) != [] {
        var out := Transcript(usecase, version, parse, input);
        var lines := RequestLines(input);
        forall i | 0 <= i < |out|
          ensures out[i] == Respond(usecase, version, parse, lines[i])
        {
          if i > 0 {
            assert out[i] == Transcript(usecase, version, parse, input[1..])[i - 1];
            assert lines[i] == RequestLines(input[1..])[i - 1];
          }
        }
      }
    }
  }

  /** Nothing read after the end of input or a read error is answered. */
  lemma {:induction false} StopsAtEnd(usecase: EnhancePrompt, version: string,
                                      parse: string -> Result<JsonRpcRequest, string>,
                                      before: seq<LineRead>, end: LineRead, after: seq<LineRead>)
    requires !end.Line?
    ensures Transcript(usecase, version, parse, before + [end] + after) == Transcript(usecase, version, parse, before)
    decreases |before|
  {
    if before == [] {
      assert (before + [end] + after)[0] == end;
    } else {
      assert (before + [end] + after)[1..] == before[1..] + [end] + after;
      StopsAtEnd(usecase, version, parse, before[1..], end, after);
    }
  }

  /** The transcript from read `i` on, by the kind of that read. */
  lemma TranscriptStep(usecase: EnhancePrompt, version: string,
                       parse: string -> Result<JsonRpcRequest, string>, input: seq<LineRead>, i: nat)
    requires i < |input|
    ensures Transcript(usecase, version, parse, input[i..]) ==
      if !input[i].Line? then []
      else if Trim(input[i].text) == [] then Transcript(usecase, version, parse, input[i + 1..])
      else [Respond(usecase, version, parse, input[i].text)] + Transcript(usecase, version, parse, input[i + 1..])
  {
    assert input[i..][1..] == input[i + 1..];
  }

  /** Answering a non-blank line extends the written responses by that line's response. */
  lemma AnswerStep(usecase: EnhancePrompt, version: string,
                   parse: string -> Result<JsonRpcRequest, string>, input: seq<LineRead>, i: nat,
                   written: seq<JsonRpcResponse>, resp: JsonRpcResponse)
    requires i < |input| && input[i].Line? && Trim(input[i].text) != []
    requires resp == Respond(usecase, version, parse, input[i].text)
    ensures written + Transcript(usecase, version, parse, input[i..]) ==
      (written + [resp]) + Transcript(usecase, version, parse, input[i + 1..])
  {
    TranscriptStep(usecase, version, parse, input, i);
  }

  /**
   * Rust's `run_stdio_server`: read lines until the input ends or fails,
   * skip blank lines, and write one response per other line.
   */
  method Serve(usecase: EnhancePrompt, version: string,
               parse: string -> Result<JsonRpcRequest, string>, input: seq<LineRead>)
    returns (written: seq<JsonRpcResponse>)
    ensures written == Transcript(usecase, version, parse, input)
  {
    written := [];
    var shuttingDown := false;
    var i := 0;
    while i < |input|
      invariant 0 <= i <= |input|
      invariant Transcript(usecase, version, parse, input) == written + Transcript(usecase, version, parse, input[i..])
    {
      TranscriptStep(usecase, version, parse, input, i);
      match input[i]
      case EndOfInput =>
        break;
      case ReadError(_) =>
        break;
      case Line(line) =>
        i := i + 1;
        if Trim(line) == [] {
          continue;
        }
        match parse(line)
        case Success(req) =>
          var resp := HandleRequest(usecase, version, req);
          AnswerStep(usecase, version, parse, input, i - 1, written, resp);
          written := written + [resp];
          if shuttingDown {
            break;
          }
        case Failure(e) =>
          AnswerStep(usecase, version, parse, input, i - 1, written, ParseErrorResponse(e));
          written := written + [ParseErrorResponse(e)];
    }
    assert i < |input| ==> !input[i].Line?;
  }
}
