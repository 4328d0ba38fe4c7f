/**
 * The request and response records of the enhancement service and their
 * JSON encodings (serde's derived `Serialize`/`Deserialize`).
 */
module Models {
  import opened Wrappers
  import opened MachineInts
  import opened Json

  /** The raw prompt text sent by the caller. */
  datatype Prompt = Prompt(text: string)

  /**
   * Optional hints for the enhancement. `level` is documented as 1-5, but
   * nothing enforces that range: any `u8` is accepted.
   */
  datatype EnhancementOptions = EnhancementOptions(
    goal: Option<string>,
    style: Option<string>,
    tone: Option<string>,
    level: Option<u8>,
    audience: Option<string>,
    language: Option<string>)

  /** The enhanced text, with an optional rationale and confidence score. */
  datatype EnhancedPrompt = EnhancedPrompt(
    text: string,
    rationale: Option<string>,
    confidence: Option<real>)

  /** `EnhancementOptions::default()`. */
  function DefaultOptions(): (o: EnhancementOptions)
    ensures o.goal.None? && o.style.None? && o.tone.None?
    ensures o.level.None? && o.audience.None? && o.language.None?
  {
    EnhancementOptions(None, None, None, None, None, None)
  }

  // ---- Prompt ----

  function EncodePrompt(p: Prompt): Json {
    JObj([("text", JStr(p.text))])
  }

  function DecodePrompt(v: Json): (r: Result<Prompt, string>)
    ensures r.Success? <==> v.JObj? && Get(v.fields, "text").Some? && Get(v.fields, "text").value.JStr?
  {
    if !v.JObj? then Failure("invalid type: expected struct Prompt")
    else
      match DecodeString(v.fields, "text")
      case Failure(e) => Failure(e)
      case Success(t) => Success(Prompt(t))
  }

  lemma PromptRoundTrip(p: Prompt)
    ensures EncodePrompt(p) == JObj([("text", JStr(p.text))])
    ensures DecodePrompt(EncodePrompt(p)) == Success(p)
  {
  }

  // ---- EnhancementOptions ----

  function LevelToJson(l: Option<u8>): Json {
    if l.Some? then JInt(l.value) else JNull
  }

  /** Fields in declaration order, `None` written as `null`. */
  function EncodeOptions(o: EnhancementOptions): Json {
    JObj([
      ("goal", OptStringToJson(o.goal)),
      ("style", OptStringToJson(o.style)),
      ("tone", OptStringToJson(o.tone)),
      ("level", LevelToJson(o.level)),
      ("audience", OptStringToJson(o.audience)),
      ("language", OptStringToJson(o.language))])
  }

  /** Every field has `#[serde(default)]`, so an empty object decodes to the defaults. */
  function DecodeOptionFields(fields: seq<(string, Json)>): (r: Result<EnhancementOptions, string>)
    ensures fields == [] ==> r == Success(DefaultOptions())
    ensures r.Failure? <==>
      DecodeOptString(fields, "goal").Failure? || DecodeOptString(fields, "style").Failure?
      || DecodeOptString(fields, "tone").Failure? || DecodeOptU8(fields, "level").Failure?
      || DecodeOptString(fields, "audience").Failure? || DecodeOptString(fields, "language").Failure?
    ensures r.Success? ==>
      && DecodeOptString(fields, "goal") == Success(r.value.goal)
      && DecodeOptString(fields, "style") == Success(r.value.style)
      && DecodeOptString(fields, "tone") == Success(r.value.tone)
      && DecodeOptU8(fields, "level") == Success(r.value.level)
      && DecodeOptString(fields, "audience") == Success(r.value.audience)
      && DecodeOptString(fields, "language") == Success(r.value.language)
  {
    var goal := DecodeOptString(fields, "goal");
    var style := DecodeOptString(fields, "style");
    var tone := DecodeOptString(fields, "tone");
    var level := DecodeOptU8(fields, "level");
    var audience := DecodeOptString(fields, "audience");
    var language := DecodeOptString(fields, "language");
    if goal.Failure? then Failure(goal.error)
    else if style.Failure? then Failure(style.error)
    else if tone.Failure? then Failure(tone.error)
    else if level.Failure? then Failure(level.error)
    else if audience.Failure? then Failure(audience.error)
    else if language.Failure? then Failure(language.error)
    else Success(EnhancementOptions(goal.value, style.value, tone.value, level.value, audience.value, language.value))
  }

  function DecodeOptions(v: Json): Result<EnhancementOptions, string> {
    if v.JObj? then DecodeOptionFields(v.fields)
    else Failure("invalid type: expected struct EnhancementOptions")
  }

  /** The keys of `EnhancementOptions`. */
  const OptionKeys := ["goal", "style", "tone", "level", "audience", "language"]

  /** An object with none of the option keys, whatever else it holds, decodes to the defaults. */
  lemma DecodeWithoutOptionKeys(fields: seq<(string, Json)>)
    requires forall k | k in OptionKeys :: !HasKey(fields, k)
    ensures DecodeOptionFields(fields) == Success(DefaultOptions())
  {
    forall k | k in OptionKeys
      ensures Get(fields, k) == None
    {
      GetSpec(fields, k);
    }
  }

  /** Decoding reads back each option from its own key. */
  lemma DecodeOptionFieldsOf(f: seq<(string, Json)>, o: EnhancementOptions)
    requires Get(f, "goal") == Some(OptStringToJson(o.goal))
    requires Get(f, "style") == Some(OptStringToJson(o.style))
    requires Get(f, "tone") == Some(OptStringToJson(o.tone))
    requires Get(f, "level") == Some(LevelToJson(o.level))
    requires Get(f, "audience") == Some(OptStringToJson(o.audience))
    requires Get(f, "language") == Some(OptStringToJson(o.language))
    ensures DecodeOptionFields(f) == Success(o)
  {
    OptStringRoundTrip(f, "goal", o.goal);
    OptStringRoundTrip(f, "style", o.style);
    OptStringRoundTrip(f, "tone", o.tone);
    OptStringRoundTrip(f, "audience", o.audience);
    OptStringRoundTrip(f, "language", o.language);
  }

  /** Encoding writes the six keys in declaration order. */
  lemma OptionsKeys(o: EnhancementOptions)
    ensures Keys(EncodeOptions(o).fields) == ["goal", "style", "tone", "level", "audience", "language"]
  {
  }

  /** Decoding an encoded set of options gives it back. */
  lemma OptionsRoundTrip(o: EnhancementOptions)
    ensures DecodeOptions(EncodeOptions(o)) == Success(o)
  {
    var f := EncodeOptions(o).fields;
    assert DistinctKeys(f) by {
      assert f[0].0[0] == 'g' && f[1].0[0] == 's' && f[2].0[0] == 't';
      assert f[3].0[..2] == "le" && f[4].0[0] == 'a' && f[5].0[..2] == "la";
    }
    GetDistinct(f, 0);
    GetDistinct(f, 1);
    GetDistinct(f, 2);
    GetDistinct(f, 3);
    GetDistinct(f, 4);
    GetDistinct(f, 5);
    DecodeOptionFieldsOf(f, o);
  }

  // ---- EnhancedPrompt ----

  function EncodeEnhanced(e: EnhancedPrompt): Json {
    JObj([
      ("text", JStr(e.text)),
      ("rationale", OptStringToJson(e.rationale)),
      ("confidence", if e.confidence.Some? then JFloat(e.confidence.value) else JNull)])
  }

  function DecodeEnhanced(v: Json): Result<EnhancedPrompt, string> {
    if !v.JObj? then Failure("invalid type: expected struct EnhancedPrompt")
    else
      match (DecodeString(v.fields, "text"), DecodeOptString(v.fields, "rationale"), DecodeOptNumber(v.fields, "confidence"))
      case (Success(t), Success(r), Success(c)) => Success(EnhancedPrompt(t, r, c))
      case (Failure(e), _, _) => Failure(e)
      case (_, Failure(e), _) => Failure(e)
      case (_, _, Failure(e)) => Failure(e)
  }

  lemma EnhancedRoundTrip(e: EnhancedPrompt)
    ensures Keys(EncodeEnhanced(e).fields) == ["text", "rationale", "confidence"]
    ensures DecodeEnhanced(EncodeEnhanced(e)) == Success(e)
  {
    var f := EncodeEnhanced(e).fields;
    var keys := ["text", "rationale", "confidence"];
    assert forall i | 0 <= i < 3 :: f[i].0 == keys[i];
    assert keys[0][0] == 't' && keys[1][0] == 'r' && keys[2][0] == 'c';
    GetAt(f, 0, keys[0]);
    GetAt(f, 1, keys[1]);
    GetAt(f, 2, keys[2]);
  }

  /** A record without a "confidence" key decodes with confidence `None`. */
  lemma MissingConfidenceIsNone(text: string, rationale: Option<string>)
    ensures DecodeEnhanced(JObj([("text", JStr(text)), ("rationale", OptStringToJson(rationale))]))
         == Success(EnhancedPrompt(text, rationale, None))
  {
    var f := [("text", JStr(text)), ("rationale", OptStringToJson(rationale))];
    var keys := ["text", "rationale", "confidence"];
    assert forall i | 0 <= i < 2 :: f[i].0 == keys[i];
    assert keys[0][0] == 't' && keys[1][0] == 'r' && keys[2][0] == 'c';
    GetAt(f, 0, keys[0]);
    GetAt(f, 1, keys[1]);
    GetAbsent(f, keys[2]);
  }
}
