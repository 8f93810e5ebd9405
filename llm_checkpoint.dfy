/**
 * The strong/weak routing LLM client of the notebook checkpoint
 * (`aeon/core/.ipynb_checkpoints/llm-checkpoint.py`): endpoint routing and the
 * context limit it sets, the context-size guard, the fence-and-brace JSON
 * slicer, and the values each call falls back to when the provider fails.
 * Prompt text is left out; a prompt enters the model only as its token estimate.
 */
module CheckpointLlm {
  import opened Wrappers
  import opened Text
  import opened JsonValue
  import opened Provider

  const DefaultStrongModel: string := "deepseek-r1:70b"
  const DefaultWeakModel: string := "qwen2.5:72b"
  const DefaultContextLimit: int := 128000
  const GeminiContextLimit: int := 1000000
  const GrokContextLimit: int := 128000
  const GeminiBaseUrl: string := "https://generativelanguage.googleapis.com/v1beta/openai/"
  const GrokBaseUrl: string := "https://api.x.ai/v1"
  const GeminiKeyMissing: string := "Gemini API key not found for "
  const GrokKeyMissing: string := "Grok API key not found for "

  /** Where a client sends its requests. */
  datatype Endpoint = Local(port: nat) | Cloud(baseUrl: string, apiKey: string)

  /** The stripped contents of `~/gemini_api_key.txt` and `~/grok_api_key.txt`, when the files exist. */
  datatype KeyFiles = KeyFiles(gemini: Option<string>, grok: Option<string>)

  /** Routing looks at the lowercased model name. */
  predicate IsGemini(modelName: string) { Contains(Lower(modelName), "gemini") }

  predicate IsGrok(modelName: string) { !IsGemini(modelName) && Contains(Lower(modelName), "grok") }

  /** `strong_model or default`: a missing or empty name takes the default. */
  function NameOr(name: Option<string>, default: string): (r: string)
    ensures name.Some? && name.value != "" ==> r == name.value
    ensures name.None? || name.value == "" ==> r == default
  {
    if name.Some? && name.value != "" then name.value else default
  }

  /** The client `_init_client` builds for a model in a role, or the ValueError it raises. */
  function Route(modelName: string, role: string, keys: KeyFiles): Result<Endpoint> {
    if IsGemini(modelName) then
      if keys.gemini.None? then Err(GeminiKeyMissing + modelName)
      else Ok(Cloud(GeminiBaseUrl, keys.gemini.value))
    else if IsGrok(modelName) then
      if keys.grok.None? then Err(GrokKeyMissing + modelName)
      else Ok(Cloud(GrokBaseUrl, keys.grok.value))
    else Ok(Local(if role == "strong" then 8000 else 8001))
  }

  /** The context limit after `_init_client` for `modelName`, starting from `limit`. */
  function LimitAfter(modelName: string, limit: int): int {
    if IsGemini(modelName) then GeminiContextLimit
    else if IsGrok(modelName) then GrokContextLimit
    else limit
  }

  /** Local models go to port 8000 in the strong role and 8001 otherwise; cloud names need their key file. */
  lemma {:induction false} RouteRules(modelName: string, role: string, keys: KeyFiles)
    ensures !IsGemini(modelName) && !IsGrok(modelName) ==>
              Route(modelName, role, keys) == Ok(Local(if role == "strong" then 8000 else 8001))
    ensures IsGemini(modelName) ==> (Route(modelName, role, keys).Ok? <==> keys.gemini.Some?)
    ensures IsGrok(modelName) ==> (Route(modelName, role, keys).Ok? <==> keys.grok.Some?)
    ensures Route(modelName, role, keys).Ok? && Route(modelName, role, keys).value.Cloud? ==>
              IsGemini(modelName) || IsGrok(modelName)
    ensures LimitAfter(modelName, DefaultContextLimit) == (if IsGemini(modelName) then 1000000 else 128000)
  {
  }

  /** Both default models are local: the strong one on port 8000, the weak one on 8001, neither changing the limit. */
  lemma {:induction false} DefaultsAreLocal(keys: KeyFiles, limit: int)
    ensures Route(DefaultStrongModel, "strong", keys) == Ok(Local(8000))
    ensures Route(DefaultWeakModel, "weak", keys) == Ok(Local(8001))
    ensures LimitAfter(DefaultStrongModel, limit) == limit && LimitAfter(DefaultWeakModel, limit) == limit
  {
    NoneOfFirstChar(Lower(DefaultStrongModel), "gemini");
    NoneOfFirstChar(Lower(DefaultStrongModel), "grok");
    NoneOfFirstChar(Lower(DefaultWeakModel), "gemini");
    NoneOfFirstChar(Lower(DefaultWeakModel), "grok");
  }

  /** Case does not matter to routing: "Gemini-Pro" is a Gemini model. */
  lemma {:induction false} RoutingIgnoresCase()
    ensures IsGemini("Gemini-Pro")
    ensures LimitAfter("Gemini-Pro", DefaultContextLimit) == 1000000
  {
    assert Lower("Gemini-Pro") == "gemini-pro";
    assert OccursAt(Lower("Gemini-Pro"), "gemini", 0);
  }

  /** The context limit after constructing with these two model names (when construction succeeds). */
  function ConstructedLimit(strongModel: string, weakModel: string): int {
    LimitAfter(weakModel, LimitAfter(strongModel, DefaultContextLimit))
  }

  /** The limit is set by the last cloud-family model among strong then weak, and stays 128,000 for two local ones. */
  lemma {:induction false} LimitSetByLastCloudModel(strongModel: string, weakModel: string)
    ensures IsGemini(weakModel) || IsGrok(weakModel) ==>
              ConstructedLimit(strongModel, weakModel) == LimitAfter(weakModel, DefaultContextLimit)
    ensures !(IsGemini(weakModel) || IsGrok(weakModel)) ==>
              ConstructedLimit(strongModel, weakModel) == LimitAfter(strongModel, DefaultContextLimit)
    ensures !(IsGemini(weakModel) || IsGrok(weakModel)) && !(IsGemini(strongModel) || IsGrok(strongModel)) ==>
              ConstructedLimit(strongModel, weakModel) == 128000
  {
  }

  // ---------------------------------------------------------------------------
  // The context-size guard
  // ---------------------------------------------------------------------------

  datatype ContextCheck = Fits | Warned | Overflow(message: string)

  /**
   * `_check_context_size`: over the limit, a model whose name contains
   * "gemini" or "grok" (case-sensitive) only warns; any other raises.
   */
  function CheckContextSize(count: nat, limit: int, modelName: string): (r: ContextCheck)
    ensures r == Fits <==> count <= limit
    ensures r.Overflow? <==> count > limit && !Contains(modelName, "gemini") && !Contains(modelName, "grok")
    ensures r.Overflow? ==> StartsWith(r.message, "CONTEXT OVERFLOW: Input size " + NatToString(count))
  {
    if count <= limit then Fits
    else if !Contains(modelName, "gemini") && !Contains(modelName, "grok") then
      var head := "CONTEXT OVERFLOW: Input size " + NatToString(count);
      var rest := " exceeds limit " + IntToString(limit)
                  + ". Aborting to prevent silent truncation. Reduce file tree size or history.";
      ConcatAffixes(head, rest);
      Overflow(head + rest)
    else Warned
  }

  /**
   * The routing test lowercases, the guard does not: a "Gemini-Pro" model gets
   * the cloud limit and is still stopped hard when a prompt exceeds it.
   */
  lemma {:induction false} CapitalisedCloudNameIsGuardedAsLocal(count: nat)
    requires count > 1000000
    ensures IsGemini("Gemini-Pro")
    ensures CheckContextSize(count, LimitAfter("Gemini-Pro", DefaultContextLimit), "Gemini-Pro").Overflow?
  {
    RoutingIgnoresCase();
    NoneOfFirstChar("Gemini-Pro", "gemini");
    NoneOfFirstChar("Gemini-Pro", "grok");
  }

  // ---------------------------------------------------------------------------
  // The fence-and-brace JSON slicer
  // ---------------------------------------------------------------------------

  /**
   * Step 2 of `_clean_json_response`: with a ```json fence, the text between
   * the first and the second ```json cut at its first ```; else with a bare
   * fence, the text before it; each stripped.
   */
  function Unfence(c: string): string {
    if Contains(c, "```json") then Strip(Before(Before(After(c, "```json"), "```json"), "```"))
    else if Contains(c, "```") then Strip(Before(c, "```"))
    else c
  }

  /** `Unfence` is the source's `split("```json")[1].split("```")[0].strip()` / `split("```")[0].strip()`. */
  lemma {:induction false} UnfenceIsSplit(c: string)
    ensures Contains(c, "```json") ==>
              |Split(c, "```json")| >= 2 && Unfence(c) == Strip(Split(Split(c, "```json")[1], "```")[0])
    ensures !Contains(c, "```json") && Contains(c, "```") ==> Unfence(c) == Strip(Split(c, "```")[0])
  {
    if Contains(c, "```json") {
      SplitPieces(c, "```json");
      SplitPieces(Split(c, "```json")[1], "```");
    } else if Contains(c, "```") {
      SplitPieces(c, "```");
    }
  }

  /**
   * With a ```json fence the result is the stripped text after the fence up to
   * the next ``` (or the end): a prefix of what follows the fence, with no ``` inside.
   */
  lemma {:induction false} UnfenceKeepsFenceBody(c: string)
    requires Contains(c, "```json")
    ensures var body := After(c, "```json");
            exists k :: 0 <= k <= |body| && Unfence(c) == Strip(body[..k]) && !Contains(body[..k], "```")
                        && (k == |body| || OccursAt(body, "```", k))
  {
    BeforeBeforePrefixSep(After(c, "```json"), "```json", "```");
  }

  /** With only a bare fence the result is the stripped text before the first ```. */
  lemma {:induction false} UnfenceBareFence(c: string)
    requires !Contains(c, "```json") && Contains(c, "```")
    ensures Unfence(c) == Strip(c[..Find(c, "```")])
  {
  }

  /** Step 3: `content[find('{') : rfind('}') + 1]` when there is a '{', else the text itself. */
  function SliceObject(c: string): (r: string)
    ensures FindChar(c, '{') == -1 ==> r == c
    ensures FindChar(c, '{') >= 0 && RFindChar(c, '}') < FindChar(c, '{') ==> r == ""
    ensures FindChar(c, '{') >= 0 && RFindChar(c, '}') > FindChar(c, '{') ==>
              r == c[FindChar(c, '{')..RFindChar(c, '}') + 1] && r[0] == '{' && r[|r| - 1] == '}'
  {
    var start := FindChar(c, '{');
    var end := RFindChar(c, '}') + 1;
    if start != -1 then
      if end <= start then "" else c[start..end]
    else c
  }

  /** The sliced text is the text itself (no '{'), "" (no '}' after the first '{'), or a '{'...'}' piece of it. */
  lemma {:induction false} SliceObjectCases(c: string)
    ensures var r := SliceObject(c);
            (FindChar(c, '{') == -1 && r == c)
            || (FindChar(c, '{') >= 0 && r == "")
            || (|r| >= 2 && r[0] == '{' && r[|r| - 1] == '}' && exists i, j :: 0 <= i <= j <= |c| && r == c[i..j])
  {
    var first := FindChar(c, '{');
    var last := RFindChar(c, '}');
    if first >= 0 && last > first {
      assert SliceObject(c) == c[first..last + 1];
    }
  }

  /**
   * `_clean_json_response`: "" for an empty response; otherwise the
   * `<think>`-stripped (`thinkStrip`), `strip()`ped, unfenced text, sliced
   * from its first '{' to its last '}'.
   */
  function CleanJson(content: string, thinkStrip: string -> string): (r: string)
    ensures content == "" ==> r == ""
  {
    if content == "" then "" else SliceObject(Unfence(Strip(thinkStrip(content))))
  }

  // ---------------------------------------------------------------------------
  // Fallbacks
  // ---------------------------------------------------------------------------

  /** The object `get_plan` dumps when the provider call fails. */
  function PlanFallback(error: string, currentPlan: string): (r: Json)
    ensures r.JObj? && Get(r.fields, "updated_plan", JNull) == JStr(currentPlan)
  {
    JObj(map["thought_process" := JStr("Error in planning: " + error),
             "updated_plan" := JStr(currentPlan),
             "next_step_suggestion" := JStr("Retry previous action or check logs.")])
  }

  /** The object `analyze_interruption` returns when the call or the decoding fails. */
  function IntentFallback(error: string, userInput: string): (r: Json)
    ensures r.JObj? && Get(r.fields, "classification", JNull) == JStr("ADVICE")
    ensures Get(r.fields, "updated_text", JNull) == JStr(userInput)
  {
    JObj(map["classification" := JStr("ADVICE"),
             "reasoning" := JStr("Error parsing intent: " + error),
             "updated_text" := JStr(userInput)])
  }

  /** JSON mode (no cleaning) is used for model names containing "gemini" or "grok" (case-sensitive). */
  predicate JsonMode(modelName: string) {
    Contains(modelName, "gemini") || Contains(modelName, "grok")
  }

  class LlmClient {
    var strongModel: string
    var weakModel: string
    var contextLimit: int
    var strongClient: Option<Endpoint>
    var weakClient: Option<Endpoint>

    /** Lines 19-22: the model names with their defaults and the initial limit; no client yet. */
    constructor Init(strong: Option<string>, weak: Option<string>)
      ensures strongModel == NameOr(strong, DefaultStrongModel)
      ensures weakModel == NameOr(weak, DefaultWeakModel)
      ensures contextLimit == DefaultContextLimit
      ensures strongClient == None && weakClient == None
    {
      strongModel := NameOr(strong, DefaultStrongModel);
      weakModel := NameOr(weak, DefaultWeakModel);
      contextLimit := DefaultContextLimit;
      strongClient := None;
      weakClient := None;
    }

    /**
     * `_init_client`: the cloud branches set the limit before looking for the
     * key file, so a missing key still leaves the new limit behind.
     */
    method InitClient(modelName: string, role: string, keys: KeyFiles) returns (r: Result<Endpoint>)
      modifies this`contextLimit
      ensures r == Route(modelName, role, keys)
      ensures contextLimit == LimitAfter(modelName, old(contextLimit))
    {
      if IsGemini(modelName) {
        contextLimit := GeminiContextLimit;
        if keys.gemini.None? {
          return Err(GeminiKeyMissing + modelName);
        }
        return Ok(Cloud(GeminiBaseUrl, keys.gemini.value));
      } else if IsGrok(modelName) {
        contextLimit := GrokContextLimit;
        if keys.grok.None? {
          return Err(GrokKeyMissing + modelName);
        }
        return Ok(Cloud(GrokBaseUrl, keys.grok.value));
      } else {
        var port := if role == "strong" then 8000 else 8001;
        return Ok(Local(port));
      }
    }

    /**
     * The client-building half of `__init__`: the strong client, then the
     * weak one; the first ValueError propagates, leaving behind whatever
     * limit the failing call had already set.
     */
    method Connect(keys: KeyFiles) returns (error: Option<string>)
      modifies this`contextLimit, this`strongClient, this`weakClient
      ensures error.Some? <==> Route(strongModel, "strong", keys).Err? || Route(weakModel, "weak", keys).Err?
      ensures error.None? ==> strongClient == Some(Route(strongModel, "strong", keys).value)
                              && weakClient == Some(Route(weakModel, "weak", keys).value)
                              && contextLimit == LimitAfter(weakModel, LimitAfter(strongModel, old(contextLimit)))
    {
      var sc := InitClient(strongModel, "strong", keys);
      if sc.Err? {
        return Some(sc.error);
      }
      strongClient := Some(sc.value);
      var wc := InitClient(weakModel, "weak", keys);
      if wc.Err? {
        return Some(wc.error);
      }
      weakClient := Some(wc.value);
      return None;
    }

    /** `__init__`: the model names and the initial limit, then both clients; the first ValueError propagates. */
    static method Create(strong: Option<string>, weak: Option<string>, keys: KeyFiles) returns (r: Result<LlmClient>)
      ensures r.Err? <==> Route(NameOr(strong, DefaultStrongModel), "strong", keys).Err?
                          || Route(NameOr(weak, DefaultWeakModel), "weak", keys).Err?
      ensures r.Ok? ==> fresh(r.value)
      ensures r.Ok? ==> r.value.strongModel == NameOr(strong, DefaultStrongModel)
                        && r.value.weakModel == NameOr(weak, DefaultWeakModel)
      ensures r.Ok? ==> r.value.strongClient == Some(Route(r.value.strongModel, "strong", keys).value)
                        && r.value.weakClient == Some(Route(r.value.weakModel, "weak", keys).value)
      ensures r.Ok? ==> r.value.contextLimit == ConstructedLimit(r.value.strongModel, r.value.weakModel)
    {
      var c := new LlmClient.Init(strong, weak);
      var e := c.Connect(keys);
      if e.Some? {
        return Err(e.value);
      }
      r := Ok(c);
    }

    /**
     * `get_plan` given the prompt's token estimate: the guard runs outside the
     * `try`; a failed call yields the dumped fallback keeping `currentPlan`.
     */
    function GetPlan(promptTokens: nat, currentPlan: string, reply: Reply,
                     thinkStrip: string -> string, dumps: Json -> string): (r: Result<string>)
      reads this
      ensures CheckContextSize(promptTokens, contextLimit, strongModel).Overflow? <==> r.Err?
      ensures r.Ok? && reply.Failure? ==> r.value == dumps(PlanFallback(reply.error, currentPlan))
      ensures r.Ok? && reply.Answer? ==>
                r.value == (if JsonMode(strongModel) then reply.content else CleanJson(reply.content, thinkStrip))
    {
      match CheckContextSize(promptTokens, contextLimit, strongModel)
      case Overflow(msg) => Err(msg)
      case _ =>
        match reply
        case Failure(e) => Ok(dumps(PlanFallback(e, currentPlan)))
        case Answer(raw) => Ok(if JsonMode(strongModel) then raw else CleanJson(raw, thinkStrip))
    }

    /** `get_action`: the guard on the weak model, then the (cleaned unless JSON mode) answer, or "". */
    function GetAction(promptTokens: nat, reply: Reply, thinkStrip: string -> string): (r: Result<string>)
      reads this
      ensures CheckContextSize(promptTokens, contextLimit, weakModel).Overflow? <==> r.Err?
      ensures r.Ok? && reply.Failure? ==> r.value == ""
      ensures r.Ok? && reply.Answer? ==>
                r.value == (if JsonMode(weakModel) then reply.content else CleanJson(reply.content, thinkStrip))
    {
      match CheckContextSize(promptTokens, contextLimit, weakModel)
      case Overflow(msg) => Err(msg)
      case _ =>
        match reply
        case Failure(_) => Ok("")
        case Answer(raw) => Ok(if JsonMode(weakModel) then raw else CleanJson(raw, thinkStrip))
    }

    /** `summarize_execution`: the guard, then the answer or an error sentence. */
    function SummarizeExecution(promptTokens: nat, reply: Reply): (r: Result<string>)
      reads this
      ensures CheckContextSize(promptTokens, contextLimit, weakModel).Overflow? <==> r.Err?
      ensures r.Ok? && reply.Answer? ==> r.value == reply.content
      ensures r.Ok? && reply.Failure? ==> r.value == "Error summarizing output: " + reply.error + "."
    {
      match CheckContextSize(promptTokens, contextLimit, weakModel)
      case Overflow(msg) => Err(msg)
      case _ =>
        match reply
        case Failure(e) => Ok("Error summarizing output: " + e + ".")
        case Answer(raw) => Ok(raw)
    }

    /** `analyze_interruption` (no guard): the decoded answer, or ADVICE carrying the user input. */
    function AnalyzeInterruption(userInput: string, reply: Reply, thinkStrip: string -> string,
                                 loads: string -> Result<Json>): (r: Json)
      reads this
      ensures reply.Failure? ==> r == IntentFallback(reply.error, userInput)
      ensures reply.Answer? ==>
                var text := if JsonMode(weakModel) then reply.content else CleanJson(reply.content, thinkStrip);
                r == match loads(text) case Ok(v) => v case Err(e) => IntentFallback(e, userInput)
    {
      match reply
      case Failure(e) => IntentFallback(e, userInput)
      case Answer(raw) =>
        var text := if JsonMode(weakModel) then raw else CleanJson(raw, thinkStrip);
        match loads(text)
        case Ok(v) => v
        case Err(e) => IntentFallback(e, userInput)
    }
  }
}
