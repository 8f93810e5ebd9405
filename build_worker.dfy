/**
 * The packaged copy of the execution loop (`build/lib/aeon/core/worker.py`):
 * a worker holding a plan, a working set of open files, a ten-entry history
 * ring and the last observation, and `run`, which alternates planner and
 * executor calls and runs each action chain in order.
 *
 * Every model call, tool and `input()` is an oracle: a run is driven by a
 * finite script of per-iteration `Step`s.
 */
module BuildWorker {
  import opened Wrappers
  import opened Text
  import opened JsonValue
  import opened Provider
  import opened History
  import opened Runtime

  const InitialPlan: string := "No plan formulated yet."
  const FreshObservation: string := "None."
  const StartedObservation: string := "Project started."
  const DefaultTerminal: seq<string> := ["task_complete"]
  const ChainLimit: nat := 15
  const VerbatimBelow: nat := 200

  /**
   * The answers of one iteration: `planner` is `get_plan` given the current
   * plan and last observation, `actor` is `get_action` given the plan and the
   * planner's suggestion (a `Failure` of either is an exception out of `run`),
   * `tool(i, name, params, files)` executes action `i`, `typed` is what a
   * `get_user_input` action reads, and `summarize(context, raw)` is
   * `summarize_execution`.
   */
  datatype Oracles = Oracles(
    planner: (string, string) -> Reply,
    actor: (string, string) -> Reply,
    tool: (nat, string, Json, map<string, string>) -> ToolRun,
    typed: Typed,
    summarize: (string, string) -> string)

  /** An iteration either is cut short by Ctrl+C as it begins, or runs on its oracles. */
  datatype Step = Interrupt | Pass(o: Oracles)

  /**
   * The parameter names of the LLM client's `get_plan` and `get_action`,
   * which `run` calls with keyword arguments only.
   */
  datatype ClientApi = ClientApi(planParams: seq<string>, actionParams: seq<string>)

  /** The client packaged beside this worker: both methods take only `prompt` and `max_retries`. */
  const PackagedClient := ClientApi(["prompt", "max_retries"], ["prompt", "max_retries"])

  /** A client with the keyword signatures `run` calls, as `aeon/core/llm.py` defines them. */
  const KeywordClient := ClientApi(["system_context", "user_objective", "history_str", "current_plan", "last_observation"],
                                   ["system_context", "plan", "suggestion", "open_files_context"])

  /** The keyword arguments of the planner and executor calls in `run`, in the order they are written. */
  const PlanKeywords: seq<string> := ["system_context", "user_objective", "history_str", "current_plan", "last_observation"]
  const ActionKeywords: seq<string> := ["system_context", "plan", "suggestion", "open_files_context"]

  /** The TypeError a call raises for a keyword its function does not take. */
  function KwargError(qualname: string, keyword: string): string {
    qualname + "() got an unexpected keyword argument '" + keyword + "'"
  }

  /** `kwargs[k]` is the first keyword that names no parameter. */
  predicate FirstUnexpectedAt(params: seq<string>, kwargs: seq<string>, k: int) {
    0 <= k < |kwargs| && kwargs[k] !in params && forall j :: 0 <= j < k ==> kwargs[j] in params
  }

  /**
   * Binding keyword arguments to a signature without `**kwargs`: the
   * TypeError for the first keyword that names no parameter, if any.
   */
  function UnexpectedKeyword(qualname: string, params: seq<string>, kwargs: seq<string>): (r: Option<string>)
    ensures r.None? <==> forall k :: 0 <= k < |kwargs| ==> kwargs[k] in params
    ensures r.Some? ==> exists k :: FirstUnexpectedAt(params, kwargs, k) && r.value == KwargError(qualname, kwargs[k])
  {
    if |kwargs| == 0 then None
    else if kwargs[0] !in params then
      assert FirstUnexpectedAt(params, kwargs, 0);
      Some(KwargError(qualname, kwargs[0]))
    else
      var r := UnexpectedKeyword(qualname, params, kwargs[1..]);
      assert r.Some? ==> exists k :: FirstUnexpectedAt(params, kwargs, k) && r.value == KwargError(qualname, kwargs[k]) by {
        if r.Some? {
          var k :| FirstUnexpectedAt(params, kwargs[1..], k) && r.value == KwargError(qualname, kwargs[1..][k]);
          forall j | 0 <= j < k + 1 ensures kwargs[j] in params {
            if j > 0 { assert kwargs[j] == kwargs[1..][j - 1]; }
          }
          assert FirstUnexpectedAt(params, kwargs, k + 1);
        }
      }
      assert r.None? ==> forall k :: 0 <= k < |kwargs| ==> kwargs[k] in params by {
        if r.None? {
          forall k | 0 <= k < |kwargs| ensures kwargs[k] in params {
            if k > 0 { assert kwargs[k] == kwargs[1..][k - 1]; }
          }
        }
      }
      r
  }

  /** What `run` works with besides the worker's state. */
  datatype Config = Config(tools: set<string>, terminal: seq<string>, maxIterations: Option<int>, codec: Codec, client: ClientApi)

  datatype State = State(plan: string, openFiles: map<string, string>, history: Ring, lastObservation: string)

  // ---------------------------------------------------------------- planner

  /**
   * The planner's turn: the new plan and the suggestion for the executor, or
   * the exception that escapes `run` (a transport error, a decoded value that
   * is not a dict, or an `updated_plan` that is not a string). In the last
   * case the source has already stored the non-string value as the current
   * plan when `split` raises; the plan here is a string, so the crashed
   * state keeps the old plan instead.
   */
  function ApplyPlan(plan: string, reply: Reply, codec: Codec): Result<(string, string)> {
    match reply
    case Failure(e) => Err(e)
    case Answer(text) =>
      match codec.loads(text)
      case Err(_) => Ok((plan, "Analyze previous error."))
      case Ok(v) =>
        if !v.JObj? then Err(NoGet(v))
        else
          var p := Get(v.fields, "updated_plan", JStr(plan));
          if p.JStr? then Ok((p.s, TextOf(codec, Get(v.fields, "next_step_suggestion", JStr("")))))
          else Err("'" + TypeName(p) + "' object has no attribute 'split'")
  }

  /** Undecodable planner output keeps the plan; a decoded dict without `updated_plan` keeps it too. */
  lemma {:induction false} PlanRules(plan: string, text: string, codec: Codec)
    ensures codec.loads(text).Err? ==> ApplyPlan(plan, Answer(text), codec) == Ok((plan, "Analyze previous error."))
    ensures (codec.loads(text).Ok? && codec.loads(text).value.JObj? && "updated_plan" !in codec.loads(text).value.fields)
            ==> ApplyPlan(plan, Answer(text), codec).Ok? && ApplyPlan(plan, Answer(text), codec).value.0 == plan
    ensures (codec.loads(text).Ok? && codec.loads(text).value.JObj? && "updated_plan" in codec.loads(text).value.fields)
            ==> (ApplyPlan(plan, Answer(text), codec).Ok?
                 <==> codec.loads(text).value.fields["updated_plan"].JStr?)
    ensures codec.loads(text).Ok? && !codec.loads(text).value.JObj? ==> ApplyPlan(plan, Answer(text), codec).Err?
  {
  }

  // ------------------------------------------------------ action normalising

  /** The fence stripping applied to the executor's text before decoding. */
  function StripFences(text: string): (r: string)
    ensures r == Strip(r)
  {
    var c0 := Strip(text);
    var c1 := if StartsWith(c0, "```json") then c0[7..] else c0;
    var c2 := if StartsWith(c1, "```") then c1[3..] else c1;
    var c3 := if EndsWith(c2, "```") then c2[..|c2| - 3] else c2;
    StripIdempotent(c3);
    Strip(c3)
  }

  /** The chain a decoded executor value stands for. */
  function ChainOf(v: Json): (r: seq<Json>)
    ensures v.JArr? ==> r == v.items
    ensures v.JObj? && "actions" in v.fields && v.fields["actions"].JArr? ==> r == v.fields["actions"].items
    ensures (v.JObj? && !("actions" in v.fields && v.fields["actions"].JArr?) && "tool_name" in v.fields) ==> r == [v]
    ensures (!v.JArr? && !v.JObj?) ==> r == []
    ensures (v.JObj? && !("actions" in v.fields && v.fields["actions"].JArr?) && "tool_name" !in v.fields) ==> r == []
  {
    match v
    case JArr(items) => items
    case JObj(f) =>
      if "actions" in f && f["actions"].JArr? then f["actions"].items
      else if "tool_name" in f then [v]
      else []
    case _ => []
  }

  /** The executor's text as a chain of actions, or the decoding error. */
  function ParseActions(text: string, codec: Codec): (r: Result<seq<Json>>)
    ensures r.Err? <==> codec.loads(StripFences(text)).Err?
    ensures r.Ok? ==> r.value == ChainOf(codec.loads(StripFences(text)).value)
  {
    match codec.loads(StripFences(text))
    case Err(e) => Err(e)
    case Ok(v) => Ok(ChainOf(v))
  }

  /** A fenced reply decodes the text between the fences. */
  lemma {:induction false} FencedReplyIsUnwrapped(body: string)
    requires body == Strip(body) && |body| > 0 && body[0] != '`' && body[|body| - 1] != '`'
    ensures StripFences("```json" + body + "```") == body
  {
    var t := "```json" + body + "```";
    FencedReplyEdges(body);
    var c1 := body + "```";
    assert !StartsWith(c1, "```") by {
      assert c1[0] == body[0];
    }
    ConcatAffixes(body, "```");
    assert c1[..|c1| - 3] == body;
  }

  /** The fenced reply is already stripped, begins with the opening fence and continues with the body and the closing fence. */
  lemma FencedReplyEdges(body: string)
    ensures var t := "```json" + body + "```";
      Strip(t) == t && StartsWith(t, "```json") && t[7..] == body + "```"
  {
    var t := "```json" + body + "```";
    assert t[0] == '`' && t[|t| - 1] == '`';
    StripNoEdgeSpace(t);
    ConcatAffixes("```json", body);
    StartsWithLonger("```json" + body, "```", "```json");
    assert t[7..] == body + "```";
  }

  // ------------------------------------------------------------ chain running

  /** One executed tool call: the action's index, the tool's name and the result text. */
  datatype Call = Call(index: nat, name: string, result: string)

  /** One piece of a chain's combined output. */
  datatype Part =
    | NotFound(position: nat, shown: string)
    | UserInput(text: string)
    | Output(position: nat, name: string, result: string)
  {
    /** The text the loop appends for this piece. */
    function Render(): string {
      match this
      case NotFound(p, shown) => "Action " + NatToString(p) + ": Tool '" + shown + "' not found."
      case UserInput(t) => "User Input: " + t
      case Output(p, n, r) => "Action " + NatToString(p) + " (" + n + "):\n" + r
    }
  }

  function RenderAll(parts: seq<Part>): (r: seq<string>)
    ensures |r| == |parts| && forall i :: 0 <= i < |parts| ==> r[i] == parts[i].Render()
  {
    if |parts| == 0 then [] else [parts[0].Render()] + RenderAll(parts[1..])
  }

  /** How a chain ended, with the calls made and the working set left behind. */
  datatype ChainEnd =
    | Finished(parts: seq<Part>, taken: seq<string>, calls: seq<Call>, files: map<string, string>)
    | Terminal(name: string, result: string, calls: seq<Call>, files: map<string, string>)
    | EofAtInput(calls: seq<Call>, files: map<string, string>)
    | CtrlCAtInput(calls: seq<Call>, files: map<string, string>)
    | ActionCrash(error: string, calls: seq<Call>, files: map<string, string>)

  function ToolName(a: Json): Json
    requires a.JObj?
  {
    Get(a.fields, "tool_name", JNull)
  }

  function Params(a: Json): Json
    requires a.JObj?
  {
    Get(a.fields, "parameters", EmptyObject)
  }

  /** The action's `allow_failure` flag, by Python truthiness. */
  predicate AllowsFailure(a: Json)
    requires a.JObj?
  {
    Truthy(Get(a.fields, "allow_failure", JBool(false)))
  }

  const FailedMark := "COMMAND FAILED"
  const ErrorMark := "Error:"

  /** A result the loop treats as a failure. */
  predicate FailureMarked(result: string) {
    Contains(result, FailedMark) || StartsWith(Strip(result), ErrorMark)
  }

  /** A result that begins with "COMMAND FAILED" is a failure. */
  lemma {:induction false} FailedMarkMarks(result: string)
    requires StartsWith(result, FailedMark)
    ensures FailureMarked(result)
  {
    ContainsPrefix(result, FailedMark);
  }

  /** A result that begins with "Error:" is a failure, whatever whitespace ends it. */
  lemma {:induction false} ErrorMarkMarks(result: string)
    requires StartsWith(result, ErrorMark)
    ensures FailureMarked(result)
  {
    assert !IsSpace(ErrorMark[0]) && !IsSpace(ErrorMark[|ErrorMark| - 1]);
    StripKeepsEdgedPrefix(result, ErrorMark);
  }

  /** The result text of a non-terminal tool call. */
  function ToolResult(run: ToolRun): string {
    match run
    case Done(t, _) => t
    case Threw(e, _) => "Tool Execution Error: " + e
  }

  /** The result text of a terminal tool call. */
  function TerminalResult(name: string, run: ToolRun): string {
    match run
    case Done(t, _) => t
    case Threw(e, _) => "Error executing terminal tool " + name + ": " + e
  }

  /** The chain loop from action `idx` on, with what the earlier actions produced. */
  function RunChain(cfg: Config, o: Oracles, actions: seq<Json>, idx: nat,
                    parts: seq<Part>, taken: seq<string>, calls: seq<Call>, files: map<string, string>): ChainEnd
    decreases |actions| - idx
  {
    if idx >= |actions| then Finished(parts, taken, calls, files)
    else
      var a := actions[idx];
      if !a.JObj? then ActionCrash(NoGet(a), calls, files)
      else
        var name := ToolName(a);
        if Truthy(name) && !Hashable(name) then ActionCrash(Unhashable(name), calls, files)
        else if !Registered(cfg.tools, name) then
          Finished(parts + [NotFound(idx + 1, TextOf(cfg.codec, name))], taken, calls, files)
        else
          var n := name.s;
          if n in cfg.terminal then
            var run := o.tool(idx, n, Params(a), files);
            Terminal(n, TerminalResult(n, run), calls + [Call(idx, n, TerminalResult(n, run))], run.files)
          else if n == "get_user_input" then
            if !Params(a).JObj? then ActionCrash(NoGet(Params(a)), calls, files)
            else
              match o.typed
              case Line(u) => Finished(parts + [UserInput(u)], taken + [n], calls, files)
              case EndOfInput => EofAtInput(calls, files)
              case CtrlC => CtrlCAtInput(calls, files)
          else
            var run := o.tool(idx, n, Params(a), files);
            var res := ToolResult(run);
            var parts' := parts + [Output(idx + 1, n, res)];
            var calls' := calls + [Call(idx, n, res)];
            if FailureMarked(res) && !AllowsFailure(a) then Finished(parts', taken + [n], calls', run.files)
            else RunChain(cfg, o, actions, idx + 1, parts', taken + [n], calls', run.files)
  }

  /** A call whose result stops the chain. */
  predicate HaltingCall(a: Json, c: Call) {
    a.JObj? && FailureMarked(c.result) && !AllowsFailure(a)
  }

  /** The calls made so far are actions 0, 1, ..., each registered and none halting. */
  predicate CallsInOrder(cfg: Config, actions: seq<Json>, calls: seq<Call>, upTo: nat) {
    upTo <= |calls| && |calls| <= |actions| &&
    (forall k :: 0 <= k < |calls| ==> calls[k].index == k) &&
    (forall k :: 0 <= k < |calls| ==> actions[k].JObj? && Registered(cfg.tools, ToolName(actions[k]))) &&
    (forall k :: 0 <= k < upTo ==> !HaltingCall(actions[k], calls[k]))
  }

  /** Appending a non-halting call of the next registered action keeps the calls in order. */
  lemma {:induction false} CallsGrow(cfg: Config, actions: seq<Json>, calls: seq<Call>, c: Call)
    requires CallsInOrder(cfg, actions, calls, |calls|) && |calls| < |actions|
    requires c.index == |calls| && actions[|calls|].JObj? && Registered(cfg.tools, ToolName(actions[|calls|]))
    requires !HaltingCall(actions[|calls|], c)
    ensures CallsInOrder(cfg, actions, calls + [c], |calls| + 1)
  {
    var calls' := calls + [c];
    forall k | 0 <= k < |calls'|
      ensures calls'[k].index == k && actions[k].JObj? && Registered(cfg.tools, ToolName(actions[k]))
      ensures !HaltingCall(actions[k], calls'[k])
    {
      if k < |calls| {
        assert calls'[k] == calls[k];
      }
    }
  }

  /** A call of the next registered action, halting or not, keeps all earlier calls in order. */
  lemma {:induction false} CallsLast(cfg: Config, actions: seq<Json>, calls: seq<Call>, c: Call)
    requires CallsInOrder(cfg, actions, calls, |calls|) && |calls| < |actions|
    requires c.index == |calls| && actions[|calls|].JObj? && Registered(cfg.tools, ToolName(actions[|calls|]))
    ensures CallsInOrder(cfg, actions, calls + [c], |calls|)
  {
    var calls' := calls + [c];
    forall k | 0 <= k < |calls'|
      ensures calls'[k].index == k && actions[k].JObj? && Registered(cfg.tools, ToolName(actions[k]))
    {
      if k < |calls| {
        assert calls'[k] == calls[k];
      }
    }
    forall k | 0 <= k < |calls|
      ensures !HaltingCall(actions[k], calls'[k])
    {
      assert calls'[k] == calls[k];
    }
  }

  lemma {:induction false} ChainOrderFrom(cfg: Config, o: Oracles, actions: seq<Json>, idx: nat,
                                          parts: seq<Part>, taken: seq<string>, calls: seq<Call>, files: map<string, string>)
    requires idx <= |actions| && |calls| == idx && CallsInOrder(cfg, actions, calls, idx)
    ensures var e := RunChain(cfg, o, actions, idx, parts, taken, calls, files);
            CallsInOrder(cfg, actions, e.calls, if |e.calls| == 0 then 0 else |e.calls| - 1)
    decreases |actions| - idx, 1
  {
    var e := RunChain(cfg, o, actions, idx, parts, taken, calls, files);
    if idx >= |actions| || !actions[idx].JObj? {
      assert e.calls == calls;
    } else {
      var a := actions[idx];
      var name := ToolName(a);
      if (Truthy(name) && !Hashable(name)) || !Registered(cfg.tools, name) {
        assert e.calls == calls;
      } else if name.s in cfg.terminal {
        var run := o.tool(idx, name.s, Params(a), files);
        assert e.calls == calls + [Call(idx, name.s, TerminalResult(name.s, run))];
        CallsLast(cfg, actions, calls, Call(idx, name.s, TerminalResult(name.s, run)));
      } else if name.s == "get_user_input" {
        assert e.calls == calls;
      } else {
        ChainOrderTool(cfg, o, actions, idx, parts, taken, calls, files);
      }
    }
  }

  /** The same, for an action that runs an ordinary tool. */
  lemma {:induction false} ChainOrderTool(cfg: Config, o: Oracles, actions: seq<Json>, idx: nat,
                                          parts: seq<Part>, taken: seq<string>, calls: seq<Call>, files: map<string, string>)
    requires idx < |actions| && |calls| == idx && CallsInOrder(cfg, actions, calls, idx)
    requires actions[idx].JObj? && Registered(cfg.tools, ToolName(actions[idx]))
    requires ToolName(actions[idx]).s !in cfg.terminal && ToolName(actions[idx]).s != "get_user_input"
    ensures var e := RunChain(cfg, o, actions, idx, parts, taken, calls, files);
            CallsInOrder(cfg, actions, e.calls, if |e.calls| == 0 then 0 else |e.calls| - 1)
    decreases |actions| - idx, 0
  {
    var e := RunChain(cfg, o, actions, idx, parts, taken, calls, files);
    var a := actions[idx];
    var n := ToolName(a).s;
    var run := o.tool(idx, n, Params(a), files);
    var res := ToolResult(run);
    var calls' := calls + [Call(idx, n, res)];
    if FailureMarked(res) && !AllowsFailure(a) {
      assert e.calls == calls';
      CallsLast(cfg, actions, calls, Call(idx, n, res));
    } else {
      assert e == RunChain(cfg, o, actions, idx + 1, parts + [Output(idx + 1, n, res)], taken + [n], calls', run.files);
      CallsGrow(cfg, actions, calls, Call(idx, n, res));
      ChainOrderFrom(cfg, o, actions, idx + 1, parts + [Output(idx + 1, n, res)], taken + [n], calls', run.files);
    }
  }

  /**
   * The chain runs its actions in order, each at most once, every call before
   * the last one was neither halting nor unregistered, and an action naming an
   * unregistered tool is reached by no call: nothing at or after it runs.
   */
  lemma {:induction false} ChainHalts(cfg: Config, o: Oracles, actions: seq<Json>, files: map<string, string>)
    ensures var e := RunChain(cfg, o, actions, 0, [], [], [], files);
            |e.calls| <= |actions| &&
            (forall k :: 0 <= k < |e.calls| ==> e.calls[k].index == k) &&
            (forall k :: 0 <= k < |e.calls| - 1 ==> !HaltingCall(actions[k], e.calls[k])) &&
            (forall i :: 0 <= i < |actions| && actions[i].JObj? && !Registered(cfg.tools, ToolName(actions[i]))
                ==> forall k :: 0 <= k < |e.calls| ==> e.calls[k].index < i)
  {
    ChainOrderFrom(cfg, o, actions, 0, [], [], [], files);
  }

  // ---------------------------------------------------------------- summary

  /** The `run_command` exception to the verbatim rule looks at the first action's name. */
  predicate FirstIsRunCommand(actions: seq<Json>) {
    |actions| > 0 && actions[0].JObj? && ToolName(actions[0]) == JStr("run_command")
  }

  /** The observation a finished chain leaves. */
  function ChainSummary(parts: seq<Part>, taken: seq<string>, actions: seq<Json>,
                        summarize: (string, string) -> string): string {
    if |parts| == 0 then "No actions executed."
    else
      var raw := Join("\n\n", RenderAll(parts));
      if |raw| < VerbatimBelow && |actions| == 1 && !FirstIsRunCommand(actions) then raw
      else summarize("Chain: " + Join(", ", taken), raw)
  }

  /**
   * A lone action other than `run_command` whose output is under 200
   * characters is its own summary; every other non-empty output goes to the
   * summariser, with the taken tools as context.
   */
  lemma {:induction false} SummaryRule(parts: seq<Part>, taken: seq<string>, actions: seq<Json>, summarize: (string, string) -> string)
    requires |parts| > 0
    ensures (|Join("\n\n", RenderAll(parts))| < VerbatimBelow && |actions| == 1 && !FirstIsRunCommand(actions))
            ==> ChainSummary(parts, taken, actions, summarize) == Join("\n\n", RenderAll(parts))
    ensures !(|Join("\n\n", RenderAll(parts))| < VerbatimBelow && |actions| == 1 && !FirstIsRunCommand(actions))
            ==> ChainSummary(parts, taken, actions, summarize) == summarize("Chain: " + Join(", ", taken), Join("\n\n", RenderAll(parts)))
  {
  }

  // -------------------------------------------------------------- iteration

  /** The text that replaces the last observation at the iteration ceiling. */
  function Alert(limit: int, terminal: seq<string>): string {
    "SYSTEM ALERT: Max iterations (" + IntToString(limit) + ") reached. You have ONE final step. "
    + "You MUST use a terminal tool (" + Join(", ", terminal) + ") NOW to report your findings (even if incomplete)."
  }

  /** How an exception, a return or a break ends `run`. */
  datatype RunEnd = Completed | InputClosed | Paused | GaveUp | Crashed(error: string) | ScriptExhausted

  /**
   * One pass of the loop body: the state it leaves, the end of the run if it
   * ends it, the forced-report flag, and whether the planner was consulted.
   */
  datatype Turn = Turn(state: State, stop: Option<RunEnd>, graceful: bool, consulted: bool)

  /**
   * The ceiling check at the head of iteration `it`: `None` when the run gives
   * up, otherwise the (possibly alerted) state and the new flag.
   */
  function Ceiling(cfg: Config, st: State, it: int, graceful: bool): (r: Option<(State, bool)>)
    ensures r.Some? ==> r.value.0 == st.(lastObservation := r.value.0.lastObservation)
  {
    if cfg.maxIterations.Some? && it > cfg.maxIterations.value then
      if graceful then None
      else Some((st.(lastObservation := Alert(cfg.maxIterations.value, cfg.terminal)), true))
    else Some((st, graceful))
  }

  /** The history entry a finished chain of `n` actions appends. */
  function ChainEntry(it: int, n: nat, summary: string): Entry {
    Entry(it, "Chain: " + NatToString(n) + " tools", summary)
  }

  /** What a chain's end does to the state (whose working set the chain already updated). */
  function AfterChain(st: State, it: int, actions: seq<Json>, e: ChainEnd, summarize: (string, string) -> string)
    : (r: (State, Option<RunEnd>))
    ensures r.0.openFiles == st.openFiles && r.0.plan == st.plan
    ensures r.1 != Some(GaveUp) && r.1 != Some(ScriptExhausted)
  {
    match e
    case ActionCrash(err, _, _) => (st, Some(Crashed(err)))
    case EofAtInput(_, _) => (st, Some(InputClosed))
    case CtrlCAtInput(_, _) => (st, Some(Paused))
    case Terminal(n, res, _, _) => (st.(history := Push(st.history, Entry(it, n, res))), Some(Completed))
    case Finished(parts, taken, _, _) =>
      var summary := ChainSummary(parts, taken, actions, summarize);
      (st.(lastObservation := summary, history := Push(st.history, ChainEntry(it, |actions|, summary))), None)
  }

  /** The executor's turn, after the planner, given the planner's suggestion. */
  function Act(cfg: Config, st: State, it: int, o: Oracles, suggestion: string): (r: (State, Option<RunEnd>))
    ensures r.0.plan == st.plan
    ensures r.1 != Some(GaveUp) && r.1 != Some(ScriptExhausted)
  {
    match o.actor(st.plan, suggestion)
    case Failure(e) => (st, Some(Crashed(e)))
    case Answer(text) =>
      match ParseActions(text, cfg.codec)
      case Err(e) =>
        var obs := "Error parsing action: " + e;
        (st.(lastObservation := obs, history := Push(st.history, Entry(it, "Parse Error", obs))), None)
      case Ok(chain) =>
        if |chain| == 0 then (st, None)
        else
          var actions := Take(chain, ChainLimit);
          var e := RunChain(cfg, o, actions, 0, [], [], [], st.openFiles);
          AfterChain(st.(openFiles := e.files), it, actions, e, o.summarize)
  }

  /**
   * Iteration `it` once past the ceiling check: the planner call, its
   * reply, the executor call, the chain and the summariser. A keyword the
   * client's method does not take raises its TypeError out of `run`.
   */
  function Work(cfg: Config, st: State, it: int, o: Oracles): (r: (State, Option<RunEnd>))
    ensures r.1 != Some(GaveUp) && r.1 != Some(ScriptExhausted)
  {
    match UnexpectedKeyword("LLMClient.get_plan", cfg.client.planParams, PlanKeywords)
    case Some(e) => (st, Some(Crashed(e)))
    case None =>
      match ApplyPlan(st.plan, o.planner(st.plan, st.lastObservation), cfg.codec)
      case Err(e) => (st, Some(Crashed(e)))
      case Ok(ps) =>
        match UnexpectedKeyword("LLMClient.get_action", cfg.client.actionParams, ActionKeywords)
        case Some(e) => (st.(plan := ps.0), Some(Crashed(e)))
        case None => Act(cfg, st.(plan := ps.0), it, o, ps.1)
  }

  /** With the keyword signatures, both calls bind, and the iteration is the planner's and executor's work. */
  lemma {:induction false} KeywordClientConsults(cfg: Config, st: State, it: int, o: Oracles)
    requires cfg.client == KeywordClient
    ensures Work(cfg, st, it, o) == match ApplyPlan(st.plan, o.planner(st.plan, st.lastObservation), cfg.codec)
      case Err(e) => (st, Some(Crashed(e)))
      case Ok(ps) => Act(cfg, st.(plan := ps.0), it, o, ps.1)
  {
    assert UnexpectedKeyword("LLMClient.get_plan", cfg.client.planParams, PlanKeywords).None?;
    assert UnexpectedKeyword("LLMClient.get_action", cfg.client.actionParams, ActionKeywords).None?;
  }

  /** The TypeError the packaged client raises at the planner call. */
  const PlanKwargError := KwargError("LLMClient.get_plan", "system_context")

  /** With the packaged client, the planner call raises before any model is asked, and nothing changes. */
  lemma {:induction false} PackagedClientRaises(cfg: Config, st: State, it: int, o: Oracles)
    requires cfg.client == PackagedClient
    ensures Work(cfg, st, it, o) == (st, Some(Crashed(PlanKwargError)))
  {
    assert PlanKeywords[0] == "system_context" && "system_context" !in PackagedClient.planParams;
  }

  /** One pass of the `while True` body for iteration `it`. */
  function Iterate(cfg: Config, st: State, it: int, graceful: bool, step: Step): Turn {
    if step.Interrupt? then Turn(st, Some(Paused), graceful, false)
    else
      match Ceiling(cfg, st, it, graceful)
      case None => Turn(st, Some(GaveUp), graceful, false)
      case Some(cg) =>
        var w := Work(cfg, cg.0, it, step.o);
        Turn(w.0, w.1, cg.1, true)
  }

  /** An iteration that is not interrupted and under the ceiling is the planner's work on the ceiling's state. */
  lemma {:induction false} IterateWorks(cfg: Config, st: State, it: int, graceful: bool, step: Step)
    requires !step.Interrupt? && Ceiling(cfg, st, it, graceful).Some?
    ensures var cg := Ceiling(cfg, st, it, graceful).value;
      Iterate(cfg, st, it, graceful, step) == Turn(Work(cfg, cg.0, it, step.o).0, Work(cfg, cg.0, it, step.o).1, cg.1, true)
  {
  }

  // -------------------------------------------------------------------- run

  /** The end of a run, the state it leaves and how many iterations consulted the planner. */
  datatype RunResult = RunResult(end: RunEnd, state: State, consulted: nat)

  /** The loop from after iteration `it` on, over the remaining script. */
  function RunFrom(cfg: Config, st: State, it: int, graceful: bool, script: seq<Step>): RunResult
    decreases |script|
  {
    if |script| == 0 then RunResult(ScriptExhausted, st, 0)
    else
      var t := Iterate(cfg, st, it + 1, graceful, script[0]);
      var c := if t.consulted then 1 else 0;
      match t.stop
      case Some(e) => RunResult(e, t.state, c)
      case None =>
        var r := RunFrom(cfg, t.state, it + 1, t.graceful, script[1..]);
        RunResult(r.end, r.state, r.consulted + c)
  }

  /** `run`: a fresh worker's observation becomes "Project started.", then the loop from iteration 0. */
  function RunSpec(cfg: Config, st: State, script: seq<Step>): RunResult {
    var st0 := if st.lastObservation == FreshObservation then st.(lastObservation := StartedObservation) else st;
    RunFrom(cfg, st0, 0, false, script)
  }

  /**
   * With the packaged client, a run never gets past its first planner call:
   * it ends there with the TypeError, or is interrupted or out of script
   * before it; at most one iteration is counted, and the plan, the working
   * set and the history are never changed.
   */
  lemma {:induction false} PackagedRunCrashes(cfg: Config, st: State, script: seq<Step>)
    requires cfg.client == PackagedClient
    ensures var r := RunSpec(cfg, st, script);
      r.consulted <= 1
      && (r.end == Crashed(PlanKwargError) || r.end == Paused || r.end == ScriptExhausted)
      && (|script| > 0 && script[0].Pass? ==> r.end == Crashed(PlanKwargError) && r.consulted == 1)
      && r.state.plan == st.plan && r.state.openFiles == st.openFiles && r.state.history == st.history
  {
    var st0 := if st.lastObservation == FreshObservation then st.(lastObservation := StartedObservation) else st;
    if |script| > 0 && script[0].Pass? {
      var cg := Ceiling(cfg, st0, 1, false);
      assert cg.Some?;
      PackagedClientRaises(cfg, cg.value.0, 1, script[0].o);
      IterateWorks(cfg, st0, 0 + 1, false, script[0]);
    }
  }

  /** The terminal-tool list `run` uses. */
  function TerminalList(terminalTools: Option<seq<string>>): (r: seq<string>)
    ensures terminalTools.None? ==> r == ["task_complete"]
    ensures terminalTools.Some? ==> r == terminalTools.value
  {
    terminalTools.GetOr(DefaultTerminal)
  }

  /** At most `M - it + 1` further iterations reach the planner, none once the report was forced. */
  lemma {:induction false} CeilingFrom(cfg: Config, st: State, it: int, graceful: bool, script: seq<Step>)
    requires cfg.maxIterations.Some?
    requires graceful ==> it >= cfg.maxIterations.value + 1
    ensures RunFrom(cfg, st, it, graceful, script).consulted
            <= if graceful then 0 else MaxOf0(cfg.maxIterations.value - it) + 1
    decreases |script|
  {
    if |script| > 0 {
      var t := Iterate(cfg, st, it + 1, graceful, script[0]);
      if t.stop.None? {
        CeilingFrom(cfg, t.state, it + 1, t.graceful, script[1..]);
      }
    }
  }

  /** With `max_iterations` = M, at most M + 1 iterations consult the planner. */
  lemma {:induction false} CeilingBound(cfg: Config, st: State, script: seq<Step>)
    requires cfg.maxIterations.Some?
    ensures RunSpec(cfg, st, script).consulted <= MaxOf0(cfg.maxIterations.value) + 1
  {
    var st0 := if st.lastObservation == FreshObservation then st.(lastObservation := StartedObservation) else st;
    CeilingFrom(cfg, st0, 0, false, script);
  }

  /** Without `max_iterations` the run never gives up. */
  lemma {:induction false} NoCeilingFrom(cfg: Config, st: State, it: int, graceful: bool, script: seq<Step>)
    requires cfg.maxIterations.None?
    ensures RunFrom(cfg, st, it, graceful, script).end != GaveUp
    decreases |script|
  {
    if |script| > 0 {
      var t := Iterate(cfg, st, it + 1, graceful, script[0]);
      if t.stop.None? {
        NoCeilingFrom(cfg, t.state, it + 1, t.graceful, script[1..]);
      }
    }
  }

  /**
   * The first iteration past the ceiling overwrites the observation with the
   * alert, which the planner then sees, and carries on; the next one gives up.
   */
  lemma {:induction false} CeilingAlerts(cfg: Config, st: State, it: int, o: Oracles)
    requires cfg.maxIterations.Some? && it > cfg.maxIterations.value
    ensures Ceiling(cfg, st, it, false) == Some((st.(lastObservation := Alert(cfg.maxIterations.value, cfg.terminal)), true))
    ensures Iterate(cfg, st, it, false, Pass(o)).consulted
    ensures Iterate(cfg, st, it + 1, true, Pass(o)).stop == Some(GaveUp)
    ensures Iterate(cfg, st, it + 1, true, Pass(o)).state == st
  {
  }

  /** An undecodable executor reply records one "Parse Error" entry, runs nothing, and the loop goes on. */
  lemma {:induction false} ParseErrorRecorded(cfg: Config, st: State, it: int, o: Oracles, suggestion: string, text: string)
    requires o.actor(st.plan, suggestion) == Answer(text) && ParseActions(text, cfg.codec).Err?
    ensures var w := Act(cfg, st, it, o, suggestion);
            var obs := "Error parsing action: " + ParseActions(text, cfg.codec).error;
            w == (st.(lastObservation := obs, history := Push(st.history, Entry(it, "Parse Error", obs))), None)
  {
  }

  /**
   * An empty chain ends the iteration with no history entry; a non-empty one
   * is cut to at most 15 actions, and a chain that finishes appends exactly
   * one entry, which reports that count, with the summary as observation.
   */
  lemma {:induction false} ChainAccounting(cfg: Config, st: State, it: int, o: Oracles, suggestion: string, text: string)
    requires o.actor(st.plan, suggestion) == Answer(text) && ParseActions(text, cfg.codec).Ok?
    ensures var chain := ParseActions(text, cfg.codec).value;
            var w := Act(cfg, st, it, o, suggestion);
            (|chain| == 0 ==> w == (st, None)) &&
            (|chain| > 0 ==>
              var actions := Take(chain, ChainLimit);
              var e := RunChain(cfg, o, actions, 0, [], [], [], st.openFiles);
              1 <= |actions| <= ChainLimit && actions == chain[..|actions|] &&
              w.0.openFiles == e.files && w.0.plan == st.plan &&
              (e.Finished? ==>
                var summary := ChainSummary(e.parts, e.taken, actions, o.summarize);
                w.1.None? && w.0.lastObservation == summary &&
                w.0.history == Push(st.history, Entry(it, "Chain: " + NatToString(|actions|) + " tools", summary))))
  {
    var chain := ParseActions(text, cfg.codec).value;
    if |chain| > 0 {
      var actions := Take(chain, ChainLimit);
      var e := RunChain(cfg, o, actions, 0, [], [], [], st.openFiles);
      var w := Act(cfg, st, it, o, suggestion);
      assert w == AfterChain(st.(openFiles := e.files), it, actions, e, o.summarize);
    }
  }

  /**
   * A terminal tool ends the run as Completed with one entry whose action is
   * the tool's name and whose summary is its result; it was the chain's last call.
   */
  lemma {:induction false} TerminalEndsRun(cfg: Config, st: State, it: int, o: Oracles, actions: seq<Json>)
    requires RunChain(cfg, o, actions, 0, [], [], [], st.openFiles).Terminal?
    ensures var e := RunChain(cfg, o, actions, 0, [], [], [], st.openFiles);
            var w := AfterChain(st.(openFiles := e.files), it, actions, e, o.summarize);
            w.1 == Some(Completed) && e.name in cfg.terminal && e.name in cfg.tools &&
            w.0.history == Push(st.history, Entry(it, e.name, e.result)) &&
            |e.calls| > 0 && e.calls[|e.calls| - 1].name == e.name
  {
    var e := RunChain(cfg, o, actions, 0, [], [], [], st.openFiles);
    TerminalFrom(cfg, o, actions, 0, [], [], [], st.openFiles);
    TerminalRecorded(st.(openFiles := e.files), it, actions, e, o.summarize);
  }

  /** After a terminal tool, one entry names the tool and holds its result, and the run completes. */
  lemma {:induction false} TerminalRecorded(st: State, it: int, actions: seq<Json>, e: ChainEnd, summarize: (string, string) -> string)
    requires e.Terminal?
    ensures AfterChain(st, it, actions, e, summarize) == (st.(history := Push(st.history, Entry(it, e.name, e.result))), Some(Completed))
  {
  }

  lemma {:induction false} TerminalFrom(cfg: Config, o: Oracles, actions: seq<Json>, idx: nat,
                                        parts: seq<Part>, taken: seq<string>, calls: seq<Call>, files: map<string, string>)
    ensures var e := RunChain(cfg, o, actions, idx, parts, taken, calls, files);
            e.Terminal? ==> e.name in cfg.terminal && e.name in cfg.tools && |e.calls| > 0 && e.calls[|e.calls| - 1].name == e.name
    decreases |actions| - idx
  {
    if idx < |actions| && actions[idx].JObj? {
      var a := actions[idx];
      var name := ToolName(a);
      if !(Truthy(name) && !Hashable(name)) && Registered(cfg.tools, name) && name.s !in cfg.terminal && name.s != "get_user_input" {
        var run := o.tool(idx, name.s, Params(a), files);
        var res := ToolResult(run);
        TerminalFrom(cfg, o, actions, idx + 1,
                     parts + [Output(idx + 1, name.s, res)],
                     taken + [name.s], calls + [Call(idx, name.s, res)], run.files);
      }
    }
  }

  /** A line typed at `get_user_input` ends the chain, not the run. */
  lemma {:induction false} UserInputEndsChain(cfg: Config, o: Oracles, actions: seq<Json>, idx: nat,
                           parts: seq<Part>, taken: seq<string>, calls: seq<Call>, files: map<string, string>)
    requires idx < |actions| && actions[idx].JObj? && ToolName(actions[idx]) == JStr("get_user_input")
    requires "get_user_input" in cfg.tools && "get_user_input" !in cfg.terminal
    requires Params(actions[idx]).JObj? && o.typed.Line?
    ensures RunChain(cfg, o, actions, idx, parts, taken, calls, files)
            == Finished(parts + [UserInput(o.typed.text)], taken + ["get_user_input"], calls, files)
  {
  }

  // ---------------------------------------------------------------- the worker

  class Worker {
    const client: ClientApi
    var tools: set<string>
    var plan: string
    var openFiles: map<string, string>
    var history: Ring
    var lastObservation: string

    function Snapshot(): State
      reads this
    {
      State(plan, openFiles, history, lastObservation)
    }

    /** `Worker(llm_client, tools)`: the client's signatures are kept, and the tools registered under their names. */
    constructor (client: ClientApi, toolNames: seq<string>)
      ensures this.client == client
      ensures tools == set n | n in toolNames
      ensures Snapshot() == State(InitialPlan, map[], [], FreshObservation)
    {
      this.client := client;
      tools := set n | n in toolNames;
      plan := InitialPlan;
      openFiles := map[];
      history := [];
      lastObservation := FreshObservation;
    }

    method RegisterTools(toolNames: seq<string>)
      modifies this`tools
      ensures tools == old(tools) + set n | n in toolNames
    {
      var i := 0;
      while i < |toolNames|
        invariant 0 <= i <= |toolNames|
        invariant tools == old(tools) + set n | n in toolNames[..i]
      {
        assert toolNames[..i + 1] == toolNames[..i] + [toolNames[i]];
        tools := tools + {toolNames[i]};
        i := i + 1;
      }
      assert toolNames[..i] == toolNames;
    }

    method UpdateOpenFile(path: string, content: string)
      modifies this`openFiles
      ensures openFiles == old(openFiles)[path := content]
    {
      openFiles := openFiles[path := content];
    }

    /** Closes `path` if it is open; otherwise nothing changes. */
    method CloseFile(path: string) returns (closed: bool)
      modifies this`openFiles
      ensures closed <==> path in old(openFiles)
      ensures openFiles == old(openFiles) - {path}
      ensures !closed ==> openFiles == old(openFiles)
    {
      if path in openFiles {
        openFiles := openFiles - {path};
        return true;
      }
      return false;
    }

    method IsFileOpen(path: string) returns (r: bool)
      ensures r <==> path in openFiles
    {
      r := path in openFiles;
    }

    /** The chain loop; the tools change the working set in place. */
    method ExecuteChain(cfg: Config, o: Oracles, actions: seq<Json>) returns (e: ChainEnd)
      modifies this`openFiles
      ensures e == RunChain(cfg, o, actions, 0, [], [], [], old(openFiles))
      ensures openFiles == e.files
    {
      var parts: seq<Part> := [];
      var taken: seq<string> := [];
      var calls: seq<Call> := [];
      var idx := 0;
      while idx < |actions|
        invariant 0 <= idx <= |actions|
        invariant RunChain(cfg, o, actions, 0, [], [], [], old(openFiles))
                  == RunChain(cfg, o, actions, idx, parts, taken, calls, openFiles)
        decreases |actions| - idx
      {
        var a := actions[idx];
        if !a.JObj? {
          return ActionCrash(NoGet(a), calls, openFiles);
        }
        var name := ToolName(a);
        var params := Params(a);
        if Truthy(name) && !Hashable(name) {
          return ActionCrash(Unhashable(name), calls, openFiles);
        }
        if !Registered(cfg.tools, name) {
          parts := parts + [NotFound(idx + 1, TextOf(cfg.codec, name))];
          return Finished(parts, taken, calls, openFiles);
        }
        var n := name.s;
        if n in cfg.terminal {
          var run := o.tool(idx, n, params, openFiles);
          openFiles := run.files;
          var res := TerminalResult(n, run);
          return Terminal(n, res, calls + [Call(idx, n, res)], openFiles);
        } else if n == "get_user_input" {
          if !params.JObj? {
            return ActionCrash(NoGet(params), calls, openFiles);
          }
          match o.typed
          case Line(u) =>
            parts := parts + [UserInput(u)];
            taken := taken + [n];
            return Finished(parts, taken, calls, openFiles);
          case EndOfInput =>
            return EofAtInput(calls, openFiles);
          case CtrlC =>
            return CtrlCAtInput(calls, openFiles);
        } else {
          var run := o.tool(idx, n, params, openFiles);
          openFiles := run.files;
          var res := ToolResult(run);
          parts := parts + [Output(idx + 1, n, res)];
          taken := taken + [n];
          calls := calls + [Call(idx, n, res)];
          if FailureMarked(res) && !AllowsFailure(a) {
            return Finished(parts, taken, calls, openFiles);
          }
        }
        idx := idx + 1;
      }
      return Finished(parts, taken, calls, openFiles);
    }

    /** One pass of the loop body past the ceiling check. */
    method DoWork(cfg: Config, it: int, o: Oracles) returns (stop: Option<RunEnd>)
      modifies this`plan, this`openFiles, this`history, this`lastObservation
      ensures Work(cfg, old(Snapshot()), it, o) == (Snapshot(), stop)
    {
      var planCall := UnexpectedKeyword("LLMClient.get_plan", cfg.client.planParams, PlanKeywords);
      if planCall.Some? {
        return Some(Crashed(planCall.value));
      }
      match ApplyPlan(plan, o.planner(plan, lastObservation), cfg.codec)
      case Err(err) =>
        return Some(Crashed(err));
      case Ok(ps) =>
        plan := ps.0;
        var actionCall := UnexpectedKeyword("LLMClient.get_action", cfg.client.actionParams, ActionKeywords);
        if actionCall.Some? {
          return Some(Crashed(actionCall.value));
        }
        match o.actor(plan, ps.1)
        case Failure(err) =>
          return Some(Crashed(err));
        case Answer(text) =>
          match ParseActions(text, cfg.codec)
          case Err(err) =>
            lastObservation := "Error parsing action: " + err;
            history := Push(history, Entry(it, "Parse Error", lastObservation));
            return None;
          case Ok(chain) =>
            if |chain| == 0 {
              return None;
            }
            var actions := Take(chain, ChainLimit);
            var e := ExecuteChain(cfg, o, actions);
            match e
            case ActionCrash(err, _, _) =>
              return Some(Crashed(err));
            case EofAtInput(_, _) =>
              return Some(InputClosed);
            case CtrlCAtInput(_, _) =>
              return Some(Paused);
            case Terminal(n, res, _, _) =>
              history := Push(history, Entry(it, n, res));
              return Some(Completed);
            case Finished(parts, taken, _, _) =>
              var summary := ChainSummary(parts, taken, actions, o.summarize);
              lastObservation := summary;
              history := Push(history, ChainEntry(it, |actions|, summary));
              return None;
    }

    /**
     * `run(objective, max_iterations, terminal_tools=...)` over a script of
     * iterations; the objective only reaches the prompts.
     */
    method Run(maxIterations: Option<int>, terminalTools: Option<seq<string>>, codec: Codec, script: seq<Step>)
      returns (end: RunEnd, consulted: nat)
      modifies this`plan, this`openFiles, this`history, this`lastObservation
      ensures RunResult(end, Snapshot(), consulted)
              == RunSpec(Config(tools, TerminalList(terminalTools), maxIterations, codec, client), old(Snapshot()), script)
    {
      var cfg := Config(tools, TerminalList(terminalTools), maxIterations, codec, client);
      if lastObservation == FreshObservation {
        lastObservation := StartedObservation;
      }
      ghost var goal := RunFrom(cfg, Snapshot(), 0, false, script);
      var iteration := 0;
      var graceful := false;
      var rest := script;
      consulted := 0;
      while |rest| > 0
        invariant goal == RunResult(RunFrom(cfg, Snapshot(), iteration, graceful, rest).end,
                                    RunFrom(cfg, Snapshot(), iteration, graceful, rest).state,
                                    RunFrom(cfg, Snapshot(), iteration, graceful, rest).consulted + consulted)
        decreases |rest|
      {
        ghost var before := Snapshot();
        ghost var wasGraceful := graceful;
        iteration := iteration + 1;
        if rest[0].Interrupt? {
          return Paused, consulted;
        }
        var cg := Ceiling(cfg, Snapshot(), iteration, graceful);
        if cg.None? {
          return GaveUp, consulted;
        }
        lastObservation := cg.value.0.lastObservation;
        graceful := cg.value.1;
        var stop := DoWork(cfg, iteration, rest[0].o);
        consulted := consulted + 1;
        IterateWorks(cfg, before, iteration, wasGraceful, rest[0]);
        if stop.Some? {
          return stop.value, consulted;
        }
        rest := rest[1..];
      }
      return ScriptExhausted, consulted;
    }
  }
}
