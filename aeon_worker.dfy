/**
 * The older copy of the execution loop (`aeon/core/worker.py`): one action
 * per iteration, with the user able to step in after `task_complete` or by
 * Ctrl+C. What the user types is classified as a new task, a modified
 * objective or advice, and each moves the worker to a different state.
 *
 * Model calls, tools and `input()` are oracles: a run is driven by a finite
 * script of per-iteration `Step`s.
 */
module AeonWorker {
  import opened Wrappers
  import opened Text
  import opened JsonValue
  import opened History
  import opened Runtime

  const InitialPlan: string := "No plan formulated yet."
  const ResetPlan: string := "Initial state. Need to formulate a plan."
  const FreshObservation: string := "None."
  const StartedObservation: string := "Project started."
  const VerbatimBelow: nat := 200

  /**
   * The answers of one iteration: `planner(objective, plan, observation)` is
   * `get_plan`, `actor(plan, suggestion)` is `get_action`, `tool` executes the
   * action, `typed` is what the iteration's `input()` reads (after
   * `task_complete` or at `get_user_input`), `pauseTyped` is the answer at the
   * pause prompt if that `input()` was interrupted, `classify(objective, text)`
   * is `analyze_interruption` and `summarize(context, raw)` is
   * `summarize_execution`.
   */
  datatype Oracles = Oracles(
    planner: (string, string, string) -> string,
    actor: (string, string) -> string,
    tool: (string, Json, map<string, string>) -> ToolRun,
    typed: Typed,
    pauseTyped: Typed,
    classify: (string, string) -> Json,
    summarize: (string, string) -> string)

  /**
   * An iteration is either interrupted by Ctrl+C before it reaches a prompt,
   * leaving the pause prompt's answer and the classifier, or runs on its oracles.
   */
  datatype Step = Interrupt(answer: Typed, classify: (string, string) -> Json) | Pass(o: Oracles)

  datatype Config = Config(tools: set<string>, codec: Codec)

  /** The worker's fields together with `run`'s local `objective`. */
  datatype State = State(objective: string, plan: string, openFiles: map<string, string>,
                         history: Ring, lastObservation: string)

  /** `_reset_state(initial_observation)`. */
  function Reset(st: State, observation: string): (r: State)
    ensures r.objective == st.objective && r.plan == ResetPlan && r.openFiles == map[]
    ensures r.history == [] && r.lastObservation == observation
  {
    st.(plan := ResetPlan, openFiles := map[], history := [], lastObservation := observation)
  }

  // ---------------------------------------------------------------- planner

  /**
   * The planner's turn: the new plan and the suggestion, or the exception out
   * of `run`. A list-valued `updated_plan` is kept as the text it interpolates
   * as. A dict fails the `[:150]` slice as an unhashable key (Python 3.6 to
   * 3.11); any other non-string is not subscriptable.
   */
  function ApplyPlan(plan: string, text: string, codec: Codec): Result<(string, string)> {
    match codec.loads(text)
    case Err(_) => Ok((plan, "Analyze the previous error and retry."))
    case Ok(v) =>
      if !v.JObj? then Err(NoGet(v))
      else
        var p := Get(v.fields, "updated_plan", JStr(plan));
        if p.JStr? || p.JArr? then Ok((TextOf(codec, p), TextOf(codec, Get(v.fields, "next_step_suggestion", JStr("")))))
        else if p.JObj? then Err(SliceKeyError)
        else Err("'" + TypeName(p) + "' object is not subscriptable")
  }

  /** Slicing a dict looks the slice up as a key. */
  const SliceKeyError := "unhashable type: 'slice'"

  /** Which `updated_plan` values end the run, and with which exception. */
  lemma {:induction false} PlanSliceFails(plan: string, fields: map<string, Json>, text: string, codec: Codec)
    requires codec.loads(text) == Ok(JObj(fields)) && "updated_plan" in fields
    ensures ApplyPlan(plan, text, codec).Err? <==> !fields["updated_plan"].JStr? && !fields["updated_plan"].JArr?
    ensures fields["updated_plan"].JObj? ==> ApplyPlan(plan, text, codec) == Err(SliceKeyError)
    ensures (fields["updated_plan"].JNull? || fields["updated_plan"].JBool? || fields["updated_plan"].JInt? || fields["updated_plan"].JFloat?)
            ==> ApplyPlan(plan, text, codec) == Err("'" + TypeName(fields["updated_plan"]) + "' object is not subscriptable")
  {

  }

  /** Non-JSON planner output keeps the plan and asks for a retry; JSON without `updated_plan` keeps it too. */
  lemma {:induction false} PlanFallbacks(plan: string, text: string, codec: Codec)
    ensures codec.loads(text).Err? ==> ApplyPlan(plan, text, codec) == Ok((plan, "Analyze the previous error and retry."))
    ensures (codec.loads(text).Ok? && codec.loads(text).value.JObj? && "updated_plan" !in codec.loads(text).value.fields)
            ==> ApplyPlan(plan, text, codec).Ok? && ApplyPlan(plan, text, codec).value.0 == plan
    ensures (codec.loads(text).Ok? && codec.loads(text).value.JObj? && "updated_plan" in codec.loads(text).value.fields
             && codec.loads(text).value.fields["updated_plan"].JStr?)
            ==> ApplyPlan(plan, text, codec).Ok?
                && ApplyPlan(plan, text, codec).value.0 == codec.loads(text).value.fields["updated_plan"].s
  {
  }

  // --------------------------------------------------------- interruptions

  /** How `analyze_interruption`'s answer is read. */
  datatype Intent = NewTask(text: string) | ModifyObjective(text: string) | Advice(text: string)

  /** The classification and `updated_text` (defaulting to what the user typed) of a decoded answer. */
  function Classify(codec: Codec, v: Json, typed: string): (r: Result<Intent>)
    ensures r.Err? <==> !v.JObj?
  {
    if !v.JObj? then Err(NoGet(v))
    else
      var c := Get(v.fields, "classification", JNull);
      var t := TextOf(codec, Get(v.fields, "updated_text", JStr(typed)));
      if c == JStr("NEW_TASK") then Ok(NewTask(t))
      else if c == JStr("MODIFY_OBJECTIVE") then Ok(ModifyObjective(t))
      else Ok(Advice(t))
  }

  /** A missing `updated_text` falls back to what the user typed; anything but the two tags is advice. */
  lemma {:induction false} ClassifyDefaults(codec: Codec, fields: map<string, Json>, typed: string)
    ensures "updated_text" !in fields ==> Classify(codec, JObj(fields), typed).value.text == typed
    ensures ("classification" !in fields || (fields["classification"] != JStr("NEW_TASK") && fields["classification"] != JStr("MODIFY_OBJECTIVE")))
            ==> Classify(codec, JObj(fields), typed).value.Advice?
  {
  }

  /** "exit" or "quit" in any letter case. */
  predicate ExitWord(s: string) {
    Lower(s) == "exit" || Lower(s) == "quit"
  }

  /** How `run` ends: the user stopped it, a second Ctrl+C, an exception, or the script ran out. */
  datatype RunEnd = UserEnded | Terminated | Crashed(error: string) | ScriptExhausted

  /** One pass of the loop: the state it leaves, the end of the run if it ends it, and whether it resets the counter. */
  datatype Turn = Turn(state: State, stop: Option<RunEnd>, restart: bool)

  /** The new-task transition, shared by both prompts. */
  function Restart(st: State, objective: string): State {
    Reset(st.(objective := objective), "Task reset by user. New Objective: " + objective)
  }

  /** What a classified answer after `task_complete` does; the flag is the counter reset. */
  function AfterCompletion(st: State, it: int, intent: Intent): (State, bool) {
    match intent
    case NewTask(t) => (Restart(st, t), true)
    case ModifyObjective(t) =>
      var obs := "Task marked complete, but user modified objective: " + t + ". Previous context retained.";
      (st.(objective := t, lastObservation := obs, history := Push(st.history, Entry(it, "User Modification", obs))), false)
    case Advice(t) =>
      var obs := "Task marked complete, but user provided feedback: " + t + ". Resume work.";
      (st.(lastObservation := obs, history := Push(st.history, Entry(it, "User Feedback", obs))), false)
  }

  /** What a classified answer at the pause prompt does. */
  function AfterPause(st: State, intent: Intent): (State, bool) {
    match intent
    case NewTask(t) => (Restart(st, t), true)
    case ModifyObjective(t) =>
      (st.(objective := t, lastObservation := st.lastObservation + "\n\n[USER INTERRUPTION]: User modified the objective. New Objective: "
                                              + t + ". Verify previous steps against new requirements."), false)
    case Advice(t) =>
      (st.(lastObservation := st.lastObservation + "\n\n[USER INTERRUPTION]: User provided advice/hint: " + t), false)
  }

  /**
   * NEW_TASK, at either prompt, replaces the objective, clears the plan,
   * working set and history and resets the counter.
   */
  lemma {:induction false} NewTaskTransition(st: State, it: int, t: string)
    ensures var (c, cr) := AfterCompletion(st, it, NewTask(t));
            var (p, pr) := AfterPause(st, NewTask(t));
            cr && pr && c == p && c.objective == t && c.plan == ResetPlan && c.openFiles == map[] && c.history == []
            && c.lastObservation == "Task reset by user. New Objective: " + t
  {
  }

  /**
   * MODIFY_OBJECTIVE replaces the objective and keeps plan and working set;
   * the completion prompt records one history entry, the pause prompt none
   * and only extends the observation.
   */
  lemma {:induction false} ModifyTransition(st: State, it: int, t: string)
    ensures var (c, cr) := AfterCompletion(st, it, ModifyObjective(t));
            var (p, pr) := AfterPause(st, ModifyObjective(t));
            !cr && !pr && c.objective == t && p.objective == t
            && c.plan == st.plan && p.plan == st.plan && c.openFiles == st.openFiles && p.openFiles == st.openFiles
            && p.history == st.history && c.history == Push(st.history, Entry(it, "User Modification", c.lastObservation))
            && StartsWith(p.lastObservation, st.lastObservation)
  {
    ConcatAffixes(st.lastObservation, "\n\n[USER INTERRUPTION]: User modified the objective. New Objective: "
                                        + t + ". Verify previous steps against new requirements.");
  }

  /**
   * Anything else is advice: the objective, plan and working set stay; the
   * pause prompt changes only the observation, which it extends, and the
   * completion prompt records one history entry.
   */
  lemma {:induction false} AdviceTransition(st: State, it: int, t: string)
    ensures var (c, cr) := AfterCompletion(st, it, Advice(t));
            var (p, pr) := AfterPause(st, Advice(t));
            !cr && !pr && c.objective == st.objective && p.objective == st.objective
            && c.plan == st.plan && p.plan == st.plan && c.openFiles == st.openFiles && p.openFiles == st.openFiles
            && p.history == st.history && c.history == Push(st.history, Entry(it, "User Feedback", c.lastObservation))
            && p == st.(lastObservation := p.lastObservation) && StartsWith(p.lastObservation, st.lastObservation)
  {
    ConcatAffixes(st.lastObservation, "\n\n[USER INTERRUPTION]: User provided advice/hint: " + t);
  }

  /** The pause prompt (the `except KeyboardInterrupt` block). */
  function Pause(codec: Codec, st: State, answer: Typed, classify: (string, string) -> Json): Turn {
    match answer
    case CtrlC => Turn(st, Some(Terminated), false)
    case EndOfInput => Turn(st, Some(Crashed(EofMessage)), false)
    case Line(raw) =>
      var s := Strip(raw);
      if |s| == 0 then Turn(st, None, false)
      else if ExitWord(s) then Turn(st, Some(UserEnded), false)
      else
        match Classify(codec, classify(st.objective, s), s)
        case Err(e) => Turn(st, Some(Crashed(e)), false)
        case Ok(intent) => var next := AfterPause(st, intent); Turn(next.0, None, next.1)
  }

  /** At the pause prompt, an empty answer resumes with nothing changed; "exit"/"quit" ends the run. */
  lemma {:induction false} PauseAnswers(codec: Codec, st: State, raw: string, classify: (string, string) -> Json)
    ensures |Strip(raw)| == 0 ==> Pause(codec, st, Line(raw), classify) == Turn(st, None, false)
    ensures |Strip(raw)| > 0 && ExitWord(Strip(raw)) ==> Pause(codec, st, Line(raw), classify) == Turn(st, Some(UserEnded), false)
    ensures Pause(codec, st, CtrlC, classify).stop == Some(Terminated)
  {
    if |Strip(raw)| == 0 {
      PauseEmpty(codec, st, raw, classify);
    } else if ExitWord(Strip(raw)) {
      PauseExit(codec, st, raw, classify);
    }
  }

  lemma PauseEmpty(codec: Codec, st: State, raw: string, classify: (string, string) -> Json)
    requires |Strip(raw)| == 0
    ensures Pause(codec, st, Line(raw), classify) == Turn(st, None, false)
  {
  }

  lemma PauseExit(codec: Codec, st: State, raw: string, classify: (string, string) -> Json)
    requires |Strip(raw)| > 0 && ExitWord(Strip(raw))
    ensures Pause(codec, st, Line(raw), classify) == Turn(st, Some(UserEnded), false)
  {
  }

  /** A classified answer at the pause prompt resumes in the state the intent gives. */
  lemma PauseClassified(codec: Codec, st: State, raw: string, classify: (string, string) -> Json, intent: Intent)
    requires |Strip(raw)| > 0 && !ExitWord(Strip(raw))
    requires Classify(codec, classify(st.objective, Strip(raw)), Strip(raw)) == Ok(intent)
    ensures Pause(codec, st, Line(raw), classify) == Turn(AfterPause(st, intent).0, None, AfterPause(st, intent).1)
  {
  }

  // ------------------------------------------------------------- iteration

  /** The observation a tool's result leaves, and the entry it records. */
  function Record(codec: Codec, st: State, it: int, name: string, params: Json, result: string,
                  summarize: (string, string) -> string): State {
    var summary := if |result| < VerbatimBelow && name != "run_command" then result
                   else summarize("Tool: " + name + ", Params: " + codec.show(params), result);
    st.(lastObservation := summary, history := Push(st.history, Entry(it, name + " " + codec.dumps(params), summary)))
  }

  /** The result text of a tool call (`str(raw_result)`). */
  function ToolResult(run: ToolRun): string {
    match run
    case Done(t, _) => t
    case Threw(e, _) => "Tool Execution Error: " + e
  }

  /** The `task_complete` branch: the user's answer to the feedback prompt. */
  function Completion(codec: Codec, st: State, it: int, o: Oracles): Turn {
    match o.typed
    case CtrlC => Pause(codec, st, o.pauseTyped, o.classify)
    case EndOfInput => Turn(st, Some(UserEnded), false)
    case Line(raw) =>
      var s := Strip(raw);
      if |s| == 0 || ExitWord(s) then Turn(st, Some(UserEnded), false)
      else
        match Classify(codec, o.classify(st.objective, s), s)
        case Err(e) => Turn(st, Some(Crashed(e)), false)
        case Ok(intent) => var next := AfterCompletion(st, it, intent); Turn(next.0, None, next.1)
  }

  /** Dispatching the decoded action `name(params)`. */
  function Dispatch(cfg: Config, st: State, it: int, o: Oracles, name: Json, params: Json): Turn {
    if Truthy(name) && !Hashable(name) then Turn(st, Some(Crashed(Unhashable(name))), false)
    else if !Registered(cfg.tools, name) then
      var msg := "Error: Tool '" + TextOf(cfg.codec, name) + "' not found.";
      Turn(st.(lastObservation := msg, history := Push(st.history, Entry(it, TextOf(cfg.codec, name), msg))), None, false)
    else if !params.JObj? && (name.s == "task_complete" || name.s == "get_user_input") then
      Turn(st, Some(Crashed(NoGet(params))), false)
    else if name.s == "task_complete" then Completion(cfg.codec, st, it, o)
    else if name.s == "get_user_input" then
      match o.typed
      case CtrlC => Pause(cfg.codec, st, o.pauseTyped, o.classify)
      case EndOfInput => Turn(st, Some(Crashed(EofMessage)), false)
      case Line(u) => Turn(Record(cfg.codec, st, it, name.s, params, "User Input Provided: " + u, o.summarize), None, false)
    else
      var run := o.tool(name.s, params, st.openFiles);
      Turn(Record(cfg.codec, st.(openFiles := run.files), it, name.s, params, ToolResult(run), o.summarize), None, false)
  }

  /** One iteration that is not interrupted before its prompts. */
  function Work(cfg: Config, st: State, it: int, o: Oracles): Turn {
    match ApplyPlan(st.plan, o.planner(st.objective, st.plan, st.lastObservation), cfg.codec)
    case Err(e) => Turn(st, Some(Crashed(e)), false)
    case Ok(ps) =>
      var st2 := st.(plan := ps.0);
      var text := o.actor(st2.plan, ps.1);
      match cfg.codec.loads(text)
      case Err(_) =>
        var obs := "Error: Agent produced invalid JSON for action: " + text;
        Turn(st2.(lastObservation := obs, history := Push(st2.history, Entry(it, "Failed JSON parse", obs))), None, false)
      case Ok(v) =>
        if !v.JObj? then Turn(st2, Some(Crashed(NoGet(v))), false)
        else Dispatch(cfg, st2, it, o, Get(v.fields, "tool_name", JNull), Get(v.fields, "parameters", EmptyObject))
  }

  function Iterate(cfg: Config, st: State, it: int, step: Step): Turn {
    match step
    case Interrupt(answer, classify) => Pause(cfg.codec, st, answer, classify)
    case Pass(o) => Work(cfg, st, it, o)
  }

  /**
   * Action text that is not JSON records the parse error and one history
   * entry under the updated plan and goes on, whatever the tools would have done.
   */
  lemma {:induction false} InvalidActionRecorded(cfg: Config, st: State, it: int, o: Oracles,
                              tool: (string, Json, map<string, string>) -> ToolRun)
    requires ApplyPlan(st.plan, o.planner(st.objective, st.plan, st.lastObservation), cfg.codec).Ok?
    requires var ps := ApplyPlan(st.plan, o.planner(st.objective, st.plan, st.lastObservation), cfg.codec).value;
      cfg.codec.loads(o.actor(ps.0, ps.1)).Err?
    ensures var ps := ApplyPlan(st.plan, o.planner(st.objective, st.plan, st.lastObservation), cfg.codec).value;
      var obs := "Error: Agent produced invalid JSON for action: " + o.actor(ps.0, ps.1);
      Work(cfg, st, it, o)
      == Turn(st.(plan := ps.0, lastObservation := obs, history := Push(st.history, Entry(it, "Failed JSON parse", obs))), None, false)
    ensures Work(cfg, st, it, o) == Work(cfg, st, it, o.(tool := tool))
  {
  }

  /**
   * An unknown tool records the not-found error and one history entry and
   * goes on, whatever the tools would have done.
   */
  lemma {:induction false} ActionErrorsRunNoTool(cfg: Config, st: State, it: int, o: Oracles, name: Json, params: Json,
                              tool: (string, Json, map<string, string>) -> ToolRun)
    requires Hashable(name) && !Registered(cfg.tools, name)
    ensures var msg := "Error: Tool '" + TextOf(cfg.codec, name) + "' not found.";
            Dispatch(cfg, st, it, o, name, params)
            == Turn(st.(lastObservation := msg, history := Push(st.history, Entry(it, TextOf(cfg.codec, name), msg))), None, false)
    ensures Dispatch(cfg, st, it, o, name, params) == Dispatch(cfg, st, it, o.(tool := tool), name, params)
  {
  }

  /** A tool's exception becomes "Tool Execution Error: ..."; a short result of a tool other than `run_command` is the observation verbatim. */
  lemma {:induction false} ToolResultRecorded(cfg: Config, st: State, it: int, o: Oracles, name: string, params: Json)
    requires name in cfg.tools && |name| > 0 && name != "task_complete" && name != "get_user_input"
    ensures var run := o.tool(name, params, st.openFiles);
            var t := Dispatch(cfg, st, it, o, JStr(name), params);
            t.stop.None? && t.state.openFiles == run.files &&
            (run.Threw? ==> StartsWith(ToolResult(run), "Tool Execution Error: ")) &&
            (|ToolResult(run)| < VerbatimBelow && name != "run_command" ==>
               t.state.lastObservation == ToolResult(run) &&
               t.state.history == Push(st.history, Entry(it, name + " " + cfg.codec.dumps(params), ToolResult(run))))
  {
    var run := o.tool(name, params, st.openFiles);
    if run.Threw? {
      ConcatAffixes("Tool Execution Error: ", run.error);
    }
  }

  /** After `task_complete`, end of input, an empty answer or "exit"/"quit" in any case ends the run. */
  lemma {:induction false} CompletionDismissed(cfg: Config, st: State, it: int, o: Oracles, params: Json)
    requires "task_complete" in cfg.tools && params.JObj?
    requires o.typed.EndOfInput? || (o.typed.Line? && (|Strip(o.typed.text)| == 0 || ExitWord(Strip(o.typed.text))))
    ensures Dispatch(cfg, st, it, o, JStr("task_complete"), params) == Turn(st, Some(UserEnded), false)
  {
  }

  // -------------------------------------------------------------------- run

  datatype RunResult = RunResult(end: RunEnd, state: State)

  /** The loop after iteration `it`, over the remaining script. */
  function RunFrom(cfg: Config, st: State, it: int, script: seq<Step>): RunResult
    decreases |script|
  {
    if |script| == 0 then RunResult(ScriptExhausted, st)
    else
      var t := Iterate(cfg, st, it + 1, script[0]);
      match t.stop
      case Some(e) => RunResult(e, t.state)
      case None => RunFrom(cfg, t.state, if t.restart then 0 else it + 1, script[1..])
  }

  /** The state `run` starts from: the reset state with "Project started.". */
  function StartState(objective: string): State {
    State(objective, ResetPlan, map[], [], StartedObservation)
  }

  /** `run(objective)`: reset, then the loop from iteration 0. */
  function RunSpec(cfg: Config, st: State, objective: string, script: seq<Step>): RunResult {
    RunFrom(cfg, Reset(st.(objective := objective), StartedObservation), 0, script)
  }

  /** Every run starts from the same state: nothing left by an earlier run matters. */
  lemma {:induction false} RunStartsFresh(cfg: Config, st: State, objective: string, script: seq<Step>)
    ensures RunSpec(cfg, st, objective, script) == RunFrom(cfg, StartState(objective), 0, script)
  {
  }

  // ---------------------------------------------------------------- the worker

  class Worker {
    var tools: set<string>
    var plan: string
    var openFiles: map<string, string>
    var history: Ring
    var lastObservation: string

    function Snapshot(objective: string): State
      reads this
    {
      State(objective, plan, openFiles, history, lastObservation)
    }

    constructor (toolNames: seq<string>)
      ensures tools == set n | n in toolNames
      ensures plan == InitialPlan && openFiles == map[] && history == [] && lastObservation == FreshObservation
    {
      tools := set n | n in toolNames;
      plan := InitialPlan;
      openFiles := map[];
      history := [];
      lastObservation := FreshObservation;
    }

    method RegisterTools(toolNames: seq<string>)
      modifies this`tools
      ensures tools == old(tools) + set n | n in toolNames
    {
      var i := 0;
      while i < |toolNames|
        invariant 0 <= i <= |toolNames|
        invariant tools == old(tools) + set n | n in toolNames[..i]
      {
        assert toolNames[..i + 1] == toolNames[..i] + [toolNames[i]];
        tools := tools + {toolNames[i]};
        i := i + 1;
      }
      assert toolNames[..i] == toolNames;
    }

    method UpdateOpenFile(path: string, content: string)
      modifies this`openFiles
      ensures openFiles == old(openFiles)[path := content]
    {
      openFiles := openFiles[path := content];
    }

    /** Closes `path` if it is open; otherwise nothing changes. */
    method CloseFile(path: string) returns (closed: bool)
      modifies this`openFiles
      ensures closed <==> path in old(openFiles)
      ensures openFiles == old(openFiles) - {path}
      ensures !closed ==> openFiles == old(openFiles)
    {
      if path in openFiles {
        openFiles := openFiles - {path};
        return true;
      }
      return false;
    }

    method IsFileOpen(path: string) returns (r: bool)
      ensures r <==> path in openFiles
    {
      r := path in openFiles;
    }

    method ResetState(observation: string)
      modifies this`plan, this`openFiles, this`history, this`lastObservation
      ensures plan == ResetPlan && openFiles == map[] && history == [] && lastObservation == observation
    {
      plan := ResetPlan;
      openFiles := map[];
      history := [];
      lastObservation := observation;
    }

    /** The pause prompt; returns the (possibly replaced) objective. */
    method HandlePause(codec: Codec, objective: string, answer: Typed, classify: (string, string) -> Json)
      returns (objective': string, stop: Option<RunEnd>, restart: bool)
      modifies this`plan, this`openFiles, this`history, this`lastObservation
      ensures Turn(Snapshot(objective'), stop, restart) == Pause(codec, old(Snapshot(objective)), answer, classify)
    {
      objective', stop, restart := objective, None, false;
      match answer
      case CtrlC =>
        stop := Some(Terminated);
      case EndOfInput =>
        stop := Some(Crashed(EofMessage));
      case Line(raw) =>
        var s := Strip(raw);
        if |s| == 0 {
          return;
        }
        if ExitWord(s) {
          stop := Some(UserEnded);
          return;
        }
        match Classify(codec, classify(objective, s), s)
        case Err(e) =>
          stop := Some(Crashed(e));
        case Ok(intent) =>
          PauseClassified(codec, old(Snapshot(objective)), raw, classify, intent);
          objective', restart := PauseIntent(objective, intent);
    }

    /** What a classified answer at the pause prompt does to the worker. */
    method PauseIntent(objective: string, intent: Intent) returns (objective': string, restart: bool)
      modifies this`plan, this`openFiles, this`history, this`lastObservation
      ensures (Snapshot(objective'), restart) == AfterPause(old(Snapshot(objective)), intent)
    {
      restart := false;
      match intent
      case NewTask(t) =>
        objective' := t;
        ResetState("Task reset by user. New Objective: " + t);
        restart := true;
      case ModifyObjective(t) =>
        objective' := t;
        lastObservation := lastObservation + "\n\n[USER INTERRUPTION]: User modified the objective. New Objective: "
                           + t + ". Verify previous steps against new requirements.";
      case Advice(t) =>
        objective' := objective;
        lastObservation := lastObservation + "\n\n[USER INTERRUPTION]: User provided advice/hint: " + t;
    }

    /** The `task_complete` branch, once its parameters are known to be a dict. */
    method HandleCompletion(codec: Codec, objective: string, it: int, o: Oracles)
      returns (objective': string, stop: Option<RunEnd>, restart: bool)
      modifies this`plan, this`openFiles, this`history, this`lastObservation
      ensures Turn(Snapshot(objective'), stop, restart) == Completion(codec, old(Snapshot(objective)), it, o)
    {
      objective', stop, restart := objective, None, false;
      match o.typed
      case CtrlC =>
        objective', stop, restart := HandlePause(codec, objective, o.pauseTyped, o.classify);
      case EndOfInput =>
        stop := Some(UserEnded);
      case Line(raw) =>
        var s := Strip(raw);
        if |s| == 0 || ExitWord(s) {
          stop := Some(UserEnded);
          return;
        }
        match Classify(codec, o.classify(objective, s), s)
        case Err(e) =>
          stop := Some(Crashed(e));
        case Ok(intent) =>
          objective', restart := CompletionIntent(objective, it, intent);
    }

    /** What a classified answer after `task_complete` does to the worker. */
    method CompletionIntent(objective: string, it: int, intent: Intent) returns (objective': string, restart: bool)
      modifies this`plan, this`openFiles, this`history, this`lastObservation
      ensures (Snapshot(objective'), restart) == AfterCompletion(old(Snapshot(objective)), it, intent)
    {
      restart := false;
      match intent
      case NewTask(t) =>
        objective' := t;
        ResetState("Task reset by user. New Objective: " + t);
        restart := true;
      case ModifyObjective(t) =>
        objective' := t;
        lastObservation := "Task marked complete, but user modified objective: " + t + ". Previous context retained.";
        history := Push(history, Entry(it, "User Modification", lastObservation));
      case Advice(t) =>
        objective' := objective;
        lastObservation := "Task marked complete, but user provided feedback: " + t + ". Resume work.";
        history := Push(history, Entry(it, "User Feedback", lastObservation));
    }

    /** Recording a tool's result as the observation and a history entry. */
    method RecordResult(codec: Codec, it: int, name: string, params: Json, result: string,
                        summarize: (string, string) -> string)
      modifies this`history, this`lastObservation
      ensures var r := Record(codec, old(Snapshot("")), it, name, params, result, summarize);
              history == r.history && lastObservation == r.lastObservation
    {
      var summary: string;
      if |result| < VerbatimBelow && name != "run_command" {
        summary := result;
      } else {
        summary := summarize("Tool: " + name + ", Params: " + codec.show(params), result);
      }
      lastObservation := summary;
      history := Push(history, Entry(it, name + " " + codec.dumps(params), summary));
    }

    /** One iteration that reaches its prompts. */
    method DoWork(cfg: Config, objective: string, it: int, o: Oracles)
      returns (objective': string, stop: Option<RunEnd>, restart: bool)
      modifies this`plan, this`openFiles, this`history, this`lastObservation
      ensures Turn(Snapshot(objective'), stop, restart) == Work(cfg, old(Snapshot(objective)), it, o)
    {
      objective', stop, restart := objective, None, false;
      match ApplyPlan(plan, o.planner(objective, plan, lastObservation), cfg.codec)
      case Err(e) =>
        stop := Some(Crashed(e));
      case Ok(ps) =>
        plan := ps.0;
        ghost var st2 := Snapshot(objective);
        var text := o.actor(plan, ps.1);
        match cfg.codec.loads(text)
        case Err(_) =>
          lastObservation := "Error: Agent produced invalid JSON for action: " + text;
          history := Push(history, Entry(it, "Failed JSON parse", lastObservation));
        case Ok(v) =>
          if !v.JObj? {
            stop := Some(Crashed(NoGet(v)));
            return;
          }
          var name := Get(v.fields, "tool_name", JNull);
          var params := Get(v.fields, "parameters", EmptyObject);
          assert Work(cfg, old(Snapshot(objective)), it, o) == Dispatch(cfg, st2, it, o, name, params);
          if Truthy(name) && !Hashable(name) {
            stop := Some(Crashed(Unhashable(name)));
            return;
          }
          if !Registered(cfg.tools, name) {
            lastObservation := "Error: Tool '" + TextOf(cfg.codec, name) + "' not found.";
            history := Push(history, Entry(it, TextOf(cfg.codec, name), lastObservation));
            return;
          }
          if !params.JObj? && (name.s == "task_complete" || name.s == "get_user_input") {
            stop := Some(Crashed(NoGet(params)));
            return;
          }
          if name.s == "task_complete" {
            objective', stop, restart := HandleCompletion(cfg.codec, objective, it, o);
          } else if name.s == "get_user_input" {
            match o.typed
            case CtrlC =>
              objective', stop, restart := HandlePause(cfg.codec, objective, o.pauseTyped, o.classify);
            case EndOfInput =>
              stop := Some(Crashed(EofMessage));
            case Line(u) =>
              RecordResult(cfg.codec, it, name.s, params, "User Input Provided: " + u, o.summarize);
          } else {
            var run := o.tool(name.s, params, openFiles);
            openFiles := run.files;
            RecordResult(cfg.codec, it, name.s, params, ToolResult(run), o.summarize);
          }
    }

    /** `run(objective)` over a script of iterations. */
    method Run(codec: Codec, objective: string, script: seq<Step>) returns (end: RunEnd, objective': string)
      modifies this`plan, this`openFiles, this`history, this`lastObservation
      ensures RunResult(end, Snapshot(objective')) == RunSpec(Config(tools, codec), old(Snapshot(objective)), objective, script)
    {
      var cfg := Config(tools, codec);
      var iteration := 0;
      ResetState(StartedObservation);
      objective' := objective;
      ghost var goal := RunFrom(cfg, Snapshot(objective'), 0, script);
      var rest := script;
      while |rest| > 0
        invariant goal == RunFrom(cfg, Snapshot(objective'), iteration, rest)
        decreases |rest|
      {
        iteration := iteration + 1;
        ghost var t := Iterate(cfg, Snapshot(objective'), iteration, rest[0]);
        assert goal == (match t.stop
                        case Some(e) => RunResult(e, t.state)
                        case None => RunFrom(cfg, t.state, if t.restart then 0 else iteration, rest[1..]));
        var stop: Option<RunEnd>;
        var restart: bool;
        match rest[0] {
          case Interrupt(answer, classify) =>
            objective', stop, restart := HandlePause(codec, objective', answer, classify);
          case Pass(o) =>
            objective', stop, restart := DoWork(cfg, objective', iteration, o);
        }
        assert Turn(Snapshot(objective'), stop, restart) == t;
        if stop.Some? {
          return stop.value, objective';
        }
        if restart {
          iteration := 0;
        }
        rest := rest[1..];
      }
      return ScriptExhausted, objective';
    }
  }
}
