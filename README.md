# bc_aeon core, modelled in Dafny

Aeon is an LLM-driven agent. A worker alternates planner and executor calls. It keeps a working set of open files, a ten-entry history ring and the last observation, and it runs the actions the executor asks for through its tools. This project models the deterministic logic around that loop and proves properties of it:

- **Execution loop.** Both `Worker` copies are modelled as classes over the same state:
  - `build_worker.dfy` models the packaged copy: action-chain normalisation, in-order chain execution that halts on failure markers, terminal tools, the forced-report iteration ceiling and the summary rule.
  - `aeon_worker.dfy` models the older copy: one action per iteration, and the NEW_TASK, MODIFY_OBJECTIVE and ADVICE transitions after an interruption.
  - `history.dfy` models the history ring shared by both.
- **LLM clients.**
  - `llm_build.dfy` models the packaged client: the brace-depth JSON extractor with its regex fallback, head/tail truncation, the bounded retry of `get_plan`/`get_action`, and the fallbacks of the other calls.
  - `llm_checkpoint.dfy` models the notebook checkpoint client: endpoint routing and the context limit it sets, the context-size guard, the fence-and-brace slicer, and the per-call fallbacks.
- **Working-set file tools** (`file_io.py`): `open_file`, `edit_file`, `close_file` and `write_file`.
  - The filesystem is a map of nodes, kept a tree (every path but the root inside a directory) by `write_file`, whose `os.makedirs` of the parent is modelled.
  - The working set is the worker's `open_files` map, which each tool changes in place.
  - `base64.dfy` and `utf8.dfy` model Base64 (section 4 of RFC 4648) and UTF-8 as the Python runtime applies them.
- **Research scheduler** (`research.dfy`): the deterministic parts of `ConductResearchTool`.
  - The thread cap and memory quota.
  - The progress bar.
  - The sub-agent's tool set.
  - The workspace copy filter.
  - The status decision.
  - The cleanup of container and lab-directory handles on every path.
  - The summary extraction, which completes a round trip with `submit_findings`' output.
  - The final report, with one section per hypothesis.
- **Tool loader** (`loader.dfy`): the constructor dependency-injection rule, applied over `__init__` signatures given as data.
- **Directory listing** (`system_info.dfy`):
  - the smart file-list summary, by sequential naming pattern or by extension;
  - strict truncation;
  - the three-level cascade bounded by 400,000 characters.
- **File analyzer.**
  - `file_analyzer.dfy` and `handler_table.dfy` model the dispatch order and the extension map. `Analyze` is `analyze` as written; `AnalyzeIntended` is the corrected entry point of the second finding below.
  - The handler modules model the handlers that need no external library: JSON schema, binary sniffing, line filtering, log, record, sequence, gene-annotation, header-scan, JSON Lines, TPM and archive summaries.

Python's own semantics live in helper modules:
- `text.dfy`: `str.strip`, `split`, `splitlines`, `find`, `count` and slicing;
- `paths.dfy`: `os.path.splitext`, `basename`, `split` and `dirname`;
- `sorting.dfy`: `list.sort`;
- `counting.dfy`: `collections.Counter` and `most_common`;
- `json_value.dfy`: decoded JSON values.

Model calls, tools, console input, library readers (pandas, zipfile, tarfile, `json.loads`), the clock and uuids are parameters or oracles. A worker run is driven by a finite script of per-iteration oracle replies.

## Model

| member | source | states |
|---|---|---|
| History.Newest | build/lib/aeon/core/worker.py:32 | the newest `min(n, 10)` entries of a sequence, in their original order |
| History.Push | build/lib/aeon/core/worker.py:32 | `deque(maxlen=10).append`: below capacity the entry is added at the end; at capacity the oldest entry is evicted first |
| History.NewestOfNewest | build/lib/aeon/core/worker.py:32 | trimming to the newest ten before appending more loses nothing that trimming afterwards would keep |
| History.PushAllKeepsNewest | build/lib/aeon/core/worker.py:32 | any sequence of appends leaves exactly the newest ten entries of everything appended, oldest evicted first |
| History.RingFromEmpty | build/lib/aeon/core/worker.py:32 | from an empty ring, `n` appends leave all of them when `n <= 10` and the last ten otherwise |
| BuildWorker.PlanRules | build/lib/aeon/core/worker.py:173-190 | undecodable planner output keeps the plan and suggests "Analyze previous error."; a dict without `updated_plan` keeps the plan; a dict with it succeeds exactly when the value is a string; a decoded non-dict raises |
| BuildWorker.ApplyPlan | build/lib/aeon/core/worker.py:173-190 | the planner's turn: the new plan and suggestion, or the exception that escapes `run`; no contract of its own: PlanRules states its cases |
| BuildWorker.StripFences | build/lib/aeon/core/worker.py:206-210 | the cleaned executor text carries no surrounding whitespace |
| BuildWorker.FencedReplyIsUnwrapped | build/lib/aeon/core/worker.py:206-210 | a body wrapped in a ```` ```json ```` fence and a closing fence comes back exactly as the body |
| BuildWorker.ChainOf | build/lib/aeon/core/worker.py:213-218 | a list is the chain; a dict's `actions` list is the chain; otherwise a dict with `tool_name` is a one-action chain; every other value is the empty chain |
| BuildWorker.ParseActions | build/lib/aeon/core/worker.py:204-222 | the parse fails exactly when the fence-stripped text does not decode, and otherwise yields the chain of the decoded value |
| BuildWorker.RenderAll | build/lib/aeon/core/worker.py:242-277 | one rendered line per summary part, in order |
| BuildWorker.FailedMarkMarks | build/lib/aeon/core/worker.py:279 | a result beginning with "COMMAND FAILED" counts as a failure |
| BuildWorker.ErrorMarkMarks | build/lib/aeon/core/worker.py:279 | a result beginning with "Error:" counts as a failure |
| BuildWorker.CallsGrow | build/lib/aeon/core/worker.py:234-281 | a non-halting call of the next registered action extends the in-order call record |
| BuildWorker.CallsLast | build/lib/aeon/core/worker.py:234-281 | a call of the next registered action, halting or not, keeps every earlier call in order |
| BuildWorker.ChainOrderFrom | build/lib/aeon/core/worker.py:234-281 | from any point of the chain loop, every call except possibly the last is in order, registered and non-halting |
| BuildWorker.ChainOrderTool | build/lib/aeon/core/worker.py:269-281 | the same for a step that runs an ordinary tool |
| BuildWorker.ChainHalts | build/lib/aeon/core/worker.py:234-281 | the chain calls actions 0, 1, ... each at most once; no call but the last halted the chain; no call reaches or passes an action that names an unregistered tool |
| BuildWorker.RunChain | build/lib/aeon/core/worker.py:228-281 | the chain loop from one action on; no contract of its own: ChainOrderFrom, ChainHalts and TerminalFrom state its behaviour, and Worker.ExecuteChain is proved equal to it |
| BuildWorker.SummaryRule | build/lib/aeon/core/worker.py:283-293 | a lone action other than `run_command` with output under 200 characters is its own summary; any other output goes to the summariser with "Chain: " and the taken tools as context |
| BuildWorker.Ceiling | build/lib/aeon/core/worker.py:134-144 | the ceiling check changes nothing but the last observation, or ends the run |
| BuildWorker.AfterChain | build/lib/aeon/core/worker.py:248-296 | a finished chain leaves the plan and working set as the chain left them, and never ends the run by giving up |
| BuildWorker.Act | build/lib/aeon/core/worker.py:192-296 | the executor's turn never changes the plan and never gives up |
| BuildWorker.Work | build/lib/aeon/core/worker.py:146-296 | an iteration past the ceiling check never ends the run by giving up; a keyword the client's `get_plan` or `get_action` does not take raises its TypeError out of `run` (KeywordClientConsults and PackagedClientRaises state both clients) |
| BuildWorker.UnexpectedKeyword | build/lib/aeon/core/worker.py:164-201 | binding keyword arguments to a signature succeeds exactly when every keyword is a parameter; otherwise it raises the TypeError naming the first keyword that is not one |
| BuildWorker.KeywordClientConsults | build/lib/aeon/core/worker.py:164-201 | with a client whose `get_plan` and `get_action` take the worker's keywords, the iteration is the planner's turn followed by the executor's |
| BuildWorker.PackagedClientRaises | build/lib/aeon/core/worker.py:164-170 | with the packaged client, whose `get_plan` takes only `prompt` and `max_retries`, the planner call raises "LLMClient.get_plan() got an unexpected keyword argument 'system_context'" and nothing changes |
| BuildWorker.PackagedRunCrashes | build/lib/aeon/core/worker.py:100-300 | with the packaged client a run counts at most one planner consultation and ends crashed with that TypeError, paused or out of script; its first uninterrupted iteration crashes; plan, working set and history never change |
| BuildWorker.Iterate | build/lib/aeon/core/worker.py:124-296 | one pass of the loop body: a Ctrl+C pauses, the ceiling gives up or alerts, otherwise Work; no contract of its own: IterateWorks and CeilingAlerts state its cases |
| BuildWorker.RunFrom | build/lib/aeon/core/worker.py:124-300 | the loop from an iteration on, counting consultations; no contract of its own: CeilingFrom and NoCeilingFrom state its bounds |
| BuildWorker.ChainSummary | build/lib/aeon/core/worker.py:283-293 | the observation a finished chain leaves; no contract of its own: SummaryRule states both cases |
| BuildWorker.Alert | build/lib/aeon/core/worker.py:137-141 | the ceiling alert naming the limit and the terminal tools; no contract of its own: CeilingAlerts states where it is installed |
| BuildWorker.IterateWorks | build/lib/aeon/core/worker.py:124-146 | an iteration that is not interrupted and under the ceiling is the planner-executor work on the state the ceiling check left |
| BuildWorker.TerminalList | build/lib/aeon/core/worker.py:108-109 | without a terminal-tool list the only terminal tool is `task_complete`; a given list is used as is |
| BuildWorker.CeilingFrom | build/lib/aeon/core/worker.py:124-146 | from iteration `it`, at most `M - it + 1` further iterations consult the planner, and none once the final report was forced |
| BuildWorker.CeilingBound | build/lib/aeon/core/worker.py:135-144 | with `max_iterations = M` a run consults the planner at most `M + 1` times |
| BuildWorker.NoCeilingFrom | build/lib/aeon/core/worker.py:135 | without `max_iterations` a run never gives up |
| BuildWorker.CeilingAlerts | build/lib/aeon/core/worker.py:135-144 | the first iteration past the ceiling replaces the observation with the alert and still consults the planner; the next one stops with the state unchanged |
| BuildWorker.RunSpec | build/lib/aeon/core/worker.py:100-300 | `run` over a script of per-iteration oracle replies; no contract of its own: CeilingBound, NoCeilingFrom and CeilingAlerts state its properties, and Worker.Run is proved equal to it |
| BuildWorker.ParseErrorRecorded | build/lib/aeon/core/worker.py:219-222 | an undecodable executor reply sets the observation to "Error parsing action: ..." and appends exactly one "Parse Error" entry, and the loop continues |
| BuildWorker.ChainAccounting | build/lib/aeon/core/worker.py:224-296 | an empty chain leaves the state untouched; a longer one is cut to its first 15 actions, and when it finishes the observation is the summary and one "Chain: N tools" entry is appended |
| BuildWorker.TerminalEndsRun | build/lib/aeon/core/worker.py:248-258 | a terminal tool completes the run with one history entry naming the tool and holding its result; the terminal tool was the chain's last call |
| BuildWorker.TerminalRecorded | build/lib/aeon/core/worker.py:255-258 | after a terminal tool the only change is the history entry, and the run completes |
| BuildWorker.TerminalFrom | build/lib/aeon/core/worker.py:248-258 | a chain that ends on a terminal tool ends on a registered terminal tool that was its last call |
| BuildWorker.UserInputEndsChain | build/lib/aeon/core/worker.py:260-267 | a line typed at `get_user_input` is appended as "User Input: ..." and ends the chain, not the run |
| BuildWorker.Worker.constructor | build/lib/aeon/core/worker.py:23-33 | the worker keeps the given client signature; the tools are registered under their names; the plan, working set, history and observation take their initial values |
| BuildWorker.Worker.RegisterTools | build/lib/aeon/core/worker.py:39-41 | the tool names are added to the registry and nothing else changes |
| BuildWorker.Worker.UpdateOpenFile | build/lib/aeon/core/worker.py:43-44 | the working set maps the path to the new content; every other path is unchanged |
| BuildWorker.Worker.CloseFile | build/lib/aeon/core/worker.py:46-50 | returns true exactly when the path was open; the path is removed and nothing else changes |
| BuildWorker.Worker.IsFileOpen | build/lib/aeon/core/worker.py:52-53 | true exactly when the path is in the working set |
| BuildWorker.Worker.ExecuteChain | build/lib/aeon/core/worker.py:228-281 | the in-place chain loop yields the chain end of the specification and leaves the working set the tools produced |
| BuildWorker.Worker.DoWork | build/lib/aeon/core/worker.py:146-296 | the in-place iteration body, with both keyword bindings, yields the state and stop reason of the specification |
| BuildWorker.Worker.Run | build/lib/aeon/core/worker.py:100-300 | `run` ends with the end reason, final state and planner-consultation count of the specification run over the same script |
| AeonWorker.Reset | aeon/core/worker.py:90-95 | `_reset_state` keeps the objective, sets the reset plan, empties the working set and history and installs the given observation |
| AeonWorker.PlanFallbacks | aeon/core/worker.py:155-168 | non-JSON planner output keeps the plan and suggests "Analyze the previous error and retry."; a dict without `updated_plan` keeps the plan; a string `updated_plan` becomes the plan |
| AeonWorker.ApplyPlan | aeon/core/worker.py:155-168 | the planner's turn: the new plan and suggestion, or the exception that escapes `run`; no contract of its own: PlanFallbacks and PlanSliceFails state its cases |
| AeonWorker.PlanSliceFails | aeon/core/worker.py:158-163 | a decoded dict's `updated_plan` ends the run exactly when it is neither a string nor a list; a dict raises "unhashable type: 'slice'" and null, a boolean or a number "'T' object is not subscriptable" |
| AeonWorker.AfterCompletion | aeon/core/worker.py:232-252 | the intent after `task_complete`; no contract of its own: NewTaskTransition, ModifyTransition and AdviceTransition state its cases |
| AeonWorker.AfterPause | aeon/core/worker.py:308-323 | the intent at the pause prompt; no contract of its own: NewTaskTransition, ModifyTransition and AdviceTransition state its cases |
| AeonWorker.Work | aeon/core/worker.py:146-280 | one uninterrupted iteration: planner, executor, then dispatch; no contract of its own: InvalidActionRecorded, ActionErrorsRunNoTool and ToolResultRecorded state its cases, and Worker.DoWork is proved equal to it |
| AeonWorker.RunFrom | aeon/core/worker.py:124-323 | the loop from an iteration on, with the counter reset on a new task; no contract of its own: Worker.Run is proved equal to it |
| AeonWorker.Classify | aeon/core/worker.py:225-303 | classifying an answer fails exactly when the decoded classifier value is not a dict |
| AeonWorker.ClassifyDefaults | aeon/core/worker.py:226-321 | a missing `updated_text` falls back to what the user typed; any classification other than the two tags is advice |
| AeonWorker.NewTaskTransition | aeon/core/worker.py:232-313 | NEW_TASK at either prompt replaces the objective, resets plan, working set and history, sets the "Task reset by user" observation and restarts the counter; both prompts agree |
| AeonWorker.ModifyTransition | aeon/core/worker.py:240-319 | MODIFY_OBJECTIVE replaces the objective and keeps plan and working set; after completion it records one "User Modification" entry; at the pause prompt it records none and only extends the observation |
| AeonWorker.AdviceTransition | aeon/core/worker.py:248-323 | advice keeps objective, plan and working set; after completion it records one "User Feedback" entry; at the pause prompt only the observation changes, by extension |
| AeonWorker.PauseAnswers | aeon/core/worker.py:282-297 | at the pause prompt an empty answer resumes with nothing changed, "exit"/"quit" in any case ends the run, and a second Ctrl+C terminates |
| AeonWorker.Pause | aeon/core/worker.py:282-323 | the pause prompt; no contract of its own: PauseAnswers, PauseEmpty, PauseExit and PauseClassified state its cases |
| AeonWorker.PauseEmpty | aeon/core/worker.py:292-294 | an empty pause answer resumes with the state unchanged |
| AeonWorker.PauseExit | aeon/core/worker.py:296-297 | an exit word at the pause prompt ends the run with the state unchanged |
| AeonWorker.PauseClassified | aeon/core/worker.py:299-323 | any other answer resumes in the state its classified intent gives |
| AeonWorker.ActionErrorsRunNoTool | aeon/core/worker.py:195-200 | an unknown tool name records "Error: Tool '...' not found." as observation and as one history entry, and no tool runs: the outcome is the same whatever the tools would do |
| AeonWorker.InvalidActionRecorded | aeon/core/worker.py:185-193 | action text that is not JSON records "Error: Agent produced invalid JSON for action: ..." as observation and as a "Failed JSON parse" history entry under the updated plan, and runs no tool |
| AeonWorker.Dispatch | aeon/core/worker.py:195-280 | dispatching the decoded action; no contract of its own: ActionErrorsRunNoTool and ToolResultRecorded state its cases |
| AeonWorker.ToolResultRecorded | aeon/core/worker.py:257-280 | an ordinary tool never stops the run and leaves the working set it produced; an exception becomes "Tool Execution Error: ..."; a result under 200 characters of a tool other than `run_command` is the observation verbatim and is recorded with the name and dumped parameters |
| AeonWorker.CompletionDismissed | aeon/core/worker.py:207-221 | after `task_complete`, end of input, an empty answer or an exit word ends the run with the state unchanged |
| AeonWorker.Completion | aeon/core/worker.py:207-252 | the `task_complete` branch: the answer to the feedback prompt; no contract of its own: CompletionDismissed states its ending cases |
| AeonWorker.RunStartsFresh | aeon/core/worker.py:109-116 | a run starts from the reset state with "Project started." whatever an earlier run left |
| AeonWorker.RunSpec | aeon/core/worker.py:109-323 | `run(objective)`: reset, then the loop from iteration 0; no contract of its own: RunStartsFresh states its start, and Worker.Run is proved equal to it |
| AeonWorker.Worker.constructor | aeon/core/worker.py:22-36 | the tools are registered under their names; plan, working set, history and observation take their initial values |
| AeonWorker.Worker.RegisterTools | aeon/core/worker.py:38-41 | the tool names are added to the registry |
| AeonWorker.Worker.UpdateOpenFile | aeon/core/worker.py:44-46 | the working set maps the path to the new content; every other path is unchanged |
| AeonWorker.Worker.CloseFile | aeon/core/worker.py:48-54 | returns true exactly when the path was open; the path is removed and nothing else changes |
| AeonWorker.Worker.IsFileOpen | aeon/core/worker.py:56-57 | true exactly when the path is in the working set |
| AeonWorker.Worker.ResetState | aeon/core/worker.py:90-95 | the fields are the reset state with the given observation |
| AeonWorker.Worker.HandlePause | aeon/core/worker.py:282-323 | the in-place pause handling leaves the objective, state, stop and restart flag of the pause specification |
| AeonWorker.Worker.PauseIntent | aeon/core/worker.py:308-323 | applying a classified intent in place gives the state and restart flag of the specification |
| AeonWorker.Worker.HandleCompletion | aeon/core/worker.py:207-252 | the in-place `task_complete` branch matches the completion specification |
| AeonWorker.Worker.CompletionIntent | aeon/core/worker.py:232-252 | applying a classified intent after completion in place matches the specification |
| AeonWorker.Worker.RecordResult | aeon/core/worker.py:267-280 | the history and observation become those the specification records for the result |
| AeonWorker.Worker.DoWork | aeon/core/worker.py:124-280 | one iteration in place leaves the objective, state, stop and restart flag of the specification |
| AeonWorker.Worker.Run | aeon/core/worker.py:109-323 | `run` ends with the end reason and final state of the specification run over the same script |
| BuildLlm.FirstClose | build/lib/aeon/core/llm.py:94-114 | the scan closes at the first counted '}' that brings the depth back to zero after an object started, or never |
| BuildLlm.StartIsFirstOpen | build/lib/aeon/core/llm.py:106-108 | the recorded start stays -1 until the first counted '{' and is that index afterwards |
| BuildLlm.GreedyObject | build/lib/aeon/core/llm.py:119-125 | the regex fallback yields "{}" or a text that begins with '{' and ends with '}' |
| BuildLlm.ExtractObjectShape | build/lib/aeon/core/llm.py:86-125 | the extracted object is "{}" or a contiguous piece of the response that begins with '{' and ends with '}' |
| BuildLlm.ExtractObject | build/lib/aeon/core/llm.py:86-125 | the scanned object, else the regex fallback; no contract of its own: ExtractObjectShape, ExtractScanned and ExtractFallback state its result |
| BuildLlm.CleanJsonShape | build/lib/aeon/core/llm.py:70-125 | an empty response gives "{}"; any other gives "{}" or a '{'...'}' piece of the cleaned, stripped response |
| BuildLlm.CleanJson | build/lib/aeon/core/llm.py:70-125 | `_clean_json_response`; no contract of its own: CleanJsonShape states its shape and CleanJsonResponse is proved equal to it |
| BuildLlm.ExtractScanned | build/lib/aeon/core/llm.py:116-117 | when the scan closes an object, the result runs from the first counted '{' to the closing brace |
| BuildLlm.ExtractFallback | build/lib/aeon/core/llm.py:119-125 | when the scan never closes, the result runs from the first '{' to the last '}', or is "{}" when there is no such span |
| BuildLlm.ScanObject | build/lib/aeon/core/llm.py:88-114 | the scan loop ends without a close exactly when the specification finds none, and otherwise returns the specification's start and one past its closing index |
| BuildLlm.FirstCloseSkips | build/lib/aeon/core/llm.py:94-114 | a stretch with no closing index does not change where the scan closes |
| BuildLlm.CleanJsonResponse | build/lib/aeon/core/llm.py:70-125 | `_clean_json_response` with its scan loop returns the cleaned text of the specification |
| BuildLlm.QuotedBraceIgnored | build/lib/aeon/core/llm.py:101-105 | a '}' inside a string literal is not counted, so `{"a":"}"}` is kept whole |
| BuildLlm.StrayCloseBraceQuirk | build/lib/aeon/core/llm.py:110-125 | a stray '}' before the first '{' keeps the depth below zero, the scan never closes and the fallback span "{} {x}" is returned |
| BuildLlm.TruncateWithTail | build/lib/aeon/core/llm.py:228-232 | text within `head + tail` characters is unchanged; longer text begins with its first `head` characters and the marker of the dropped count and ends with its last `tail` characters |
| BuildLlm.TruncationAccounts | build/lib/aeon/core/llm.py:228-232 | head, dropped middle and tail make up the text, and the marker counts exactly the middle |
| BuildLlm.PromptsFollowSnoc | build/lib/aeon/core/llm.py:129-154 | sending the original prompt first, and after each rejected answer the original plus feedback on that answer, keeps the prompt record well formed |
| BuildLlm.PromptsShareOriginal | build/lib/aeon/core/llm.py:152-154 | every prompt sent is built on the original prompt: feedback does not accumulate |
| BuildLlm.QueryJson | build/lib/aeon/core/llm.py:127-163 | at most `max_retries` attempts; a failing call propagates its error; the first answer that parses is returned cleaned; when every attempt was rejected all `max_retries` were made and the fallback is returned |
| BuildLlm.GetPlan | build/lib/aeon/core/llm.py:127-163 | `get_plan`: the retry contract with fallback "{}", every prompt built on the original and every attempt but the last rejected |
| BuildLlm.GetAction | build/lib/aeon/core/llm.py:165-201 | `get_action`: the same with fallback `{"actions": []}` |
| BuildLlm.SummaryInput | build/lib/aeon/core/llm.py:236-238 | output up to 20000 characters reaches the summariser whole; longer output keeps its first 4000 and last 16000 characters |
| BuildLlm.SummarizeExecution | build/lib/aeon/core/llm.py:234-254 | the summariser's answer is returned as is; on failure the message begins with the reason and raw length and ends with at most the last 1000 raw characters |
| BuildLlm.InterruptionFallback | build/lib/aeon/core/llm.py:272 | the fallback classification is ADVICE with the user's input as `updated_text` |
| BuildLlm.AnalyzeInterruption | build/lib/aeon/core/llm.py:256-272 | the decoded answer (uncleaned) when it decodes, and the ADVICE fallback on a failed call or undecodable answer |
| BuildLlm.AnalyzeMilestones | build/lib/aeon/core/llm.py:203-226 | the decoded cleaned answer, or `{}` on a failed call or undecodable answer |
| CheckpointLlm.NameOr | aeon/core/.ipynb_checkpoints/llm-checkpoint.py:19-20 | a given non-empty model name is used; a missing or empty one takes the default |
| CheckpointLlm.RouteRules | aeon/core/.ipynb_checkpoints/llm-checkpoint.py:30-69 | a local model goes to port 8000 in the strong role and 8001 otherwise; a Gemini or Grok name succeeds exactly when its key file exists; only those names reach a cloud endpoint; the limit becomes 1,000,000 for Gemini and 128,000 for any other name |
| CheckpointLlm.Route | aeon/core/.ipynb_checkpoints/llm-checkpoint.py:30-69 | the client `_init_client` builds or the ValueError it raises; no contract of its own: RouteRules, DefaultsAreLocal and RoutingIgnoresCase state its cases |
| CheckpointLlm.DefaultsAreLocal | aeon/core/.ipynb_checkpoints/llm-checkpoint.py:19-69 | both default models are local, strong on port 8000 and weak on 8001, and neither changes the limit |
| CheckpointLlm.RoutingIgnoresCase | aeon/core/.ipynb_checkpoints/llm-checkpoint.py:34-35 | routing lowercases the name: "Gemini-Pro" is a Gemini model with the 1,000,000 limit |
| CheckpointLlm.LimitSetByLastCloudModel | aeon/core/.ipynb_checkpoints/llm-checkpoint.py:22-47 | after construction the limit is set by the weak model when it is a cloud model, else by the strong one, and stays 128,000 when both are local |
| CheckpointLlm.CheckContextSize | aeon/core/.ipynb_checkpoints/llm-checkpoint.py:82-99 | the prompt fits exactly when its count is within the limit; it raises exactly when it is over and the name contains neither "gemini" nor "grok" (case-sensitive), with a "CONTEXT OVERFLOW: Input size N" message |
| CheckpointLlm.CapitalisedCloudNameIsGuardedAsLocal | aeon/core/.ipynb_checkpoints/llm-checkpoint.py:34-86 | "Gemini-Pro" is routed to the cloud yet an over-limit prompt for it still raises: the guard does not lowercase |
| CheckpointLlm.UnfenceIsSplit | aeon/core/.ipynb_checkpoints/llm-checkpoint.py:109-112 | the fence step is the source's `split("```json")[1].split("```")[0].strip()`, or `split("```")[0].strip()` for a bare fence |
| CheckpointLlm.Unfence | aeon/core/.ipynb_checkpoints/llm-checkpoint.py:109-112 | the fence removal step; no contract of its own: UnfenceIsSplit, UnfenceKeepsFenceBody and UnfenceBareFence state its cases |
| CheckpointLlm.UnfenceKeepsFenceBody | aeon/core/.ipynb_checkpoints/llm-checkpoint.py:109-110 | with a ```` ```json ```` fence the result is the stripped text after it, up to the next ```` ``` ```` or the end, with no fence inside |
| CheckpointLlm.UnfenceBareFence | aeon/core/.ipynb_checkpoints/llm-checkpoint.py:111-112 | with only a bare fence the result is the stripped text before the first fence |
| CheckpointLlm.SliceObject | aeon/core/.ipynb_checkpoints/llm-checkpoint.py:114-120 | with no '{' the text is unchanged; with no '}' after the first '{' the result is ""; otherwise it is the span from the first '{' to the last '}' |
| CheckpointLlm.SliceObjectCases | aeon/core/.ipynb_checkpoints/llm-checkpoint.py:114-120 | the slice is the text itself, "", or a contiguous '{'...'}' piece of it |
| CheckpointLlm.CleanJson | aeon/core/.ipynb_checkpoints/llm-checkpoint.py:101-103 | an empty response cleans to "" |
| CheckpointLlm.PlanFallback | aeon/core/.ipynb_checkpoints/llm-checkpoint.py:183-189 | the fallback planner object keeps the current plan as `updated_plan` |
| CheckpointLlm.IntentFallback | aeon/core/.ipynb_checkpoints/llm-checkpoint.py:292-297 | the fallback classification is ADVICE with the user's input as `updated_text` |
| CheckpointLlm.LlmClient.Init | aeon/core/.ipynb_checkpoints/llm-checkpoint.py:15-22 | the model names with their defaults, the 128,000 limit, and no client yet |
| CheckpointLlm.LlmClient.InitClient | aeon/core/.ipynb_checkpoints/llm-checkpoint.py:30-69 | `_init_client` returns the routing result and sets the limit its family gives, even when the key file is missing |
| CheckpointLlm.LlmClient.Connect | aeon/core/.ipynb_checkpoints/llm-checkpoint.py:25-26 | construction fails exactly when either routing fails; on success both clients are the routed endpoints and the limit is the one the weak model leaves after the strong one |
| CheckpointLlm.LlmClient.Create | aeon/core/.ipynb_checkpoints/llm-checkpoint.py:15-28 | `LLMClient(...)` fails exactly when routing either model fails; on success the names take their defaults, both clients are the routed endpoints and the limit is the one the two routings leave |
| CheckpointLlm.LlmClient.GetPlan | aeon/core/.ipynb_checkpoints/llm-checkpoint.py:159-189 | raises exactly on a hard overflow for the strong model; a failed call gives the dumped fallback keeping the plan; an answer is returned as is in JSON mode and cleaned otherwise |
| CheckpointLlm.LlmClient.GetAction | aeon/core/.ipynb_checkpoints/llm-checkpoint.py:216-235 | raises exactly on a hard overflow for the weak model; a failed call gives ""; an answer is raw in JSON mode and cleaned otherwise |
| CheckpointLlm.LlmClient.SummarizeExecution | aeon/core/.ipynb_checkpoints/llm-checkpoint.py:256-266 | raises exactly on a hard overflow; the answer as is, or "Error summarizing output: ...." on failure |
| CheckpointLlm.LlmClient.AnalyzeInterruption | aeon/core/.ipynb_checkpoints/llm-checkpoint.py:277-297 | the decoded (cleaned unless JSON mode) answer, or ADVICE with the user input when the call or the decoding fails |
| FileIo.Truncate | build/lib/aeon/tools/file_io.py:70-74 | a cell of at most 100 characters is unchanged; a longer one becomes its first 100 characters followed by "...", 103 in all |
| FileIo.Cells | build/lib/aeon/tools/file_io.py:86-92 | one truncated cell per split field, in order |
| FileIo.NoLinesIffEmpty | build/lib/aeon/tools/file_io.py:79-83 | `readlines()` gives no lines exactly when the file is empty |
| FileIo.TabularCases | build/lib/aeon/tools/file_io.py:76-98 | "[Empty CSV/TSV]" exactly for an empty file; otherwise the summary starts with "Headers: " and ends with "[No Data Rows]" for a header alone, or with "[Total Lines: N]" for N > 1 lines |
| FileIo.TabularHeaded | build/lib/aeon/tools/file_io.py:85-98 | the headed summary is never the empty marker and ends with the no-rows marker or the line count |
| FileIo.ShowLines | build/lib/aeon/tools/file_io.py:131-138 | one shown line per input line |
| FileIo.ShowLinesAt | build/lib/aeon/tools/file_io.py:134-138 | shown line `i` is line `i` stripped and truncated |
| FileIo.FastaLinesShape | build/lib/aeon/tools/file_io.py:127-139 | at most the first ten lines are shown, each stripped and truncated to at most 103 characters |
| FileIo.ReadShownLines | build/lib/aeon/tools/file_io.py:130-138 | the `readline` loop keeps the first ten (or fewer) lines, stripped and truncated |
| FileIo.SummarizeFasta | build/lib/aeon/tools/file_io.py:127-139 | the shown lines joined by newlines, followed by the truncation marker |
| FileIo.OpenSpec | build/lib/aeon/tools/file_io.py:25-68 | the reply of `open_file` and the working set it leaves, with the disk unwritten; no contract of its own: OpenGates states its gates and OpenFileTool.Execute is proved equal to it |
| FileIo.OpenGates | build/lib/aeon/tools/file_io.py:25-68 | `open_file` changes the working set only on success and then only at the absolute path; files over 250,000 bytes and the refused extensions leave it unchanged with their replies; an ordinary readable text file is stored verbatim |
| FileIo.EditRefusesEmpty | build/lib/aeon/tools/file_io.py:151-154 | an empty `file_path` or `old_str` is refused before the file is looked at, changing nothing |
| FileIo.EditNeedsOneOccurrence | build/lib/aeon/tools/file_io.py:171-189 | zero or several occurrences give an error and change neither the disk nor the working set; several give the "not unique" reply with the count |
| FileIo.CountOne | build/lib/aeon/tools/file_io.py:171-192 | when the count is one, the text splits around the first match and no other match starts before or after it |
| FileIo.EditSpec | build/lib/aeon/tools/file_io.py:150-211 | `edit_file`: the refusals, the not-found, directory and read errors, then Replace on the text read; no contract of its own: EditRefusesEmpty, EditNeedsOneOccurrence and EditReplacesTheOccurrence state its cases |
| FileIo.Replace | build/lib/aeon/tools/file_io.py:171-211 | the uniqueness check, the single replacement and the write, with the working set updated under the absolute path when the file is open; no contract of its own: EditReplacesTheOccurrence states the success case and EditFileTool.ReplaceOnce is proved equal to it |
| FileIo.EditReplacesTheOccurrence | build/lib/aeon/tools/file_io.py:191-211 | a unique occurrence is replaced by `new_str` and the file is stored as written, so that the next read returns the edited text with universal newlines; the working set changes only at the absolute path, holding the edited text as written, and only when the file was open under the given or the absolute path; the reply counts the lines of both strings |
| FileIo.EditOverlappingMatches | build/lib/aeon/tools/file_io.py:171-192 | overlapping matches count once: "aa" in "aaa" passes the uniqueness check and the first match is replaced |
| FileIo.WriteUndecodable | build/lib/aeon/tools/file_io.py:243-247 | a "base64:" body that does not decode is reported and nothing is written |
| FileIo.IsADirectory | build/lib/aeon/tools/file_io.py:258-271 | the text of the IsADirectoryError that opening a directory for writing raises; no contract of its own: WriteToDirectoryFails states when it is reported |
| FileIo.WriteSpec | build/lib/aeon/tools/file_io.py:237-271 | `write_file`: the refusals, the base64 decoding, then WriteText; no contract of its own: WriteUndecodable, WriteBase64, WriteMakesMissingParents, WriteToDirectoryFails, WriteUnderFileFails and WriteEvictsGivenPath state its cases |
| FileIo.WriteText | build/lib/aeon/tools/file_io.py:251-271 | the `try` block once the text is known: `makedirs` of the parent, then the open for writing; no contract of its own: WriteKeepsTree, WriteOnlyAddsDirectories and WriteMakesMissingParents state its effect |
| FileIo.WriteMade | build/lib/aeon/tools/file_io.py:257-271 | a `makedirs` error is reported as "Error writing file: ..." over the disk `makedirs` left; a directory target raises IsADirectoryError; otherwise the write faults, or the file is written and the given path evicted; no contract of its own: WriteMadeNodes and WroteInto state its effect on the disk |
| FileIo.WriteMadeNodes | build/lib/aeon/tools/file_io.py:257-259 | after `makedirs` the disk is either as `makedirs` left it or that disk with the written file added |
| FileIo.WroteInto | build/lib/aeon/tools/file_io.py:258-259 | once `makedirs` has returned, a target that is not a directory and opens for writing holds the written text |
| FileIo.MkDir | build/lib/aeon/tools/file_io.py:256 | `os.mkdir` under `exist_ok`: an existing directory is accepted unchanged; an existing file raises FileExistsError, a missing parent FileNotFoundError and a file parent NotADirectoryError, each changing nothing; success adds exactly that one directory |
| FileIo.MakeDirs | build/lib/aeon/tools/file_io.py:256 | `os.makedirs(name, exist_ok=True)` keeps every existing node, adds only directories no longer than `name`, leaves `name` a directory when it succeeds, and raises FileExistsError only for a file at `name` |
| FileIo.WithParents | build/lib/aeon/tools/file_io.py:253-256 | `makedirs` runs on `dirname(abs_path)` only when that is non-empty; no contract of its own: ParentsOfExisting and ParentsOfExample state its cases |
| FileIo.MakeDirsExisting | build/lib/aeon/tools/file_io.py:256 | on a tree, making a directory that exists changes nothing and raises nothing |
| FileIo.ParentsOfExisting | build/lib/aeon/tools/file_io.py:253-256 | on a tree, writing a path that already exists makes no directory and raises nothing |
| FileIo.MakeDirsKeepsTree | build/lib/aeon/tools/file_io.py:256 | `makedirs` of an absolute path keeps every path but the root inside a directory, whether it succeeds or raises partway |
| FileIo.AddDirKeepsTree | build/lib/aeon/tools/file_io.py:256 | adding one directory inside a directory keeps the disk a tree |
| FileIo.AddFileKeepsTree | build/lib/aeon/tools/file_io.py:258-259 | writing a file where no directory is, inside a directory, keeps the disk a tree |
| FileIo.WriteKeepsTree | build/lib/aeon/tools/file_io.py:251-271 | `write_file` of a normalised absolute path keeps the disk a tree, whatever the outcome |
| FileIo.WriteOnlyAddsDirectories | build/lib/aeon/tools/file_io.py:251-271 | besides the target, `write_file` changes no existing node, and every node it adds is a directory |
| FileIo.WriteUnderFileFails | build/lib/aeon/tools/file_io.py:253-271 | on a tree, writing below a file reports the FileExistsError `makedirs` raises for that file and changes neither the disk nor the working set |
| FileIo.MakeDirsOverFile | build/lib/aeon/tools/file_io.py:256 | on a tree, `makedirs` of an existing file raises FileExistsError for it and changes nothing |
| FileIo.SplitsOfExample | build/lib/aeon/tools/file_io.py:254-256 | `/a/b/c.txt` has parent `/a/b`, whose parents are `/a` and then the root |
| FileIo.MakeFirstParent | build/lib/aeon/tools/file_io.py:256 | `makedirs("/a")` on an empty disk adds exactly `/a` |
| FileIo.ParentsOfExample | build/lib/aeon/tools/file_io.py:253-256 | the parents of `/a/b/c.txt` on an empty disk are made: exactly `/a` and `/a/b`, without error |
| FileIo.FileOfExampleIsNew | build/lib/aeon/tools/file_io.py:258 | `/a/b/c.txt` is not a directory once its parents are made |
| FileIo.WriteMakesMissingParents | build/lib/aeon/tools/file_io.py:251-259 | writing `/a/b/c.txt` to an empty disk leaves exactly `/a` and `/a/b` as directories and the file with the text |
| FileIo.ParentOpensAsDirectory | build/lib/aeon/tools/file_io.py:25-259 | after that write, `open_file` of `/a/b` reports a directory, not a missing path |
| FileIo.OpenDirectory | build/lib/aeon/tools/file_io.py:25-68 | `open_file` of a directory reports the directory error and leaves the working set unchanged |
| FileIo.RootSplit | build/lib/aeon/tools/file_io.py:254 | the root splits into itself and an empty tail |
| FileIo.DirnameIsParent | build/lib/aeon/tools/file_io.py:254-256 | for a path with a named last component, the parent `makedirs` makes first is `os.path.dirname` |
| FileIo.Written | build/lib/aeon/tools/file_io.py:195-258 | a text-mode write stores the UTF-8 bytes of the text (at least one per character), and the next text-mode read returns no carriage return: every "\r\n" and lone "\r" reads back as "\n" |
| FileIo.WrittenWithoutCarriageReturn | build/lib/aeon/tools/file_io.py:195-258 | text without a carriage return reads back exactly as written |
| FileIo.CrLfReadsAsLf | build/lib/aeon/tools/file_io.py:165 | the universal-newline read of "x\r\ny" is "x\ny" |
| FileIo.CountsOfExample | build/lib/aeon/tools/file_io.py:171-207 | "x\ny" occurs once in itself, spans two lines, and "z" spans one |
| FileIo.WriteThenEditTranslated | build/lib/aeon/tools/file_io.py:165-258 | when the parents are made and the target is no directory, after `write_file` stores "x\r\ny", the file reads "x\ny" and `edit_file` of "x\ny" by "z" succeeds, replacing two lines by one |
| FileIo.WriteToDirectoryFails | build/lib/aeon/tools/file_io.py:251-271 | on a tree, writing to an existing directory makes nothing with `makedirs`, reports the IsADirectoryError and changes neither the disk nor the working set |
| FileIo.WriteBase64 | build/lib/aeon/tools/file_io.py:243-259 | a "base64:" body that encodes the UTF-8 of a text has exactly the effect of writing that text, parent directories included |
| FileIo.WriteEvictsGivenPath | build/lib/aeon/tools/file_io.py:251-267 | when `makedirs` succeeds and the target is no directory, the disk is the one `makedirs` left plus the written file; only the entry under exactly the given path string is evicted; an entry under the differing absolute path survives with its old content |
| FileIo.CloseRemovesOnlyThePath | build/lib/aeon/tools/file_io.py:222-227 | closing removes exactly the given key, leaves other entries unchanged, and reports "closed" exactly when the path was open |
| FileIo.CloseSpec | build/lib/aeon/tools/file_io.py:222-227 | `close_file`: refusal of an empty path, then removal of the given key; no contract of its own: CloseRemovesOnlyThePath states it and CloseFileTool.Execute is proved equal to it |
| FileIo.OpenFileTool.constructor | build/lib/aeon/tools/file_io.py:18-23 | the tool holds the given worker |
| FileIo.OpenFileTool.Execute | build/lib/aeon/tools/file_io.py:25-68 | the reply and the working set are those of the `open_file` specification |
| FileIo.EditFileTool.constructor | build/lib/aeon/tools/file_io.py:143-148 | the tool holds the given worker |
| FileIo.EditFileTool.Execute | build/lib/aeon/tools/file_io.py:150-211 | the reply, the disk and the working set are those of the edit specification, whose written node reads back with universal newlines |
| FileIo.EditFileTool.ReplaceOnce | build/lib/aeon/tools/file_io.py:170-211 | the uniqueness check, replacement and write in place match the specification; the node written is Written of the edited text, which reads back with universal newlines |
| FileIo.CloseFileTool.constructor | build/lib/aeon/tools/file_io.py:215-220 | the tool holds the given worker |
| FileIo.CloseFileTool.Execute | build/lib/aeon/tools/file_io.py:222-227 | the reply and the working set are those of the close specification |
| FileIo.WriteFileTool.constructor | build/lib/aeon/tools/file_io.py:230-235 | the tool holds the given worker |
| FileIo.WriteFileTool.Execute | build/lib/aeon/tools/file_io.py:237-271 | the reply, the disk and the working set are those of the write specification, through WriteOnce |
| FileIo.WriteFileTool.WriteOnce | build/lib/aeon/tools/file_io.py:251-271 | the `try` block in place: the disk becomes the one `makedirs` leaves and then the written one, and the reply and the working set are those of WriteText |
| Base64.ValueOf | build/lib/aeon/tools/file_io.py:245 | every character maps to a 6-bit value of the standard alphabet (section 4 of RFC 4648) or to -1 |
| Base64.ValueOfCharOf | build/lib/aeon/tools/file_io.py:245 | the alphabet character of a value is read back as that value |
| Base64.Encode | build/lib/aeon/tools/file_io.py:245 | the encoding of `n` bytes has `4 * ceil(n / 3)` characters |
| Base64.EncodeIsAscii | build/lib/aeon/tools/file_io.py:245 | the encoding is plain ASCII |
| Base64.QuantumRoundTrip | build/lib/aeon/tools/file_io.py:245 | decoding one full quantum writes back its three bytes and starts a new quantum |
| Base64.LastOne | build/lib/aeon/tools/file_io.py:245 | a final one-byte quantum with "==" padding decodes to its byte |
| Base64.LastTwo | build/lib/aeon/tools/file_io.py:245 | a final two-byte quantum with "=" padding decodes to its two bytes |
| Base64.A2bOfEncoded | build/lib/aeon/tools/file_io.py:245 | the decoder reads the encoding of any bytes back after what it already holds |
| Base64.A2bOfQuanta | build/lib/aeon/tools/file_io.py:245 | whole quanta decode to their bytes and leave the decoder at a quantum boundary |
| Base64.Decode | build/lib/aeon/tools/file_io.py:245 | `b64decode` of a `str`: non-ASCII input is refused, otherwise the non-validating decoder runs; no contract of its own: DecodeEncoded, ExtraCharacter and MissingPadding state its results |
| Base64.DecodeText | build/lib/aeon/tools/file_io.py:245 | the base64 decoding then the UTF-8 decoding, either of which can fail; no contract of its own: DecodeTextEncoded states its round trip |
| Base64.DecodeEncoded | build/lib/aeon/tools/file_io.py:245 | round trip: `b64decode(b64encode(bs)) == bs` |
| Base64.DecodeTextEncoded | build/lib/aeon/tools/file_io.py:245 | round trip through UTF-8: the base64 of a text's encoding decodes back to the text |
| Base64.ExtraCharacter | build/lib/aeon/tools/file_io.py:245-247 | one alphabet character past whole quanta is always a decoding error with the character count |
| Base64.LoneCharacter | build/lib/aeon/tools/file_io.py:245-247 | a lone trailing character reports the number of data characters read |
| Base64.QuantaLength | build/lib/aeon/tools/file_io.py:245 | whole quanta encode to four characters per three bytes |
| Base64.MissingPadding | build/lib/aeon/tools/file_io.py:245-247 | two or three characters past whole quanta without padding are an "Incorrect padding" error |
| Base64.FeedValue | build/lib/aeon/tools/file_io.py:245 | an alphabet character is absorbed with its value |
| Base64.SkipsForeign | build/lib/aeon/tools/file_io.py:245 | characters outside the alphabet, such as line breaks, are skipped by the non-validating decoder |
| Utf8.EncodeChar | build/lib/aeon/tools/file_io.py:245-259 | one scalar value encodes to one to four bytes |
| Utf8.Encode | build/lib/aeon/tools/file_io.py:258-259 | the encoding is at least as long as the text |
| Utf8.UnitAt | build/lib/aeon/tools/file_io.py:245 | each decoder step consumes one to four of the remaining bytes |
| Utf8.UnitOfEncoded | build/lib/aeon/tools/file_io.py:245 | the decoder reads the encoding of any scalar value back, with its width |
| Utf8.DecodeEncodedFrom | build/lib/aeon/tools/file_io.py:245 | decoding the encoding of a text appends exactly that text |
| Utf8.Decode | build/lib/aeon/tools/file_io.py:245 | `bytes.decode("utf-8")`: the text or the UnicodeDecodeError message; no contract of its own: DecodeEncoded states its round trip and DecodeIgnoreFrom its agreement with the ignoring decoder |
| Utf8.DecodeEncoded | build/lib/aeon/tools/file_io.py:245 | round trip: `s.encode("utf-8").decode("utf-8") == s` |
| Utf8.DecodeIgnore | build/lib/aeon/tools/analyzers/file_analyzer.py:102 | decoding with `errors="ignore"` never yields more characters than there are bytes |
| Utf8.DecodeIgnoreFrom | build/lib/aeon/tools/analyzers/file_analyzer.py:102 | wherever the strict decoder succeeds, the ignoring decoder yields the same text |
| Utf8.DecodeIgnoreAgrees | build/lib/aeon/tools/analyzers/file_analyzer.py:102 | on valid UTF-8, ignoring errors changes nothing |
| Research.ExecNonZeroFails | aeon/tools/research.py:35-37 | a container command that exits non-zero is reported as "COMMAND FAILED", which the worker's chain treats as a failure |
| Research.ExecZeroSucceeds | aeon/tools/research.py:38 | a command that exits with 0 is reported as "COMMAND SUCCESS" |
| Research.ExecTimeoutFails | aeon/tools/research.py:39-40 | a timed-out command is reported with "Error:", a failure for the chain |
| Research.ExecRaisedNotMarked | aeon/tools/research.py:41-42 | a `docker exec` that raises is a chain failure only if its message happens to contain "COMMAND FAILED": "Error running" never strips to "Error:" |
| Research.RaisedNotErrorMarked | aeon/tools/research.py:42 | the stripped "Error running docker exec: ..." text never begins with "Error:" |
| Research.Threads | aeon/tools/research.py:197 | `min(len(hypotheses), 10)`: at most the hypothesis count and 10, positive when there are hypotheses, and equal to the count up to 10 |
| Research.MemPerAgent | aeon/tools/research.py:195-198 | the division fails exactly when there are no hypotheses; otherwise the threads' shares add up to 80% of the memory |
| Research.InitialProgress | aeon/tools/research.py:200 | every hypothesis name starts at iteration 0 of the maximum with status "Queued", and no other name is present |
| Research.BarShape | aeon/tools/research.py:232-234 | for `0 <= cur <= mx` the bar has exactly 20 cells, the first `floor(20 * cur / mx)` full and the rest empty; with `mx = 0` none is full |
| Research.BarCells | aeon/tools/research.py:234 | a full-cell count between 0 and 20 gives 20 cells with the full ones first |
| Research.FilledBounds | aeon/tools/research.py:233 | for a positive maximum the full-cell count is `floor(20 * cur / mx)` |
| Research.BarPastMax | aeon/tools/research.py:232-234 | past its maximum the bar has no empty cells and at least 20 full ones; iteration M+1 of a maximum of at most 20 draws more than 20 cells |
| Research.KeptTools | aeon/tools/research.py:123-128 | every kept tool is a loaded tool the filter allows, and every allowed loaded tool is kept |
| Research.Registry | build/lib/aeon/core/worker.py:39-41 | registering a tool list maps exactly the tools' names, each to a tool of that name |
| Research.LabToolSet | aeon/tools/research.py:123-145 | the sub-agent's registry holds the allowed loaded tools plus the container `run_command`, `submit_findings` and the lab `write_file`, and none of the excluded tools |
| Research.KeptRegistry | aeon/tools/research.py:123-128 | the registry of the kept tools maps each allowed loaded name to its loaded tool |
| Research.LabRegistry | aeon/tools/research.py:130-145 | the lab's three tools are registered last, over whatever the loader supplied under their names |
| Research.RegisterLast | build/lib/aeon/core/worker.py:39-41 | registering one more tool puts it under its name over whatever was there |
| Research.ExcludedOutsideLab | aeon/tools/research.py:125-144 | no excluded name other than `run_command` is a lab tool, and the filter drops all of them |
| Research.RegistryValues | build/lib/aeon/core/worker.py:39-41 | every registered value is one of the listed tools |
| Research.ResearchToolList | aeon/tools/research.py:123-144 | the filtering loop builds exactly the lab tool list |
| Research.Register | build/lib/aeon/core/worker.py:39-41 | the registration loop builds exactly the registry |
| Research.CopiedItemsFilter | aeon/tools/research.py:73-83 | the copy takes only listed entries and never `.aeon_labs`; it takes every other file, and a directory exactly when it is neither heavy nor hidden |
| Research.AlnumOnly | aeon/tools/research.py:102 | the lab-id suffix is no longer than the name and holds only ASCII letters and digits |
| Research.AlnumOnlyAppend | aeon/tools/research.py:102 | the filter distributes over concatenation, so every letter and digit of the name is kept, in order |
| Research.AlnumOnlyKeepsAlnum | aeon/tools/research.py:102 | a name made only of ASCII letters and digits is kept whole |
| Research.JobCleanup | aeon/tools/research.py:110-187 | once the lab is up its container is gone afterwards and, unless the removal fails, its directory too; when setup raises no container is started and a directory it made stays behind; other labs are untouched |
| Research.AsWrittenNeverCompletes | aeon/tools/research.py:117-182 | with the calls as written no job ever completes: one whose lab comes up ends as "Error" with the `print_func` TypeError |
| Research.CompletesWhenSubmitted | aeon/tools/research.py:160-178 | with compatible calls a job is Complete with the submitted text exactly when the sub-agent's last step was `submit_findings`; otherwise Incomplete with "Timed out. Last action: ..." or "No report." |
| Research.JobName | aeon/tools/research.py:100-182 | a job reports its hypothesis's name however it ends |
| Research.StripPadded | aeon/tools/research.py:262 | surrounding a text with a space and a newline does not change its strip |
| Research.FindSummaryMark | aeon/tools/research.py:258-260 | the first "SUMMARY:" in the findings text is the one the tool wrote at line 52 |
| Research.FindDetailsMark | aeon/tools/research.py:262 | in the findings body the first "DETAILS:" is the one after the summary line, when the summary holds none |
| Research.FindingsSummaryRoundTrip | aeon/tools/research.py:255-263 | round trip: the summary extracted from `submit_findings`' text (line 52) is the submitted summary, stripped, whenever it holds no "DETAILS:" |
| Research.SummaryAfterMark | aeon/tools/research.py:258-260 | the findings text contains "SUMMARY:" and what follows its first occurrence is the findings body |
| Research.SummaryOf | aeon/tools/research.py:255-263 | the summary after the first "SUMMARY:" and before the next "DETAILS:", stripped; no contract of its own: FindingsSummaryRoundTrip states the round trip |
| Research.DetailsSplit | aeon/tools/research.py:262 | before the first "DETAILS:" of the body is exactly the padded summary line |
| Research.SubmittedFindingsComplete | aeon/tools/research.py:167-263 | a sub-agent that ends with `submit_findings` (line 52) makes its job Complete with that text, from which the submitted summary is read back |
| Research.Sections | aeon/tools/research.py:255-268 | two report lines per result, heading then report, in the order the results arrived |
| Research.BuildReport | aeon/tools/research.py:253-270 | the report loop yields the topic line and the sections joined by newlines |
| Research.ResultsFollowOrder | aeon/tools/research.py:246-250 | the k-th result belongs to the k-th job to complete |
| Research.RunJobs | aeon/tools/research.py:208-250 | the jobs one after another in completion order; no contract of its own: ResultsFollowOrder, CollectedNamed and OneSectionPerHypothesis state its results |
| Research.CollectedNamed | aeon/tools/research.py:246-250 | a collected result carries its hypothesis's name, whether the job returned or raised |
| Research.OneSectionPerHypothesis | aeon/tools/research.py:246-268 | the report opens with the topic line and has exactly one heading and report per hypothesis, each hypothesis at a distinct position |
| Research.ReportSections | aeon/tools/research.py:253-268 | results that follow a permutation of the hypotheses give one section per hypothesis |
| Research.SectionOf | aeon/tools/research.py:267-268 | hypothesis `i`'s section sits where the completion order puts its result |
| Research.SetupLab | aeon/tools/research.py:66-97 | `_setup_docker_lab` in place: the lab's handles or the error, and the sandbox the specification leaves |
| Research.SetupSpec | aeon/tools/research.py:66-97 | `_setup_docker_lab`: the lab's handles or the error, and the sandbox it leaves; no contract of its own: SetupLab is proved equal to it |
| Research.ResearchSpec | aeon/tools/research.py:115-178 | the part of `_run_researcher` after setup; no contract of its own: CompletesWhenSubmitted, AsWrittenNeverCompletes and SubmittedFindingsComplete state its outcome, and Research is proved equal to it |
| Research.JobSpec | aeon/tools/research.py:99-187 | `_run_researcher`: result, sandbox and last progress entry; no contract of its own: JobCleanup and JobName state its properties, and RunResearcher is proved equal to it |
| Research.Research | aeon/tools/research.py:115-178 | the part of `_run_researcher` after setup gives the specified outcome and writes only the job's progress entry |
| Research.RunResearcher | aeon/tools/research.py:99-187 | `_run_researcher` in place: result, sandbox and progress entry as specified |
| Research.Execute | aeon/tools/research.py:189-270 | no hypotheses raise the division error with the sandbox untouched; a hypothesis without a name raises before any job runs; otherwise results, sandbox and progress are those of the jobs run in completion order and the report is built from them |
| Loader.ResolvableNames | aeon/tools/loader.py:52-58 | exactly the names of the parameters other than `self`, `*args` and `**kwargs` |
| Loader.ResolveSucceedsIff | aeon/tools/loader.py:52-70 | a constructor's arguments resolve exactly when none of its resolvable parameters is both missing from the dependencies and without a default |
| Loader.Resolve | aeon/tools/loader.py:49-70 | the keyword arguments for a constructor, or none when a parameter is unmet; no contract of its own: ResolveSucceedsIff, ResolveInjects and UnmetPrefix state its result, and ResolveParams is proved equal to it |
| Loader.ResolveInjects | aeon/tools/loader.py:60-62 | the injected keys are exactly the resolvable parameter names that are dependency keys, each bound to that dependency |
| Loader.UnmetPrefix | aeon/tools/loader.py:63-68 | once an unmet parameter has been seen the class is skipped, whatever follows |
| Loader.ResolveParams | aeon/tools/loader.py:49-68 | the parameter loop raises `missing_deps` exactly when resolution fails, and otherwise builds the injected arguments |
| Loader.ClassTools | aeon/tools/loader.py:42-77 | a class contributes at most one tool |
| Loader.ModuleTools | aeon/tools/loader.py:42-77 | a module contributes at most one tool per class |
| Loader.ModuleToolsMembers | aeon/tools/loader.py:42-77 | a module's tools are exactly the instances built from its proper `BaseTool` subclasses whose arguments resolve and whose constructors succeed |
| Loader.ModuleToolsAppend | aeon/tools/loader.py:42 | the classes' tools concatenate in class order |
| Loader.ConstructorFailureSkipsOnlyThatTool | aeon/tools/loader.py:71-77 | a constructor that raises skips only its own class; the other classes load as before |
| Loader.PackageToolsAppend | aeon/tools/loader.py:35-81 | the modules' tools concatenate in module order, and a later failure propagates |
| Loader.ImportErrorIgnored | aeon/tools/loader.py:79-81 | a module that fails with ImportError is ignored as if absent |
| Loader.PrefixErrorPropagates | aeon/tools/loader.py:38-81 | an exception other than ImportError propagates out of the loader |
| Loader.PackageToolsMembers | aeon/tools/loader.py:35-83 | without other failures, the loaded tools are exactly those built from the buildable classes of the modules that imported |
| Loader.PackageTools | aeon/tools/loader.py:35-81 | the tools of a package's modules; no contract of its own: PackageToolsAppend, ImportErrorIgnored, PrefixErrorPropagates and PackageToolsMembers state its result |
| Loader.Load | aeon/tools/loader.py:10-83 | `load_tools_from_directory` with `None` dependencies as `{}`; no contract of its own: LoadToolsFromDirectory is proved equal to it |
| Loader.ScanModule | aeon/tools/loader.py:42-77 | the class loop yields exactly the module's tools |
| Loader.LoadToolsFromDirectory | aeon/tools/loader.py:10-83 | the loader yields the specified tools; a package that fails to import yields []; `None` dependencies behave as `{}` |
| SystemInfo.SignatureOf | build/lib/aeon/core/system_info.py:65-74 | a matched name's signature is a prefix and an extension of it: the extension starts at a dot, has at least one more character and no other dot, only digits lie between the two, and the prefix has no newline and does not end in a digit |
| SystemInfo.SignatureComplete | build/lib/aeon/core/system_info.py:65-70 | every name of the regex's shape has a signature, with that extension and a prefix no longer than the one given, since the lazy group takes the shortest |
| SystemInfo.Signatures | build/lib/aeon/core/system_info.py:69-74 | at most one signature per name |
| SystemInfo.Matching | build/lib/aeon/core/system_info.py:82 | only names that start with the prefix and end with the suffix, taken from the list |
| SystemInfo.Extensions | build/lib/aeon/core/system_info.py:94-96 | one extension per remaining file |
| SystemInfo.CountItems | build/lib/aeon/core/system_info.py:99 | one "count ext" item per extension |
| SystemInfo.SmartList | build/lib/aeon/core/system_info.py:51-102 | a note is produced exactly when the list is longer than 100; a long list shows at most ten names, all taken from the list |
| SystemInfo.MatchingCoversSignature | build/lib/aeon/core/system_info.py:82 | at least as many names match a signature as carry it |
| SystemInfo.MajorityPattern | build/lib/aeon/core/system_info.py:77-86 | when one signature covers more than half of a long list, the listing is the first three names matching it, and the note gives its count and the number of names not shown |
| SystemInfo.NoMajorityExtensions | build/lib/aeon/core/system_info.py:88-102 | otherwise the first ten names are shown, and the note counts each extension of the rest; those counts add up to the number of names not shown |
| SystemInfo.CountSignatures | build/lib/aeon/core/system_info.py:68-74 | the counting loop yields the signature tally |
| SystemInfo.CountExtensions | build/lib/aeon/core/system_info.py:93-96 | the counting loop yields the extension tally |
| SystemInfo.AnalyzeFileListSmart | build/lib/aeon/core/system_info.py:51-102 | the method returns the names and note of the smart listing |
| SystemInfo.VisibleFiles | build/lib/aeon/core/system_info.py:116 | the kept files are the input files that do not start with '.' |
| SystemInfo.VisibleDirs | build/lib/aeon/core/system_info.py:115 | the kept directories are the input directories whose name neither starts with "." nor is `__pycache__` |
| SystemInfo.Names | build/lib/aeon/core/system_info.py:116-117 | the names of the files, in order |
| SystemInfo.KeptDirs | build/lib/aeon/core/system_info.py:115-123 | the walk descends only into directories of the original list |
| SystemInfo.RemoveAll | build/lib/aeon/core/system_info.py:128 | removing a pattern never lengthens the string |
| SystemInfo.FileLines | build/lib/aeon/core/system_info.py:157-165 | one line per displayed file, with its size and time or "unable to get info" |
| SystemInfo.ListedNamesVisible | build/lib/aeon/core/system_info.py:116-151 | listed names are sorted and no dot-file is shown; strict mode shows the first n names and notes how many were omitted |
| SystemInfo.KeptDirsShape | build/lib/aeon/core/system_info.py:115-123 | the walk descends only into visible directories, in name order, and into at most the limit when one is set |
| SystemInfo.WalkLines | build/lib/aeon/core/system_info.py:112-170 | the lines the top-down walk writes for a directory and the visible subdirectories it descends into; no contract of its own: FileLines, ListedNamesVisible and KeptDirsShape state its parts |
| SystemInfo.GenerateTree | build/lib/aeon/core/system_info.py:104-173 | `_generate_tree_internal`: the timestamp line, then the walk from the start path; no contract of its own: Renderings states its three uses |
| SystemInfo.Renderings | build/lib/aeon/core/system_info.py:180-198 | the three attempts are plain, at most 10 files per directory, and at most 10 files and 10 directories per directory |
| SystemInfo.CascadeFirstFit | build/lib/aeon/core/system_info.py:182-206 | the result is the first rendering shorter than 400,000 characters, or the critical message when none is; either way it is below the bound |
| SystemInfo.Cascade | build/lib/aeon/core/system_info.py:182-206 | the first rendering under the bound, else the critical message; no contract of its own: CascadeFirstFit states it |
| SystemInfo.DirectoryTreeStr | build/lib/aeon/core/system_info.py:175-206 | `get_directory_tree_str`; no contract of its own: Renderings and CascadeFirstFit state what it returns |
| FileAnalyzer.NewAnalyzer | build/lib/aeon/tools/analyzers/file_analyzer.py:70-76 | construction fails exactly for a missing path, with the "File not found" message; otherwise the analyzer holds that file, its size and its path |
| FileAnalyzer.ExtensionEndsName | build/lib/aeon/tools/analyzers/file_analyzer.py:75-76 | the lower-cased extension is empty, or a dot followed by no other dot that ends the lower-cased base name |
| FileAnalyzer.IndexOfSeparator | build/lib/aeon/tools/analyzers/file_analyzer.py:131 | the first '.', '_' or '-' of the name, or its length when it has none |
| FileAnalyzer.NameParts | build/lib/aeon/tools/analyzers/file_analyzer.py:131 | the split always yields at least one piece |
| FileAnalyzer.NamePartsLast | build/lib/aeon/tools/analyzers/file_analyzer.py:131 | several pieces exactly when the name holds a separator; the last piece is a separator-free tail of the name, right after a separator when there are several |
| FileAnalyzer.LastPartEnds | build/lib/aeon/tools/analyzers/file_analyzer.py:131-132 | the split's last piece is the name's separator-free tail, shorter than the name when there are several pieces |
| FileAnalyzer.TpmNameIff | build/lib/aeon/tools/analyzers/file_analyzer.py:131-132 | the TPM name test passes exactly for names ending in ".tpm", "_tpm" or "-tpm" |
| FileAnalyzer.HiddenFacts | build/lib/aeon/tools/analyzers/file_analyzer.py:96-117 | a binary hidden file is opaque; a text one shows its last 50 lines (all of them when it has fewer), a tail of its text, under a non-empty format; the read-error summary is never produced |
| FileAnalyzer.SummarizeHidden | build/lib/aeon/tools/analyzers/file_analyzer.py:96-117 | `_summarize_hidden_file`; no contract of its own: HiddenFacts and HiddenShape state its cases |
| FileAnalyzer.HiddenShape | build/lib/aeon/tools/analyzers/file_analyzer.py:102-115 | a readable hidden file shows the join of its last lines, the line count and a non-empty format |
| FileAnalyzer.JoinTailEnds | build/lib/aeon/tools/analyzers/file_analyzer.py:106-107 | the joined tail of the lines ends the joined lines |
| FileAnalyzer.RouteOrder | build/lib/aeon/tools/analyzers/file_analyzer.py:119-142 | empty files first, then hidden files (so a non-empty `.gitignore` is summarised as hidden), then names containing "readme" and `requirements.txt`; the TPM route needs a large extensionless TPM name; the mapped route uses the map's handler; binary and generic routes happen only for unmapped extensions, and generic only for readable text |
| FileAnalyzer.LargeTpmRoute | build/lib/aeon/tools/analyzers/file_analyzer.py:129-133 | a large extensionless file takes the TPM route exactly when its name ends in a separator and "tpm" |
| FileAnalyzer.RouteOf | build/lib/aeon/tools/analyzers/file_analyzer.py:119-142 | the branch `analyze` takes; no contract of its own: RouteOrder states the dispatch order |
| FileAnalyzer.RunHandler | build/lib/aeon/tools/analyzers/file_analyzer.py:136-138 | the mapped handler applied to the file; no contract of its own: HandlerNeverRaises states that it never raises and gives the marker only from the JSON handler |
| FileAnalyzer.RunRoute | build/lib/aeon/tools/analyzers/file_analyzer.py:122-142 | the summary of each branch before any upgrade; no contract of its own: RouteNeverRaises states that it never raises and gives the marker only through the JSON handler or the generic sniff |
| FileAnalyzer.Upgrade | build/lib/aeon/tools/analyzers/file_analyzer.py:143-147 | the marker becomes the structured-text summary, or the unrecognized-text one when that raises; other summaries are kept; no contract of its own: SummarizeNeverInternal states that the result is never the marker |
| FileAnalyzer.SummarizeAsWritten | build/lib/aeon/tools/analyzers/file_analyzer.py:119-147 | `analyze` as written: only the generic-text branch upgrades the marker; no contract of its own: SummarizeNeverRaises and JsonFallbackLeaksMarker state its properties |
| FileAnalyzer.JsonFallbackLeaksMarker | build/lib/aeon/tools/analyzers/file_analyzer.py:135-147 | as written, a readable `.json` file that is not JSON but sniffs as structured text comes back as the internal marker |
| FileAnalyzer.LeakOnTwoPairs | build/lib/aeon/tools/analyzers/file_analyzer.py:135-147 | any such file whose text is two lines of two letters each leaks the marker |
| FileAnalyzer.LeakWitness | build/lib/aeon/tools/analyzers/file_analyzer.py:135-147 | "data.json" holding "a b\nc d" leaks the marker |
| FileAnalyzer.SummarizeIntended | build/lib/aeon/tools/analyzers/file_analyzer.py:119-147 | the corrected summary, upgrading the marker on every route; no contract of its own: SummarizeNeverInternal and IntendedNeverRaises state its properties |
| FileAnalyzer.SummarizeNeverInternal | build/lib/aeon/tools/analyzers/file_analyzer.py:135-147 | with the upgrade applied on every route the marker never escapes, and the result differs from the as-written one only where that one is the marker |
| FileAnalyzer.UnrecognizedNotInternal | build/lib/aeon/tools/analyzers/file_analyzer.py:147 | the unrecognized-text summary is never the marker |
| FileAnalyzer.SummarizeNeverRaises | build/lib/aeon/tools/analyzers/file_analyzer.py:119-147 | `analyze` as written always produces a summary, and it is the internal marker only on the JSON handler's route |
| FileAnalyzer.IntendedNeverRaises | build/lib/aeon/tools/analyzers/file_analyzer.py:119-147 | the corrected summary always exists too |
| FileAnalyzer.RouteNeverRaises | build/lib/aeon/tools/analyzers/file_analyzer.py:122-142 | every route produces a summary, and the marker only for a readable file and only on the JSON or the generic route |
| FileAnalyzer.HandlerNeverRaises | build/lib/aeon/tools/analyzers/file_analyzer.py:136-138 | every handler of the map produces a summary, and the marker only from the JSON handler and for a readable file |
| FileAnalyzer.Analyze | build/lib/aeon/tools/analyzers/file_analyzer.py:70-153 | `analyze` as written: analysis fails exactly for a missing path |
| FileAnalyzer.AnalyzeReport | build/lib/aeon/tools/analyzers/file_analyzer.py:149-153 | the report of an existing file gives its base name, its size and the as-written summary, which is the internal marker only for a file the JSON handler received and is the empty-file summary for an empty file |
| FileAnalyzer.SummaryFacts | build/lib/aeon/tools/analyzers/file_analyzer.py:119-147 | every as-written summary exists, is the marker only on the JSON handler's route, and is the empty-file summary for an empty file |
| FileAnalyzer.AnalyzeIntended | build/lib/aeon/tools/analyzers/file_analyzer.py:119-153 | the corrected entry point fails exactly for a missing path |
| FileAnalyzer.AnalyzeIntendedReport | build/lib/aeon/tools/analyzers/file_analyzer.py:119-153 | the corrected report has the same name and size as the one as written, is never the marker, equals it wherever that one is not the marker, and is the empty-file summary for an empty file |
| HandlerTable.Spread | build/lib/aeon/tools/analyzers/file_analyzer.py:81-93 | one spread maps exactly its extensions to its handler |
| HandlerTable.DisplayLastWins | build/lib/aeon/tools/analyzers/file_analyzer.py:79-94 | the dict display holds exactly the listed extensions, each bound to the handler of the last spread listing it |
| HandlerTable.LastListingIs | build/lib/aeon/tools/analyzers/file_analyzer.py:79-94 | the handler an extension gets is that of the last spread listing it |
| HandlerTable.RoutedBy | build/lib/aeon/tools/analyzers/file_analyzer.py:79-94 | the handler map sends an extension to the last spread that lists it |
| HandlerTable.HandlerMapOverrides | build/lib/aeon/tools/analyzers/file_analyzer.py:44-93 | `.h5` and `.hdf5` are listed as opaque but go to the HDF5 handler |
| HandlerTable.HandlerMapText | build/lib/aeon/tools/analyzers/file_analyzer.py:80-82 | `.json` goes to the JSON handler, `.csv` and `.tsv` to the tabular one |
| HandlerTable.HandlerMapKeys | build/lib/aeon/tools/analyzers/file_analyzer.py:79-94 | the map knows exactly the extensions its spreads list |
| HandlerTable.RecordSetsAgree | build/lib/aeon/tools/analyzers/file_analyzer.py:46 | the record-based handler's structure extensions are exactly the ones the analyzer routes to it |
| TextHandlers.FilterSampleLines | build/lib/aeon/tools/analyzers/handlers/text.py:8-16 | the loop yields the filtered sample |
| TextHandlers.FilteredAppend | build/lib/aeon/tools/analyzers/handlers/text.py:8-16 | filtering a concatenation filters each part, so survivors keep their order |
| TextHandlers.FilteredMembers | build/lib/aeon/tools/analyzers/handlers/text.py:8-16 | the output is exactly the stripped forms of the surviving lines, never longer than the input; each output line is non-empty, does not start with '#', '!' or '//', and is not a rule of more than two characters drawn from '-_=#*' |
| TextHandlers.MeanAtLeastTwo | build/lib/aeon/tools/analyzers/handlers/text.py:28 | the mean is at least two exactly when the counts sum to at least twice their number |
| TextHandlers.LooksStructured | build/lib/aeon/tools/analyzers/handlers/text.py:27-31 | the table test: more than one line, a mean of at least two fields and a standard deviation below 0.5; no contract of its own: MeanAtLeastTwo, ConstantColumnsLookStructured and SingleFieldsNotStructured state when it passes |
| TextHandlers.ConstantColumnsLookStructured | build/lib/aeon/tools/analyzers/handlers/text.py:27-31 | several lines with the same number (at least two) of fields always pass as a table |
| TextHandlers.SingleFieldsNotStructured | build/lib/aeon/tools/analyzers/handlers/text.py:27-31 | lines of at most one field never pass as a table |
| TextHandlers.SummarizeUnrecognizedText | build/lib/aeon/tools/analyzers/handlers/text.py:37-56 | raises exactly for an unreadable file, because its open is unguarded; counts lines exactly for files of at most 50,000 bytes; samples the first 10 stripped lines; the format is never empty and never starts with a dot |
| TextHandlers.AnalyzeGenericText | build/lib/aeon/tools/analyzers/handlers/text.py:18-35 | `analyze_generic_text`; no contract of its own: GenericTextOutcomes and SniffSeesFirstLines state its outcomes |
| TextHandlers.GenericTextOutcomes | build/lib/aeon/tools/analyzers/handlers/text.py:18-35 | the sniff raises exactly for an unreadable file; it gives the structured marker exactly when the filtered first 100 lines look like a table; otherwise it gives the unrecognized summary |
| TextHandlers.SniffSeesFirstLines | build/lib/aeon/tools/analyzers/handlers/text.py:20-23 | readable files that agree on their first 100 lines are sniffed alike |
| TextHandlers.ProblemLinesSnoc | build/lib/aeon/tools/analyzers/handlers/text.py:72-74 | one more line adds its stripped form exactly when it mentions a keyword |
| TextHandlers.CollectProblemLines | build/lib/aeon/tools/analyzers/handlers/text.py:71-74 | the loop gathers exactly the distinct stripped lines that mention a problem keyword |
| TextHandlers.LowerTwice | build/lib/aeon/tools/analyzers/handlers/text.py:73 | lower-casing is idempotent |
| TextHandlers.ProblemCaseInsensitive | build/lib/aeon/tools/analyzers/handlers/text.py:68-73 | the keyword test ignores the case of the line |
| TextHandlers.SummarizeLogFile | build/lib/aeon/tools/analyzers/handlers/text.py:58-89 | an unreadable file gives the error summary; otherwise the line count, and problem lines that are exactly the stripped lines mentioning a keyword |
| TextHandlers.ShortLogHeadIsTail | build/lib/aeon/tools/analyzers/handlers/text.py:63-65 | a log of at most 20 lines has the same head and tail, and its lines together are its whole text |
| JsonHandler.SchemaIsShaped | build/lib/aeon/tools/analyzers/handlers/json.py:6-14 | from depth d, a schema is a tree of strings, one-element lists and dicts of height at most 6 - d |
| JsonHandler.GetJsonSchema | build/lib/aeon/tools/analyzers/handlers/json.py:6-14 | `get_json_schema`; no contract of its own: SchemaIsShaped, SchemaOfObject, SchemaOfOthers and SchemaIgnoresTail state its cases |
| JsonHandler.SchemaOfObject | build/lib/aeon/tools/analyzers/handlers/json.py:9-10 | a dict's schema is a dict with exactly its keys, each mapped to the schema of its value one level down |
| JsonHandler.SchemaOfOthers | build/lib/aeon/tools/analyzers/handlers/json.py:7-14 | past depth 5 the schema is "..."; a list's schema describes only its first item; an empty list gives "list[]"; a scalar gives its type name |
| JsonHandler.SchemaIgnoresTail | build/lib/aeon/tools/analyzers/handlers/json.py:11-12 | lists that agree on their first item have the same schema |
| JsonHandler.JsonOutcomes | build/lib/aeon/tools/analyzers/handlers/json.py:16-27 | a read failure gives "Could not parse JSON"; a document is shown in full up to 5 KiB and as a schema beyond; invalid UTF-8 or JSON gets exactly the generic sniff; the handler never raises |
| JsonHandler.SummarizeJson | build/lib/aeon/tools/analyzers/handlers/json.py:16-27 | `summarize_json`; no contract of its own: JsonOutcomes and LargeJsonSchemaShaped state its cases |
| JsonHandler.LargeJsonSchemaShaped | build/lib/aeon/tools/analyzers/handlers/json.py:22-23 | a large document's summary is a well-shaped schema of height at most 6 |
| Utility.NonText | build/lib/aeon/tools/analyzers/handlers/utility.py:20 | the non-text count never exceeds the chunk's length |
| Utility.NonTextZeroIff | build/lib/aeon/tools/analyzers/handlers/utility.py:20 | no non-text bytes exactly when every byte is printable ASCII, a tab, a line feed or a carriage return |
| Utility.RatioTest | build/lib/aeon/tools/analyzers/handlers/utility.py:21 | for a non-empty chunk the integer test equals the source's ratio test against 0.3 |
| Utility.BinaryEdgeCases | build/lib/aeon/tools/analyzers/handlers/utility.py:12-23 | an empty file is never binary; an unreadable non-empty file always is |
| Utility.IsLikelyBinary | build/lib/aeon/tools/analyzers/handlers/utility.py:12-23 | `is_likely_binary`; no contract of its own: BinaryEdgeCases, NulMeansBinary, PlainTextIsNotBinary and RatioTest state its cases |
| Utility.NulMeansBinary | build/lib/aeon/tools/analyzers/handlers/utility.py:18-19 | a NUL among the first 2048 bytes makes a readable file binary |
| Utility.PlainTextIsNotBinary | build/lib/aeon/tools/analyzers/handlers/utility.py:15-21 | a readable non-empty file whose first 2048 bytes are all text bytes is not binary |
| Utility.SummarizeEmpty | build/lib/aeon/tools/analyzers/handlers/utility.py:3-4 | the empty-file summary, whose format is the extension with its leading dots removed |
| Utility.SummarizeOpaque | build/lib/aeon/tools/analyzers/handlers/utility.py:6-10 | the opaque summary, whose format is the extension with its leading dots removed |
| Utility.FormatStripsDots | build/lib/aeon/tools/analyzers/handlers/utility.py:4 | the extension is a run of dots followed by the format, and the format does not start with a dot |
| SequenceHandlers.NonBlank | build/lib/aeon/tools/analyzers/handlers/sequence.py:18 | never more strings than given |
| SequenceHandlers.NonBlankMembers | build/lib/aeon/tools/analyzers/handlers/sequence.py:18-27 | the kept strings are exactly the members that do not strip to nothing |
| SequenceHandlers.Records | build/lib/aeon/tools/analyzers/handlers/sequence.py:18 | the non-blank pieces of a split; no contract of its own: RecordsFacts states its properties |
| SequenceHandlers.RecordsFacts | build/lib/aeon/tools/analyzers/handlers/sequence.py:18-36 | joining the split pieces with the delimiter gives back the content; there are at most one more records than delimiters; the records are exactly the non-blank pieces |
| SequenceHandlers.CifSections | build/lib/aeon/tools/analyzers/handlers/sequence.py:24 | at most one match per line |
| SequenceHandlers.SummarizeRecordBasedData | build/lib/aeon/tools/analyzers/handlers/sequence.py:6-46 | an unreadable file gives an error summary; a structure file gives a count without content; another record file gives a count and a sample |
| SequenceHandlers.StructureRecordCount | build/lib/aeon/tools/analyzers/handlers/sequence.py:15-32 | the record count of a structure file; no contract of its own: StructureOutcomes states its cases |
| SequenceHandlers.StructureOutcomes | build/lib/aeon/tools/analyzers/handlers/sequence.py:15-32 | SDF and PDB files count the non-blank pieces between their delimiters and report the delimiter; mmCIF counts its section lines; the other structure formats count non-blank lines and report "N/A" |
| SequenceHandlers.OtherRecordFiles | build/lib/aeon/tools/analyzers/handlers/sequence.py:34-44 | other record files are split on '$$$$'; the sample is the first two records, followed by the "...and more" marker exactly when there are more |
| SequenceHandlers.SampleTextFacts | build/lib/aeon/tools/analyzers/handlers/sequence.py:37-39 | up to two records are joined whole; beyond two, the first two are followed by the marker |
| SequenceHandlers.HeaderLines | build/lib/aeon/tools/analyzers/handlers/sequence.py:58-61 | never more headers than lines |
| SequenceHandlers.CollectHeaders | build/lib/aeon/tools/analyzers/handlers/sequence.py:58-61 | the loop keeps the first 20 header lines, stripped |
| SequenceHandlers.SummarizeSequenceFile | build/lib/aeon/tools/analyzers/handlers/sequence.py:48-85 | an unreadable file gives an error summary; a header list is never empty and holds at most 20 |
| SequenceHandlers.HeadersStart | build/lib/aeon/tools/analyzers/handlers/sequence.py:59-61 | every header starts with '>', or with '@' in a `.fastq` file |
| SequenceHandlers.SequenceOutcomes | build/lib/aeon/tools/analyzers/handlers/sequence.py:56-83 | a readable file lists the first 20 headers of its sample, or counts its non-blank lines when it has none; only `.fastq` files have '@' headers |
| SequenceHandlers.SequenceSeesOnlySample | build/lib/aeon/tools/analyzers/handlers/sequence.py:54 | files that agree on their first 1 MiB of text get the same summary |
| SequenceHandlers.ScanAnnotation | build/lib/aeon/tools/analyzers/handlers/sequence.py:90-107 | the loop keeps the first 20 directives and the first 5 feature lines of the first 50,000 lines, and counts every feature type in order of first occurrence |
| SequenceHandlers.WindowScanned | build/lib/aeon/tools/analyzers/handlers/sequence.py:93-95 | the loop stops at the end of the file or after the 50,000th line, having read exactly that window |
| SequenceHandlers.SummarizeGeneAnnotation | build/lib/aeon/tools/analyzers/handlers/sequence.py:87-118 | an unreadable file gives exactly the error summary |
| SequenceHandlers.ScanDirectives | build/lib/aeon/tools/analyzers/handlers/sequence.py:96-98 | every kept directive starts with "##" |
| SequenceHandlers.ScanData | build/lib/aeon/tools/analyzers/handlers/sequence.py:100-103 | every kept feature line is stripped and not blank |
| SequenceHandlers.ScanSizes | build/lib/aeon/tools/analyzers/handlers/sequence.py:96-107 | no more feature types than feature lines, and no more directives and feature lines together than lines |
| SequenceHandlers.GeneAnnotationFacts | build/lib/aeon/tools/analyzers/handlers/sequence.py:109-116 | at most 20 directives, each starting with "##"; at most 20 feature types, distinct, in descending order of count, each with its true count; none left out occurs more often than one kept; the counts add up to at most the number of feature lines |
| SequenceHandlers.TopFeatures | build/lib/aeon/tools/analyzers/handlers/sequence.py:113 | the 20 most common types are distinct, in descending order, each with its number of occurrences, and none left out occurs more often than one kept |
| SequenceHandlers.AnnotationSeesFirstLines | build/lib/aeon/tools/analyzers/handlers/sequence.py:93-95 | lines past the 50,000th do not change the summary |
| TabularHandlers.TruncateCellFacts | aeon/tools/analyzers/handlers/tabular.py:20 | a displayed cell is never longer than 100 characters; a shortened cell is exactly 100 long and keeps its first 97 characters; missing values and short cells are shown as they are |
| TabularHandlers.TruncateCell | aeon/tools/analyzers/handlers/tabular.py:20 | the displayed form of an object cell; no contract of its own: TruncateCellFacts and TruncateCellIdempotent state its properties |
| TabularHandlers.TruncateCellIdempotent | aeon/tools/analyzers/handlers/tabular.py:20-60 | shortening a displayed cell changes nothing |
| TabularHandlers.TruncateRow | aeon/tools/analyzers/handlers/tabular.py:19-20 | a row keeps its length, and only the cells of object columns are shortened |
| TabularHandlers.TruncateFrameFacts | aeon/tools/analyzers/handlers/tabular.py:19-60 | shortening keeps columns, types and rows, touches no cell outside an object column, and leaves no object cell longer than 100; shortening before or after taking the head gives the same frame |
| TabularHandlers.TruncateFrame | aeon/tools/analyzers/handlers/tabular.py:19-20 | every object cell shortened; no contract of its own: TruncateRow and TruncateFrameFacts state its properties |
| TabularHandlers.SummarizeTabular | aeon/tools/analyzers/handlers/tabular.py:7-34 | without pandas the file is opaque; with pandas an unreadable file gives "Pandas could not parse" |
| TabularHandlers.TabularOutcomes | aeon/tools/analyzers/handlers/tabular.py:11-29 | a file pandas reads gets a row count one less than its line count, the format "tsv" exactly for `.tsv` and "csv" otherwise, and at most five rows with object cells shortened |
| TabularHandlers.HeaderRowFrom | aeon/tools/analyzers/handlers/tabular.py:43-47 | the search gives 0 or the index of a header row among the first 200 lines, with no header row before it from where the search started |
| TabularHandlers.HeaderRowNone | aeon/tools/analyzers/handlers/tabular.py:43-47 | with no header row before the scan limit the search gives 0 |
| TabularHandlers.HeaderRowFinds | aeon/tools/analyzers/handlers/tabular.py:43-47 | with a header row ahead, the search stops at the first one, at or before it |
| TabularHandlers.HeaderRowFacts | aeon/tools/analyzers/handlers/tabular.py:40-47 | the scan finds the first header row among the first 200 lines, and gives 0 when there is none |
| TabularHandlers.HeaderRow | aeon/tools/analyzers/handlers/tabular.py:40-47 | the row `read_csv` starts from; no contract of its own: HeaderRowFrom, HeaderRowNone, HeaderRowFinds and HeaderRowFacts state its result, and ScanHeader is proved equal to it |
| TabularHandlers.ScanHeader | aeon/tools/analyzers/handlers/tabular.py:42-47 | the loop yields the header row |
| TabularHandlers.SummarizeStructuredText | aeon/tools/analyzers/handlers/tabular.py:36-72 | without pandas the file is opaque; an unreadable file raises the ValueError; every frame returned has more than one column |
| TabularHandlers.StructuredOutcomes | aeon/tools/analyzers/handlers/tabular.py:40-72 | a pandas failure is re-raised as ValueError; a one-column frame raises; a summary carries the line count and a row count leaving out the skipped rows and the header, at most five rows and a non-empty format; the table starts at the header row only when the text looks structured |
| TabularHandlers.SummarizeJsonl | aeon/tools/analyzers/handlers/tabular.py:74-89 | an unreadable file gives an error summary |
| TabularHandlers.JsonlOutcomes | aeon/tools/analyzers/handlers/tabular.py:76-87 | a first line that is not JSON gives the decoder's error; otherwise every line is counted and the first record is described by a well-shaped schema |
| TabularHandlers.SummarizeTpm | aeon/tools/analyzers/handlers/tabular.py:109-130 | an unreadable file gives "Could not parse TPM file" |
| TabularHandlers.TpmOutcomes | aeon/tools/analyzers/handlers/tabular.py:112-128 | a blank first line gives the empty-TPM summary and nothing else does; otherwise the column count is at least one and the sample is the first min(10, count) fields, none empty |
| TabularHandlers.TpmFields | aeon/tools/analyzers/handlers/tabular.py:118-120 | a non-blank stripped line has at least one field, each non-empty, and the sample is a prefix of at most ten |
| TabularHandlers.SplitWhitespaceNonEmpty | aeon/tools/analyzers/handlers/tabular.py:118 | text that does not start with whitespace has at least one field |
| ArchiveHandler.FileListFacts | aeon/tools/analyzers/handlers/archive.py:19-26 | the listing has at most 51 entries: all names of an archive of at most 50 members, else its first 50 names followed by a marker whose count plus 50 is the number of members |
| ArchiveHandler.SummarizeArchive | aeon/tools/analyzers/handlers/archive.py:7-29 | an archive listing never exceeds 51 entries |
| ArchiveHandler.ArchiveOutcomes | aeon/tools/analyzers/handlers/archive.py:7-29 | the zip probe is consulted only for `.zip` files; otherwise the tar probe decides; a file neither recognises is opaque; a probe failure gives "Could not inspect archive"; the file count is the number of members read |
| Counting.TallyFacts | build/lib/aeon/core/system_info.py:68-74 | a Counter has distinct keys, each counted by its true positive number of occurrences; it knows exactly the elements seen, and its counts add up to the number of elements |
| Counting.Tally | build/lib/aeon/core/system_info.py:68-74 | `collections.Counter` built in insertion order; no contract of its own: TallyFacts and TallySnoc state its properties |
| Counting.TallySnoc | build/lib/aeon/core/system_info.py:69-74 | counting one more element bumps exactly that element's entry |
| Counting.MostCommon | build/lib/aeon/core/system_info.py:78 | `most_common(1)` picks an entry of the largest count, the first such in insertion order |
| Counting.MajorityIsMostCommon | build/lib/aeon/core/system_info.py:77-80 | a value occurring in more than half of the elements is the entry `most_common(1)` returns, with its count |
| Counting.NoMajority | build/lib/aeon/core/system_info.py:77-79 | when no value occurs in more than half, the most common entry fails the majority test too |
| Counting.MostCommonNFacts | build/lib/aeon/tools/analyzers/handlers/sequence.py:113 | `most_common(n)` keeps min(n, size) entries of the counter, in descending order of count, none left out counting more than one kept |
| Counting.MostCommonN | build/lib/aeon/tools/analyzers/handlers/sequence.py:113 | `most_common(n)`; no contract of its own: MostCommonNFacts states its properties |
| Counting.SortByCount | build/lib/aeon/tools/analyzers/handlers/sequence.py:113 | sorting by count is a permutation |
| Counting.SortByCountDescending | build/lib/aeon/tools/analyzers/handlers/sequence.py:113 | sorting by count leaves the entries in descending order of count |
| Paths.SplitExt | build/lib/aeon/tools/analyzers/file_analyzer.py:75 | `os.path.splitext` gives an empty extension, or a dot-led tail of the path holding no slash and no other dot |
| Paths.Basename | build/lib/aeon/tools/analyzers/file_analyzer.py:76 | `os.path.basename` is a slash-free tail of the path |
| Paths.SuffixInBasename | build/lib/aeon/tools/analyzers/file_analyzer.py:75-76 | every slash-free tail of the path ends the base name, so the extension ends the base name |
| Paths.RStripSlash | build/lib/aeon/tools/file_io.py:254 | stripping trailing slashes leaves a prefix that does not end in a slash, and is empty only for an all-slash path |
| Paths.PathSplit | build/lib/aeon/tools/file_io.py:254 | `os.path.split`: a slash-free tail that ends the path, and a head that is empty, the root or free of a trailing slash |
| Paths.Dirname | build/lib/aeon/tools/file_io.py:254 | `os.path.dirname` is the head of the split; no contract of its own: PathSplit states it |
| Paths.SplitFinal | build/lib/aeon/tools/file_io.py:256 | the split `os.makedirs` recurses on, taken again when the tail is empty; a non-empty tail comes with a strictly shorter head |
| Paths.HeadStaysAbsolute | build/lib/aeon/tools/file_io.py:254 | the head of an absolute path is absolute |
| Paths.FinalHeadStaysAbsolute | build/lib/aeon/tools/file_io.py:256 | the parent `makedirs` recurses on is absolute for an absolute path |
| Sorting.SortBy | build/lib/aeon/core/system_info.py:117-118 | sorting is a permutation |
| Sorting.SortBySorted | build/lib/aeon/core/system_info.py:117-118 | sorting leaves the names in order |
| Text.Strip | build/lib/aeon/tools/analyzers/handlers/text.py:11 | `str.strip` leaves no whitespace at either end |
| Text.StripIdempotent | build/lib/aeon/tools/analyzers/handlers/text.py:11 | stripping twice is stripping once |
| Text.Split | build/lib/aeon/tools/analyzers/handlers/sequence.py:18 | `str.split(sep)` always yields at least one piece |
| Text.SplitJoin | build/lib/aeon/tools/analyzers/handlers/sequence.py:18 | joining the pieces with the separator gives back the string |
| Text.SplitCount | build/lib/aeon/tools/analyzers/handlers/sequence.py:18-19 | there is one more piece than occurrences of the separator |
| Text.SplitWhitespace | build/lib/aeon/tools/analyzers/handlers/text.py:27 | `str.split()` yields only non-empty fields |
| Text.FileLines | build/lib/aeon/tools/analyzers/handlers/text.py:61 | `readlines` yields non-empty lines, each but the last ending in a newline, that join back to the text |
| Text.SplitLines | build/lib/aeon/tools/analyzers/handlers/sequence.py:56 | `str.splitlines` yields lines without line breaks |
| Text.UniversalNewlines | build/lib/aeon/tools/analyzers/handlers/text.py:20 | text mode leaves no carriage return and never lengthens the text |
| Text.NoCarriageReturnUnchanged | build/lib/aeon/tools/analyzers/handlers/text.py:20 | text without a carriage return reads the same with universal newlines |
| Text.Lower | build/lib/aeon/tools/analyzers/handlers/text.py:73 | lower-casing keeps the length and maps each character by itself, only ASCII capitals changing |

## Left out

- LLM transport and prompt text: the provider is an oracle that answers with content or raises, and prompts enter only as the text the retry loop extends or as a token estimate.
- The debug logging of the packaged client (`set_debug_path`, `set_iteration`, `_log_to_debug`) and the checkpoint client's `_load_reminders`/`_add_system_context`: they write files or format prompts and decide nothing.
- `reason` and `summarize_text` in both LLM clients: each is a single provider call whose only logic is the prompt.
- `setup_cloud` and the constructor of the packaged LLM client: they only store endpoints and keys.
- `aeon/core/llm.py` is not part of this model; the two modelled clients are `build/lib/aeon/core/llm.py` and the notebook checkpoint.
- The worker helpers that only format prompt text or touch files: `_load_directives`, `_get_tools_description`, `_format_open_files`, `_format_history`, `_save_objective` and `estimate_tokens`. `get_history`/`set_history` of the older copy are plain field access.
- `print_func` and `step_callback` of the packaged worker: output and progress callbacks with no effect on the worker's state.
- `while True` loops: a run consumes a finite script of per-iteration replies and ends with `ScriptExhausted` when the script runs out, which the source never does.
- KeyboardInterrupt is modelled only at the start of an iteration, not in the middle of a model or tool call.
- The regex fence stripping and `<think>` removal in front of the packaged client's JSON extraction are modelled as a given pre-pass on the reply.
- The JSON summary inside `open_file` (`_summarize_json`) is an oracle parameter, since it is `json.loads` plus `json.dumps` formatting.
- Research fan-out: the `ThreadPoolExecutor` and the ANSI dashboard are left out. Jobs run one after another in a given completion order, which is any permutation of the hypotheses.
- docker, `shutil` and the filesystem of the research tool are handles in a sandbox value. A kill or rmtree removes the handle.
- Research.MemPerAgent: psutil's memory size is a parameter, and the quota is computed as an exact real instead of a float.
- Research.BarShape: the progress bar's float truncation is taken as the exact floor of `20 * cur / mx`, which can differ from the float at exact boundaries.
- TextHandlers.LooksStructured: `statistics.mean` and `stdev` are compared as exact rationals (the stdev test is stated on the variance). Over at most 100 counts, float rounding cannot change either comparison.
- pandas, numpy, Bio, h5py, PyMuPDF and nbformat: the tabular and structured-text readers are given functions. The code, notebook, PDF, NumPy and HDF5 handlers are delegated results.
- `os.walk` and `os.stat` become an abstract directory tree with per-file stats. The walk's top-down order and the in-place pruning of `dirs` are modelled by recursion over the kept sub-directories.
- `get_system_specs` and `get_runtime_info` (platform, psutil and NVML readings) are left out: they only format hardware readings.
- SystemInfo.GenerateTree: the clock reading is a parameter, and each of the three renderings gets its own.
- SystemInfo.SignatureOf: the regex's `\d` is read as the ASCII digits 0-9, while a Python str pattern matches every Unicode decimal digit, so a name such as `img٣.png` gets a signature in Python and none here.
- SystemInfo.SignatureComplete: completeness is stated for names whose digit run is ASCII, for the same reason.
- Research.AlnumOnly: keeps ASCII letters and digits only, while `str.isalnum` keeps every Unicode letter and digit, so the lab-id suffix of `café` is `café` in Python and `caf` here.
- FileIo.OpenSpec: a file's UnicodeDecodeError is a property of the whole file, while the FASTA summary's `readline` calls decode only the chunks they read, so bad bytes far past the tenth line raise here and not in Python.
- FileIo.IsADirectory: the path in the IsADirectoryError text is quoted as-is, not with Python's `repr` escaping.
- AeonWorker.ApplyPlan: a dict-valued `updated_plan` raises the TypeError "unhashable type: 'slice'" of Python 3.6 to 3.11; from Python 3.12 slices are hashable and the same line raises a KeyError instead. The source stores the non-string value as the plan before the slice raises; the model's plan is a string, so the crashed state keeps the previous plan.
- FileIo.MakeDirs: the root always exists and is a directory, and `mkdir` never raises PermissionError or any error other than the three of a missing parent, a file in the way and a file parent; a PermissionError from `makedirs` would reach the `except PermissionError` branch, which is modelled only for the open.
- BuildWorker.ApplyPlan: when `updated_plan` is not a string the source stores it as the plan before `split` raises; the model's plan is a string, so the crashed state keeps the previous plan.
- Text.Lower: lower-cases ASCII letters only; other characters are left as they are, unlike Python's full Unicode `str.lower`.
- Loop features that some descriptions of the agent mention (chain-level retry with feedback, stuck detection, milestone lists, tiered history rendering) do not exist in either `Worker` copy. The model follows the code and leaves them out.

## Findings

| source | as written | input that shows it | evidently intended | confidence | as-written member | corrected member |
|---|---|---|---|---|---|---|
| aeon/tools/research.py:117 | `_run_researcher` constructs the `aeon/core/worker.py` `Worker` with `print_func=`, passes `verbose=` to the loader (line 121) and calls `run` with `max_iterations`, `step_callback` and `terminal_tools` (line 160). None of these signatures accepts those arguments, so the TypeError is caught and every job whose lab starts ends with status "Error". | any hypothesis whose lab starts | the sub-agent runs and completes with its submitted summary when its last action is `submit_findings` | not executed | Research.AsWrittenNeverCompletes | Research.CompletesWhenSubmitted |
| build/lib/aeon/tools/analyzers/file_analyzer.py:136-147 | only the generic-text route upgrades the internal `_structured_text_internal` marker. The JSON handler falls back to the same generic sniff for a file that is not JSON, so `analyze` returns the internal marker itself. | a file `data.json` holding `a b\nc d` | the marker is upgraded to the structured-text summary, or to the unrecognized-text summary, on every route, so that the report is never the marker (proved by AnalyzeIntendedReport and SummarizeNeverInternal) | not executed | FileAnalyzer.LeakWitness | FileAnalyzer.AnalyzeIntended |
| build/lib/aeon/core/worker.py:164-170 | the packaged worker calls `get_plan(system_context=..., user_objective=..., history_str=..., current_plan=..., last_observation=...)` and `get_action(system_context=..., plan=..., suggestion=..., open_files_context=...)` (lines 196-201), while the packaged client it is given (`build/lib/aeon/main.py:26-30`) defines `get_plan(self, prompt, max_retries=3)` and `get_action(self, prompt, max_retries=3)` (`build/lib/aeon/core/llm.py:127, 165`). Every uninterrupted iteration raises a TypeError at the planner call, which ends `run`. | any run whose first iteration is not interrupted | the planner and executor are consulted with the worker's context, as with a client that takes those keywords | not executed | BuildWorker.PackagedRunCrashes | BuildWorker.KeywordClientConsults |
