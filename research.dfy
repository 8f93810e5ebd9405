/**
 * The deterministic parts of `ConductResearchTool`: the results of the two
 * tools a sub-agent gets, the thread cap and memory quota, the progress bar,
 * the sub-agent's tool set, the workspace copy, the status decision, the
 * cleanup over container and workspace handles, and the final report.
 *
 * Containers and lab directories are handles in a `Sandbox` value: starting a
 * container adds its name, `docker kill` removes it, `shutil.rmtree` removes
 * a lab directory. The sub-agent's run, the loader's result, the uuid and the
 * faults of the shell commands are parameters of each job.
 */
module Research {
  import opened Wrappers
  import opened Text
  import opened History
  import BuildWorker

  // ---------------------------------------------------------------------------
  // The sub-agent's tools

  const SummaryMark := "SUMMARY:"
  const DetailsMark := "DETAILS:"
  const SubmittedLine := "Findings Submitted.\n"

  /** What `submit_findings` returns: a fixed first line, the summary mark, then the body. */
  function FindingsText(findings: string, summary: string): string {
    SubmittedLine + SummaryMark + FindingsBody(findings, summary)
  }

  /** The text after "SUMMARY:": the summary, then the details mark and the findings on their own lines. */
  function FindingsBody(findings: string, summary: string): string {
    " " + summary + "\n" + DetailsMark + "\n" + findings
  }

  /** How the `docker exec` subprocess ended. */
  datatype ExecOutcome =
    | Exited(code: int, stdout: string, stderr: string)
    | TimedOut
    | Raised(error: string)

  /** The start of the text of a `docker exec` that raised. */
  const RaisedHead := "Error running docker exec:"

  /** What the container's `run_command` returns. */
  function ExecText(timeout: int, outcome: ExecOutcome): string {
    match outcome
    case Exited(code, out, err) =>
      if code != 0 then BuildWorker.FailedMark + " (Exit Code " + IntToString(code) + ")\n\nOUTPUT:\n" + out + err
      else "COMMAND SUCCESS\n\nOUTPUT:\n" + out + err
    case TimedOut => BuildWorker.ErrorMark + " Command timed out after " + IntToString(timeout) + " seconds."
    case Raised(e) => RaisedHead + " " + e
  }

  /** A command that exits non-zero is a failure for the worker's chain. */
  lemma {:induction false} ExecNonZeroFails(timeout: int, code: int, out: string, err: string)
    requires code != 0
    ensures BuildWorker.FailureMarked(ExecText(timeout, Exited(code, out, err)))
  {
    var m := BuildWorker.FailedMark;
    var h := m + " (Exit Code " + IntToString(code);
    ConcatAffixes(m, " (Exit Code ");
    StartsWithLonger(m + " (Exit Code ", IntToString(code), m);
    StartsWithLonger(h, ")\n\nOUTPUT:\n", m);
    StartsWithLonger(h + ")\n\nOUTPUT:\n", out, m);
    StartsWithLonger(h + ")\n\nOUTPUT:\n" + out, err, m);
    BuildWorker.FailedMarkMarks(ExecText(timeout, Exited(code, out, err)));
  }

  /** A command that exits with 0 is reported as a success. */
  lemma {:induction false} ExecZeroSucceeds(timeout: int, out: string, err: string)
    ensures StartsWith(ExecText(timeout, Exited(0, out, err)), "COMMAND SUCCESS")
  {
    ConcatAffixes("COMMAND SUCCESS", "\n\nOUTPUT:\n" + out + err);
    assert ExecText(timeout, Exited(0, out, err)) == "COMMAND SUCCESS" + ("\n\nOUTPUT:\n" + out + err);
  }

  /** A timed-out command is a failure for the worker's chain. */
  lemma {:induction false} ExecTimeoutFails(timeout: int)
    ensures BuildWorker.FailureMarked(ExecText(timeout, TimedOut))
  {
    var m := BuildWorker.ErrorMark;
    ConcatAffixes(m, " Command timed out after ");
    StartsWithLonger(m + " Command timed out after ", IntToString(timeout), m);
    StartsWithLonger(m + " Command timed out after " + IntToString(timeout), " seconds.", m);
    BuildWorker.ErrorMarkMarks(ExecText(timeout, TimedOut));
  }

  /**
   * A command that could not be run at all is a failure only if its error
   * text happens to contain "COMMAND FAILED": "Error running" does not begin
   * with "Error:", even after stripping.
   */
  lemma {:induction false} ExecRaisedNotMarked(timeout: int, e: string)
    ensures BuildWorker.FailureMarked(ExecText(timeout, Raised(e))) <==> Contains(ExecText(timeout, Raised(e)), "COMMAND FAILED")
  {
    RaisedNotErrorMarked(e);
  }

  /** Stripped, the text of a raised `docker exec` still begins "Error running", so not "Error:". */
  lemma RaisedNotErrorMarked(e: string)
    ensures !StartsWith(Strip(RaisedHead + " " + e), BuildWorker.ErrorMark)
  {
    assert RaisedHead[0] == 'E' && RaisedHead[5] == ' ' && RaisedHead[|RaisedHead| - 1] == ':';
    assert RaisedHead + " " + e == RaisedHead + (" " + e);
    EdgedNotErrorMarked(RaisedHead, " " + e);
  }

  /** A text that begins with a word of five letters, a space, and more up to a colon does not strip to "Error:…". */
  lemma EdgedNotErrorMarked(p: string, rest: string)
    requires |p| > 5 && p[0] == 'E' && p[5] == ' ' && p[|p| - 1] == ':'
    ensures !StartsWith(Strip(p + rest), BuildWorker.ErrorMark)
  {
    ConcatAffixes(p, rest);
    StripKeepsEdgedPrefix(p + rest, p);
    PrefixesClash(Strip(p + rest), p, BuildWorker.ErrorMark, 5);
  }

  // ---------------------------------------------------------------------------
  // Thread cap, memory quota and progress

  const MaxThreads: nat := 10

  /** `min(len(hypotheses), 10)`. */
  function Threads(n: nat): (t: nat)
    ensures t <= n && t <= MaxThreads
    ensures n > 0 ==> t > 0
    ensures n <= MaxThreads ==> t == n
  {
    if n < MaxThreads then n else MaxThreads
  }

  const DivisionByZero := "float division by zero"

  /**
   * Memory per agent in GB: 80% of the machine's memory shared among the
   * threads; no hypotheses make the division fail.
   */
  function MemPerAgent(totalGb: real, n: nat): (r: Result<real>)
    ensures n == 0 <==> r.Err?
    ensures r.Err? ==> r.error == DivisionByZero
    ensures r.Ok? ==> r.value * Threads(n) as real == totalGb * 0.8
  {
    if n == 0 then Err(DivisionByZero) else Ok(totalGb * 0.8 / Threads(n) as real)
  }

  /** One entry of the progress dictionary. */
  datatype Progress = Progress(iter: int, max: int, status: string)

  /** The progress dictionary before any job starts. */
  function InitialProgress(names: seq<string>, iterations: int): (m: map<string, Progress>)
    ensures m.Keys == set i | 0 <= i < |names| :: names[i]
    ensures forall n :: n in m ==> m[n] == Progress(0, iterations, "Queued")
  {
    map n | n in names :: Progress(0, iterations, "Queued")
  }

  const BarLength: nat := 20

  /**
   * `int((cur / mx) * 20)` for `mx > 0`, truncated toward zero as `int`
   * does, and 0 otherwise; exact arithmetic stands for the float one.
   */
  function Filled(cur: int, mx: int): int {
    if mx <= 0 then 0
    else if cur >= 0 then cur * BarLength / mx
    else -((-cur) * BarLength / mx)
  }

  /** The bar: `filled` full cells then `20 - filled` empty ones (`"x" * k` is "" for `k <= 0`). */
  function Bar(cur: int, mx: int): string {
    Repeat('█', Filled(cur, mx)) + Repeat('░', BarLength - Filled(cur, mx))
  }

  /**
   * For `0 <= cur <= mx` the bar is exactly 20 cells: the first
   * `floor(20 * cur / mx)` full and the rest empty; with no maximum it is empty.
   */
  lemma {:induction false} BarShape(cur: int, mx: int)
    requires 0 <= cur <= mx
    ensures var b := Bar(cur, mx); var f := Filled(cur, mx);
      |b| == BarLength && 0 <= f <= BarLength
      && (mx > 0 ==> f * mx <= cur * BarLength < (f + 1) * mx)
      && (mx == 0 ==> f == 0)
      && (forall i :: 0 <= i < |b| ==> (b[i] == '█' <==> i < f) && (b[i] == '░' <==> i >= f))
  {
    var f := Filled(cur, mx);
    if mx > 0 {
      FilledBounds(cur, mx);
      assert f * mx <= BarLength * mx;
      CancelLe(f, BarLength, mx);
    }
    BarCells(f);
  }

  /** A count of full cells between 0 and 20 gives 20 cells, the full ones first. */
  lemma {:induction false} BarCells(f: int)
    requires 0 <= f <= BarLength
    ensures var b := Repeat('█', f) + Repeat('░', BarLength - f);
      |b| == BarLength
      && forall i :: 0 <= i < |b| ==> (b[i] == '█' <==> i < f) && (b[i] == '░' <==> i >= f)
  {
    var full := Repeat('█', f);
    var empty := Repeat('░', BarLength - f);
    var b := full + empty;
    forall i | 0 <= i < |b|
      ensures (b[i] == '█' <==> i < f) && (b[i] == '░' <==> i >= f)
    {
      if i < f {
        assert b[i] == full[i];
      } else {
        assert b[i] == empty[i - f];
      }
    }
  }

  /** For a non-negative count and a positive maximum, the full cells are `floor(20 * cur / mx)`. */
  lemma {:induction false} FilledBounds(cur: int, mx: int)
    requires 0 <= cur && 0 < mx
    ensures Filled(cur, mx) >= 0
    ensures Filled(cur, mx) * mx <= cur * BarLength < (Filled(cur, mx) + 1) * mx
  {
    DivBounds(cur * BarLength, mx);
  }

  /** Euclidean division by a positive divisor brackets the dividend. */
  lemma {:induction false} DivBounds(x: int, m: int)
    requires 0 <= x && 0 < m
    ensures x / m >= 0
    ensures (x / m) * m <= x < (x / m + 1) * m
  {
    var q, r := x / m, x % m;
    assert x == q * m + r && 0 <= r < m;
    assert (q + 1) * m == q * m + m;
  }

  lemma {:induction false} CancelLe(a: int, b: int, m: int)
    requires 0 < m && a * m <= b * m
    ensures a <= b
  {
    if a > b {
      assert a * m - b * m == (a - b) * m;
      MulPositive(a - b, m);
    }
  }

  lemma {:induction false} CancelLt(a: int, b: int, m: int)
    requires 0 < m && a * m < b * m
    ensures a < b
  {
    if a >= b {
      assert a * m - b * m == (a - b) * m;
      if a > b {
        MulPositive(a - b, m);
      }
    }
  }

  lemma {:induction false} MulPositive(x: int, y: int)
    requires 0 < x && 0 < y
    ensures 0 < x * y
  {
  }

  /**
   * Past its maximum the bar has no empty cells and at least 20 full ones;
   * iteration M+1 of a maximum M of at most 20 (the build worker reports
   * M+1 before its forced final step) draws a bar longer than 20 cells.
   */
  lemma {:induction false} BarPastMax(cur: int, mx: int)
    requires 0 < mx < cur
    ensures Filled(cur, mx) >= BarLength && |Bar(cur, mx)| == Filled(cur, mx)
    ensures cur == mx + 1 && mx <= BarLength ==> |Bar(cur, mx)| > BarLength
  {
    var f := Filled(cur, mx);
    FilledBounds(cur, mx);
    assert BarLength * mx < (f + 1) * mx;
    CancelLt(BarLength, f + 1, mx);
    if cur == mx + 1 && mx <= BarLength {
      assert (BarLength + 1) * mx <= cur * BarLength;
      assert (BarLength + 1) * mx < (f + 1) * mx;
      CancelLt(BarLength + 1, f + 1, mx);
    }
  }

  // ---------------------------------------------------------------------------
  // The sub-agent's tool set

  /** A tool the sub-agent may be given: one from the loader, or one of the lab's own. */
  datatype Tool =
    | Loaded(toolName: string)
    | ContainerShell(container: string)
    | SubmitFindings
    | LabWrite(hostPath: string)
  {
    function Name(): string {
      match this
      case Loaded(n) => n
      case ContainerShell(_) => "run_command"
      case SubmitFindings => "submit_findings"
      case LabWrite(_) => "write_file"
    }
  }

  /** Loaded tools a sub-agent never gets. */
  const Excluded: seq<string> :=
    ["conduct_research", "dispatch_subtasks", "run_command", "say_to_user", "get_user_input", "task_complete"]

  /** The names the lab's own tools take. */
  const LabNames: set<string> := {"run_command", "submit_findings", "write_file"}

  predicate Keeps(name: string) {
    name !in Excluded && name != "write_file"
  }

  /** The loaded tools the filter keeps, in order. */
  function KeptTools(loaded: seq<string>): (r: seq<Tool>)
    ensures forall k :: 0 <= k < |r| ==> r[k].Loaded? && r[k].toolName in loaded && Keeps(r[k].toolName)
    ensures forall n :: n in loaded && Keeps(n) ==> Loaded(n) in r
  {
    if |loaded| == 0 then []
    else
      var last := loaded[|loaded| - 1];
      var r := KeptTools(loaded[..|loaded| - 1]) + (if Keeps(last) then [Loaded(last)] else []);
      assert forall n :: n in loaded ==> n in loaded[..|loaded| - 1] || n == last;
      r
  }

  /** The list `register_tools` receives. */
  function LabTools(loaded: seq<string>, lab: LabInfo): seq<Tool> {
    KeptTools(loaded) + [ContainerShell(lab.container), SubmitFindings, LabWrite(lab.hostPath)]
  }

  /** `register_tools` into an empty registry: each tool under its name, a later one replacing an earlier. */
  function Registry(tools: seq<Tool>): (reg: map<string, Tool>)
    ensures reg.Keys == set k | 0 <= k < |tools| :: tools[k].Name()
    ensures forall n :: n in reg ==> reg[n].Name() == n
  {
    if |tools| == 0 then map[]
    else
      var last := tools[|tools| - 1];
      var reg := Registry(tools[..|tools| - 1])[last.Name() := last];
      assert forall k :: 0 <= k < |tools| - 1 ==> tools[..|tools| - 1][k] == tools[k];
      reg
  }

  /**
   * The sub-agent's registry: every kept loaded tool under its own name, the
   * container's `run_command`, `submit_findings` and the lab's `write_file`
   * under theirs, and nothing else, so none of the excluded tools and neither
   * host tool is reachable.
   */
  lemma {:induction false} LabToolSet(loaded: seq<string>, lab: LabInfo)
    ensures var reg := Registry(LabTools(loaded, lab));
      reg.Keys == (set n | n in loaded && Keeps(n)) + LabNames
      && reg["run_command"] == ContainerShell(lab.container)
      && reg["submit_findings"] == SubmitFindings
      && reg["write_file"] == LabWrite(lab.hostPath)
      && (forall n :: n in reg && n !in LabNames ==> reg[n] == Loaded(n))
      && (forall n :: n in Excluded && n != "run_command" ==> n !in reg)
  {
    KeptRegistry(loaded);
    LabRegistry(loaded, lab);
    ExcludedOutsideLab();
  }

  /** The registry of the kept tools: each kept name, holding the loaded tool of that name. */
  lemma {:induction false} KeptRegistry(loaded: seq<string>)
    ensures var base := Registry(KeptTools(loaded));
      base.Keys == (set n | n in loaded && Keeps(n)) && forall n :: n in base ==> base[n] == Loaded(n)
  {
    var kept := KeptTools(loaded);
    var base := Registry(kept);
    forall n | n in base.Keys ensures n in loaded && Keeps(n) {
      var k :| 0 <= k < |kept| && kept[k].Name() == n;
    }
    forall n | n in loaded && Keeps(n) ensures n in base.Keys {
      var k :| 0 <= k < |kept| && kept[k] == Loaded(n);
    }
    forall n | n in base ensures base[n] == Loaded(n) {
      assert base[n].Name() == n;
      assert base[n] in kept by { RegistryValues(kept, n); }
    }
  }

  /** The lab's three tools are registered last, over whatever the loader supplied under their names. */
  lemma {:induction false} LabRegistry(loaded: seq<string>, lab: LabInfo)
    ensures Registry(LabTools(loaded, lab))
         == Registry(KeptTools(loaded))["run_command" := ContainerShell(lab.container)]
              ["submit_findings" := SubmitFindings]["write_file" := LabWrite(lab.hostPath)]
  {
    var kept := KeptTools(loaded);
    var a, b, c := ContainerShell(lab.container), SubmitFindings, LabWrite(lab.hostPath);
    assert LabTools(loaded, lab) == kept + [a] + [b] + [c];
    RegisterLast(kept, a);
    RegisterLast(kept + [a], b);
    RegisterLast(kept + [a] + [b], c);
  }

  /** Registering one more tool puts it under its name over whatever was there. */
  lemma {:induction false} RegisterLast(tools: seq<Tool>, x: Tool)
    ensures Registry(tools + [x]) == Registry(tools)[x.Name() := x]
  {
    assert (tools + [x])[..|tools|] == tools;
  }

  /** No excluded name but `run_command` is one of the lab's names, and the filter drops all of them. */
  lemma {:induction false} ExcludedOutsideLab()
    ensures forall n :: n in Excluded && n != "run_command" ==> n !in LabNames && !Keeps(n)
  {
    forall n | n in Excluded && n != "run_command"
      ensures n !in LabNames
    {
      var k :| 0 <= k < |Excluded| && Excluded[k] == n;
      assert k != 2;
      assert Excluded[k][0] != 's' || |Excluded[k]| != 15;
      assert Excluded[k][0] != 'w';
    }
  }

  /** Every value of a registry is one of the registered tools. */
  lemma {:induction false} RegistryValues(tools: seq<Tool>, n: string)
    requires n in Registry(tools)
    ensures Registry(tools)[n] in tools
  {
    if |tools| > 0 && tools[|tools| - 1].Name() != n {
      RegistryValues(tools[..|tools| - 1], n);
    }
  }

  /** The loop that keeps the allowed loaded tools and appends the lab's own. */
  method ResearchToolList(loaded: seq<string>, lab: LabInfo) returns (tools: seq<Tool>)
    ensures tools == LabTools(loaded, lab)
  {
    tools := [];
    var i := 0;
    while i < |loaded|
      invariant 0 <= i <= |loaded|
      invariant tools == KeptTools(loaded[..i])
    {
      assert loaded[..i + 1][..i] == loaded[..i];
      if Keeps(loaded[i]) {
        tools := tools + [Loaded(loaded[i])];
      }
      i := i + 1;
    }
    assert loaded[..i] == loaded;
    tools := tools + [ContainerShell(lab.container), SubmitFindings, LabWrite(lab.hostPath)];
  }

  /** `register_tools` on the sub-worker's empty registry. */
  method Register(tools: seq<Tool>) returns (reg: map<string, Tool>)
    ensures reg == Registry(tools)
  {
    reg := map[];
    var i := 0;
    while i < |tools|
      invariant 0 <= i <= |tools|
      invariant reg == Registry(tools[..i])
    {
      assert tools[..i + 1][..i] == tools[..i];
      reg := reg[tools[i].Name() := tools[i]];
      i := i + 1;
    }
    assert tools[..i] == tools;
  }

  // ---------------------------------------------------------------------------
  // The lab: workspace copy, container, cleanup

  /** An entry of the working directory. */
  datatype Item = Item(name: string, isDir: bool)

  const HeavyDirs: set<string> :=
    {"node_modules", "venv", ".git", "__pycache__", "data", "target", "build", "dist", "site-packages", ".aeon_labs"}

  /** Whether the workspace copy copies an entry. */
  predicate Copied(item: Item) {
    item.name != ".aeon_labs" && (!item.isDir || (item.name !in HeavyDirs && !StartsWith(item.name, ".")))
  }

  /**
   * The entries the copy takes, in order: every file (but `.aeon_labs`) and
   * the directories that are neither heavy nor hidden.
   */
  function CopiedItems(items: seq<Item>): seq<Item> {
    if |items| == 0 then []
    else
      var last := items[|items| - 1];
      CopiedItems(items[..|items| - 1]) + (if Copied(last) then [last] else [])
  }

  /** What the copy takes is exactly the entries of the listing that pass the filter. */
  lemma {:induction false} CopiedItemsFilter(items: seq<Item>)
    ensures var r := CopiedItems(items);
      (forall k :: 0 <= k < |r| ==> r[k] in items && r[k].name != ".aeon_labs")
      && (forall k :: 0 <= k < |r| ==> r[k].isDir ==> r[k].name !in HeavyDirs && !StartsWith(r[k].name, "."))
      && (forall it :: it in items && !it.isDir && it.name != ".aeon_labs" ==> it in r)
      && (forall it :: it in items && it.isDir && it.name !in HeavyDirs && !StartsWith(it.name, ".") ==> it in r)
  {
    if |items| > 0 {
      var init := items[..|items| - 1];
      var last := items[|items| - 1];
      CopiedItemsFilter(init);
      var p := CopiedItems(init);
      var r := CopiedItems(items);
      assert r == p + (if Copied(last) then [last] else []);
      assert forall it :: it in items ==> it in init || it == last;
      assert forall it :: it in init ==> it in items;
      forall k | 0 <= k < |r|
        ensures r[k] in items && r[k].name != ".aeon_labs"
        ensures r[k].isDir ==> r[k].name !in HeavyDirs && !StartsWith(r[k].name, ".")
      {
        if k < |p| {
          assert r[k] == p[k];
        } else {
          assert r[k] == last;
        }
      }
    }
  }

  /** The lab handles: host directories under `.aeon_labs` with what they hold, and running containers. */
  datatype Sandbox = Sandbox(labs: map<string, seq<Item>>, containers: set<string>)

  /** What `_setup_docker_lab` returns. */
  datatype LabInfo = LabInfo(container: string, hostPath: string)

  /**
   * Where `_setup_docker_lab` raises: `os.makedirs`, the copy of entry `at`
   * (no fault when that entry is not copied or does not exist), or `docker run`.
   */
  datatype SetupFault = NoFault | MakedirsFails(error: string) | CopyFails(at: nat, error: string) | RunFails(error: string)

  /** The directory listing, the machine's `abspath`, the iteration limit and which worker and loader are called. */
  datatype Env = Env(abspath: string -> string, items: seq<Item>, iterations: int, api: Api)

  function ContainerOf(labId: string): string {
    "aeon_lab_" + labId
  }

  function LabDir(env: Env, labId: string): string {
    env.abspath(".aeon_labs/" + labId)
  }

  predicate CopyFault(items: seq<Item>, fault: SetupFault) {
    fault.CopyFails? && fault.at < |items| && Copied(items[fault.at])
  }

  /** `_setup_docker_lab`: the lab's handles or the error, and the sandbox it leaves. */
  function SetupSpec(sb: Sandbox, env: Env, labId: string, fault: SetupFault): (Result<LabInfo>, Sandbox) {
    var dir := LabDir(env, labId);
    var labs := sb.labs - {dir};
    if fault.MakedirsFails? then (Err(fault.error), Sandbox(labs, sb.containers))
    else if CopyFault(env.items, fault) then
      (Err(fault.error), Sandbox(labs[dir := CopiedItems(env.items[..fault.at])], sb.containers))
    else if fault.RunFails? then (Err(fault.error), Sandbox(labs[dir := CopiedItems(env.items)], sb.containers))
    else
      (Ok(LabInfo(ContainerOf(labId), dir)),
       Sandbox(labs[dir := CopiedItems(env.items)], sb.containers + {ContainerOf(labId)}))
  }

  // ---------------------------------------------------------------------------
  // One job

  datatype Hypothesis = Hypothesis(name: Option<string>, goal: Option<string>)

  /**
   * Which signatures the calls of `_run_researcher` meet: the `Worker`
   * constructor with `print_func`, the loader with `verbose`, and
   * `Worker.run` with `max_iterations`, `step_callback` and `terminal_tools`.
   */
  datatype Api = Api(workerTakesPrintFunc: bool, loaderTakesVerbose: bool, runTakesLimits: bool)

  /** As written: `aeon/core/worker.py`'s `Worker` and the loader take none of these arguments. */
  const AsWritten := Api(false, false, false)

  /** The worker of `build/lib` and a loader that takes `verbose`. */
  const Compatible := Api(true, true, true)

  const WorkerKwargError := "Worker.__init__() got an unexpected keyword argument 'print_func'"
  const LoaderKwargError := "load_tools_from_directory() got an unexpected keyword argument 'verbose'"
  const RunKwargError := "Worker.run() got an unexpected keyword argument 'max_iterations'"

  /** How the sub-worker's `run` ended: its final history, or what it raised. */
  datatype RunOutcome = Ran(history: seq<Entry>) | RunRaised(error: string)

  /**
   * What one job meets: the uuid's first 8 characters, the setup's fault,
   * the loader's tool names, the sub-agent's run given its registry, and the
   * error `shutil.rmtree` raises while cleaning up, if any.
   */
  datatype Job = Job(uuid: string, setup: SetupFault, loaded: seq<string>,
                     run: map<string, Tool> -> RunOutcome, cleanupError: Option<string>)

  datatype Status = Complete | Incomplete | Error | Crash {
    function Name(): string {
      match this
      case Complete => "Complete"
      case Incomplete => "Incomplete"
      case Error => "Error"
      case Crash => "Crash"
    }
  }

  datatype Lab = Lab(id: string, hostPath: string)

  /** A job's result dictionary; `lab` holds `lab_id` and `host_path`, present only after a run. */
  datatype Outcome = Outcome(name: string, status: Status, report: string, lab: Option<Lab>)

  /** The name with only its letters and digits. */
  function AlnumOnly(s: string): (r: string)
    ensures |r| <= |s|
    ensures forall k :: 0 <= k < |r| ==> IsAlnum(r[k])
  {
    if |s| == 0 then [] else (if IsAlnum(s[0]) then [s[0]] else []) + AlnumOnly(s[1..])
  }

  /** The filter distributes over concatenation: each part keeps its own letters and digits, in order. */
  lemma {:induction false} AlnumOnlyAppend(a: string, b: string)
    ensures AlnumOnly(a + b) == AlnumOnly(a) + AlnumOnly(b)
    decreases |a|
  {
    if |a| > 0 {
      assert (a + b)[1..] == a[1..] + b;
      AlnumOnlyAppend(a[1..], b);
    } else {
      assert a + b == b;
    }
  }

  /** A name made only of letters and digits is kept whole. */
  lemma {:induction false} AlnumOnlyKeepsAlnum(s: string)
    requires forall k :: 0 <= k < |s| ==> IsAlnum(s[k])
    ensures AlnumOnly(s) == s
    decreases |s|
  {
    if |s| > 0 {
      AlnumOnlyKeepsAlnum(s[1..]);
      assert s == [s[0]] + s[1..];
    }
  }

  function NameOf(h: Hypothesis): string {
    h.name.GetOr("unknown")
  }

  function LabIdOf(h: Hypothesis, job: Job): string {
    job.uuid + "_" + AlnumOnly(NameOf(h))
  }

  /** The status and report read from the sub-worker's history. */
  function FinalStatus(history: seq<Entry>): (Status, string) {
    if |history| == 0 then (Incomplete, "No report.")
    else
      var last := history[|history| - 1];
      if last.action == "submit_findings" then (Complete, last.summary)
      else (Incomplete, "Timed out. Last action: " + last.action)
  }

  /** The part of `_run_researcher` after the lab is up: the outcome and the final progress entry. */
  function ResearchSpec(name: string, labId: string, lab: LabInfo, env: Env, job: Job): (Outcome, Progress) {
    var failed := Progress(0, 0, "Error");
    if !env.api.workerTakesPrintFunc then (Outcome(name, Error, WorkerKwargError, None), failed)
    else if !env.api.loaderTakesVerbose then (Outcome(name, Error, LoaderKwargError, None), failed)
    else if !env.api.runTakesLimits then (Outcome(name, Error, RunKwargError, None), failed)
    else
      match job.run(Registry(LabTools(job.loaded, lab)))
      case RunRaised(e) => (Outcome(name, Error, e, None), failed)
      case Ran(history) =>
        (Outcome(name, FinalStatus(history).0, FinalStatus(history).1, Some(Lab(labId, lab.hostPath))),
         Progress(env.iterations, env.iterations, "Finished"))
  }

  /**
   * `_run_researcher`: its return value (or the exception the cleanup
   * raises), the sandbox after the `finally` block, and the job's last
   * progress entry.
   */
  function JobSpec(sb: Sandbox, env: Env, h: Hypothesis, job: Job): (Result<Outcome>, Sandbox, Progress) {
    var name := NameOf(h);
    var labId := LabIdOf(h, job);
    var (setup, sb1) := SetupSpec(sb, env, labId, job.setup);
    match setup
    case Err(e) => (Ok(Outcome(name, Error, e, None)), sb1, Progress(0, 0, "Error"))
    case Ok(lab) =>
      var (out, progress) := ResearchSpec(name, labId, lab, env, job);
      var sb2 := Sandbox(if job.cleanupError.None? then sb1.labs - {lab.hostPath} else sb1.labs,
                         sb1.containers - {lab.container});
      (if job.cleanupError.Some? then Err(job.cleanupError.value) else Ok(out), sb2, progress)
  }

  /**
   * Cleanup runs on every path once the lab is up: the job's container is no
   * longer running and, unless removing it fails, its directory is gone. When
   * the setup itself raises nothing was recorded, so no container runs for it
   * and a directory it created stays behind. Other labs are untouched.
   */
  lemma {:induction false} JobCleanup(sb: Sandbox, env: Env, h: Hypothesis, job: Job)
    ensures var labId := LabIdOf(h, job);
      var dir := LabDir(env, labId);
      var (setup, _) := SetupSpec(sb, env, labId, job.setup);
      var (_, sb2, _) := JobSpec(sb, env, h, job);
      (setup.Ok? ==> ContainerOf(labId) !in sb2.containers && (job.cleanupError.None? ==> dir !in sb2.labs))
      && (setup.Err? ==> sb2.containers == sb.containers
                         && (job.setup.MakedirsFails? <==> dir !in sb2.labs))
      && (forall d :: d != dir ==> (d in sb2.labs <==> d in sb.labs) && (d in sb.labs ==> sb2.labs[d] == sb.labs[d]))
      && sb2.containers - {ContainerOf(labId)} == sb.containers - {ContainerOf(labId)}
  {
  }

  /**
   * As written, no job whose lab comes up can complete: the constructor of
   * the worker it imports rejects `print_func`, so the job ends as "Error"
   * with that message (or crashes in cleanup) whatever the sub-agent would do.
   */
  lemma {:induction false} AsWrittenNeverCompletes(sb: Sandbox, env: Env, h: Hypothesis, job: Job)
    requires env.api == AsWritten
    ensures var (r, _, _) := JobSpec(sb, env, h, job);
      r.Ok? ==> r.value.status == Error
    ensures var (setup, _) := SetupSpec(sb, env, LabIdOf(h, job), job.setup);
      var (r, _, _) := JobSpec(sb, env, h, job);
      setup.Ok? && job.cleanupError.None? ==> r == Ok(Outcome(NameOf(h), Error, WorkerKwargError, None))
  {
  }

  /**
   * With compatible calls, a job whose lab comes up and is cleaned up reports
   * Complete with the submitted text exactly when the sub-agent's last step
   * was `submit_findings`; otherwise Incomplete with the last action, or
   * "No report." for an empty history. The sub-agent runs with the lab's
   * tool set.
   */
  lemma {:induction false} CompletesWhenSubmitted(sb: Sandbox, env: Env, h: Hypothesis, job: Job, history: seq<Entry>)
    requires env.api == Compatible && job.cleanupError.None?
    requires SetupSpec(sb, env, LabIdOf(h, job), job.setup).0.Ok?
    requires job.run(Registry(LabTools(job.loaded, SetupSpec(sb, env, LabIdOf(h, job), job.setup).0.value))) == Ran(history)
    ensures var (r, _, p) := JobSpec(sb, env, h, job);
      r.Ok? && r.value.name == NameOf(h)
      && r.value.lab == Some(Lab(LabIdOf(h, job), LabDir(env, LabIdOf(h, job))))
      && p == Progress(env.iterations, env.iterations, "Finished")
      && (r.value.status == Complete <==> |history| > 0 && history[|history| - 1].action == "submit_findings")
      && (r.value.status == Complete ==> r.value.report == history[|history| - 1].summary)
      && (r.value.status != Complete ==> r.value.status == Incomplete)
      && (|history| == 0 ==> r.value.report == "No report.")
      && (|history| > 0 && r.value.status != Complete ==>
            r.value.report == "Timed out. Last action: " + history[|history| - 1].action)
  {
  }

  /** A job reports the hypothesis's name, whichever way it ends. */
  lemma {:induction false} JobName(sb: Sandbox, env: Env, h: Hypothesis, job: Job)
    ensures var (r, _, _) := JobSpec(sb, env, h, job); r.Ok? ==> r.value.name == NameOf(h)
  {
  }

  // ---------------------------------------------------------------------------
  // The summary that comes back

  const NoSummary := "(No summary provided)"

  /** The summary the report loop shows: after the first "SUMMARY:", before the next "DETAILS:", stripped. */
  function SummaryOf(report: string): string {
    if Contains(report, SummaryMark) then Strip(Before(After(report, SummaryMark), DetailsMark)) else NoSummary
  }

  /** A trailing newline does not change the strip. */
  lemma {:induction false} LStripNewline(s: string)
    ensures RStrip(LStrip(s + "\n")) == RStrip(LStrip(s))
  {
    if |s| > 0 && IsSpace(s[0]) {
      assert (s + "\n")[1..] == s[1..] + "\n";
      assert LStrip(s + "\n") == LStrip(s[1..] + "\n");
      LStripNewline(s[1..]);
    } else if |s| > 0 {
      assert (s + "\n")[0] == s[0];
      NoLeadingSpace(s + "\n");
      NoLeadingSpace(s);
      RStripNewline(s);
    } else {
      assert LStrip(s + "\n") == [];
    }
  }

  /** Text that does not begin with whitespace is its own left strip. */
  lemma NoLeadingSpace(s: string)
    requires |s| > 0 && !IsSpace(s[0])
    ensures LStrip(s) == s
  {
  }

  /** Right-stripping ignores a trailing newline. */
  lemma RStripNewline(s: string)
    ensures RStrip(s + "\n") == RStrip(s)
  {
    assert (s + "\n")[..|s|] == s;
  }

  /** Surrounding the text with a space and a newline does not change its strip. */
  lemma {:induction false} StripPadded(s: string)
    ensures Strip(" " + s + "\n") == Strip(s)
  {
    assert (" " + s + "\n")[1..] == s + "\n";
    assert LStrip(" " + s + "\n") == LStrip(s + "\n");
    LStripNewline(s);
  }

  /** The first line holds no "SU", and does not end in "S". */
  lemma SubmittedLineHasNoMark()
    ensures forall j :: 0 <= j < |SubmittedLine| ==>
      SubmittedLine[j] != SummaryMark[0] || (j + 1 < |SubmittedLine| && SubmittedLine[j + 1] != SummaryMark[1])
  {
    forall j | 0 <= j < |SubmittedLine|
      ensures SubmittedLine[j] != 'S' || (j + 1 < |SubmittedLine| && SubmittedLine[j + 1] != 'U')
    {
      if j == 9 {
        assert SubmittedLine[10] == 'u';
      }
    }
  }

  /**
   * A mark whose first two characters never appear in a row in `pre` (nor
   * its first at the end of `pre`) is first found right after `pre`.
   */
  lemma FoundAfterClearPrefix(pre: string, mark: string, rest: string)
    requires |mark| >= 2
    requires forall j {:trigger pre[j]} :: 0 <= j < |pre| ==> pre[j] != mark[0] || (j + 1 < |pre| && pre[j + 1] != mark[1])
    ensures Find(pre + mark + rest, mark) == |pre|
  {
    var t := pre + mark + rest;
    forall j | 0 <= j < |pre|
      ensures !OccursAt(t, mark, j)
    {
      assert t[j] == pre[j];
      if j + 1 < |pre| {
        assert t[j + 1] == pre[j + 1];
      }
      if j + |mark| <= |t| {
        assert t[j..j + |mark|][0] == t[j] && t[j..j + |mark|][1] == t[j + 1];
      }
    }
    assert t[|pre|..|pre| + |mark|] == mark;
    assert OccursAt(t, mark, |pre|);
  }

  /** The first "SUMMARY:" in the findings text is the one the tool wrote. */
  lemma FindSummaryMark(findings: string, summary: string)
    ensures Find(FindingsText(findings, summary), SummaryMark) == |SubmittedLine|
  {
    SubmittedLineHasNoMark();
    FoundAfterClearPrefix(SubmittedLine, SummaryMark, FindingsBody(findings, summary));
  }

  /** The details mark begins with no space and holds no newline. */
  lemma DetailsMarkChars()
    ensures |DetailsMark| == 8 && DetailsMark[0] != ' '
    ensures forall k :: 0 <= k < |DetailsMark| ==> DetailsMark[k] != '\n'
  {
  }

  /**
   * A mark that begins with no space and holds no newline is not found in
   * " s\n" (`s` without the mark) nor across its newline.
   */
  lemma NotFoundInPadded(summary: string, mark: string, rest: string)
    requires |mark| > 0 && mark[0] != ' ' && !Contains(summary, mark)
    requires forall k :: 0 <= k < |mark| ==> mark[k] != '\n'
    ensures forall j :: 0 <= j < |summary| + 2 ==> !OccursAt(" " + summary + "\n" + rest, mark, j)
  {
    var u := " " + summary + "\n" + rest;
    var n := |summary|;
    forall j | 0 <= j < n + 2
      ensures !OccursAt(u, mark, j)
    {
      if j + |mark| <= |u| {
        if j == 0 {
          assert u[j..j + |mark|][0] == ' ';
        } else if j + |mark| <= n + 1 {
          assert u[j..j + |mark|] == summary[j - 1..j - 1 + |mark|];
          assert !OccursAt(summary, mark, j - 1);
        } else {
          assert u[j..j + |mark|][n + 1 - j] == '\n';
        }
      }
    }
  }

  /** In the findings body the first "DETAILS:" is the one after the summary's line. */
  lemma FindDetailsMark(findings: string, summary: string)
    requires !Contains(summary, DetailsMark)
    ensures Find(FindingsBody(findings, summary), DetailsMark) == |summary| + 2
  {
    var u := FindingsBody(findings, summary);
    var rest := DetailsMark + "\n" + findings;
    assert u == " " + summary + "\n" + rest;
    DetailsMarkChars();
    NotFoundInPadded(summary, DetailsMark, rest);
    assert u[|summary| + 2..|summary| + 10] == DetailsMark;
    assert OccursAt(u, DetailsMark, |summary| + 2);
  }

  /**
   * Round trip: the summary read back from `submit_findings`' text is the
   * submitted summary, stripped, whenever that summary holds no "DETAILS:".
   */
  lemma FindingsSummaryRoundTrip(findings: string, summary: string)
    requires !Contains(summary, DetailsMark)
    ensures SummaryOf(FindingsText(findings, summary)) == Strip(summary)
  {
    SummaryAfterMark(findings, summary);
    DetailsSplit(findings, summary);
    StripPadded(summary);
  }

  /** What follows the first "SUMMARY:" of the findings text is the findings body. */
  lemma SummaryAfterMark(findings: string, summary: string)
    ensures Contains(FindingsText(findings, summary), SummaryMark)
    ensures After(FindingsText(findings, summary), SummaryMark) == FindingsBody(findings, summary)
  {
    var t := FindingsText(findings, summary);
    FindSummaryMark(findings, summary);
    assert |SubmittedLine + SummaryMark| == 28;
    assert t[28..] == FindingsBody(findings, summary);
  }

  /** Before the first "DETAILS:" of the body is the summary's padded line. */
  lemma DetailsSplit(findings: string, summary: string)
    requires !Contains(summary, DetailsMark)
    ensures Before(FindingsBody(findings, summary), DetailsMark) == " " + summary + "\n"
  {
    var u := FindingsBody(findings, summary);
    FindDetailsMark(findings, summary);
    assert u[..|summary| + 2] == " " + summary + "\n";
  }

  /**
   * A sub-agent that ends with `submit_findings` (the worker records the
   * tool's name and its text) makes its job Complete with that text as the
   * report, and the summary read from it is the submitted one.
   */
  lemma {:induction false} SubmittedFindingsComplete(h: Ring, it: int, findings: string, summary: string)
    requires !Contains(summary, DetailsMark)
    ensures var history := Push(h, Entry(it, "submit_findings", FindingsText(findings, summary)));
      FinalStatus(history) == (Complete, FindingsText(findings, summary))
      && SummaryOf(FinalStatus(history).1) == Strip(summary)
  {
    FindingsSummaryRoundTrip(findings, summary);
  }

  // ---------------------------------------------------------------------------
  // The report

  function Heading(o: Outcome): string {
    "## Hypothesis: " + o.name + " (" + o.status.Name() + ")"
  }

  /** Two report lines per result, in the order the results arrived. */
  function Sections(results: seq<Outcome>): (r: seq<string>)
    ensures |r| == 2 * |results|
    ensures forall k :: 0 <= k < |results| ==> r[2 * k] == Heading(results[k]) && r[2 * k + 1] == results[k].report + "\n"
  {
    if |results| == 0 then []
    else
      var n := |results| - 1;
      var r := Sections(results[..n]) + [Heading(results[n]), results[n].report + "\n"];
      assert forall k :: 0 <= k < n ==> results[..n][k] == results[k];
      r
  }

  function ReportParts(topic: string, results: seq<Outcome>): seq<string> {
    ["# Research Summary: " + topic] + Sections(results)
  }

  /** The report loop; the extracted summary it prints is not part of the report. */
  method BuildReport(topic: string, results: seq<Outcome>) returns (report: string)
    ensures report == Join("\n", ReportParts(topic, results))
  {
    var parts := ["# Research Summary: " + topic];
    var i := 0;
    while i < |results|
      invariant 0 <= i <= |results|
      invariant parts == ReportParts(topic, results[..i])
    {
      assert results[..i + 1][..i] == results[..i];
      parts := parts + [Heading(results[i]), results[i].report + "\n"];
      i := i + 1;
    }
    assert results[..i] == results;
    report := Join("\n", parts);
  }

  // ---------------------------------------------------------------------------
  // All jobs

  /** `as_completed` hands back every job exactly once. */
  predicate IsPermutation(order: seq<nat>, n: nat) {
    |order| == n
    && (forall k :: 0 <= k < |order| ==> order[k] < n)
    && (forall i :: 0 <= i < n ==> i in order)
    && (forall k, l :: 0 <= k < l < |order| ==> order[k] != order[l])
  }

  predicate AllNamed(hs: seq<Hypothesis>) {
    forall i :: 0 <= i < |hs| ==> hs[i].name.Some?
  }

  /** The job of hypothesis `i` as collected: its return value, or the "Crash" entry for what it raised. */
  function Collected(r: Result<Outcome>, h: Hypothesis): Outcome
    requires h.name.Some?
  {
    if r.Ok? then r.value else Outcome(h.name.value, Crash, r.error, None)
  }

  /** The jobs one after another, as they complete: results, sandbox and progress dictionary. */
  function RunJobs(sb: Sandbox, board: map<string, Progress>, env: Env, hs: seq<Hypothesis>, jobs: seq<Job>,
                   order: seq<nat>): (seq<Outcome>, Sandbox, map<string, Progress>)
    requires AllNamed(hs) && |jobs| == |hs|
    requires forall k :: 0 <= k < |order| ==> order[k] < |hs|
  {
    if |order| == 0 then ([], sb, board)
    else
      var n := |order| - 1;
      var (results, sb1, board1) := RunJobs(sb, board, env, hs, jobs, order[..n]);
      var i := order[n];
      var (r, sb2, p) := JobSpec(sb1, env, hs[i], jobs[i]);
      (results + [Collected(r, hs[i])], sb2, board1[NameOf(hs[i]) := p])
  }

  /** The k-th result belongs to the k-th job to complete. */
  lemma {:induction false} ResultsFollowOrder(sb: Sandbox, board: map<string, Progress>, env: Env, hs: seq<Hypothesis>,
                                              jobs: seq<Job>, order: seq<nat>)
    requires AllNamed(hs) && |jobs| == |hs|
    requires forall k :: 0 <= k < |order| ==> order[k] < |hs|
    ensures var results := RunJobs(sb, board, env, hs, jobs, order).0;
      |results| == |order| && forall k :: 0 <= k < |order| ==> results[k].name == hs[order[k]].name.value
  {
    if |order| > 0 {
      var n := |order| - 1;
      ResultsFollowOrder(sb, board, env, hs, jobs, order[..n]);
      var t := RunJobs(sb, board, env, hs, jobs, order[..n]);
      var i := order[n];
      var x := Collected(JobSpec(t.1, env, hs[i], jobs[i]).0, hs[i]);
      CollectedNamed(t.1, env, hs[i], jobs[i]);
      assert RunJobs(sb, board, env, hs, jobs, order).0 == t.0 + [x];
      NamesExtend(t.0, x, hs, order);
    }
  }

  /** A job's collected result carries its hypothesis's name, whether it returned or raised. */
  lemma {:induction false} CollectedNamed(sb: Sandbox, env: Env, h: Hypothesis, job: Job)
    requires h.name.Some?
    ensures Collected(JobSpec(sb, env, h, job).0, h).name == h.name.value
  {
    JobName(sb, env, h, job);
  }

  /** Appending the result of the next job in the order keeps the results following the order. */
  lemma {:induction false} NamesExtend(results: seq<Outcome>, x: Outcome, hs: seq<Hypothesis>, order: seq<nat>)
    requires |order| > 0 && |results| == |order| - 1 && AllNamed(hs)
    requires forall k :: 0 <= k < |order| ==> order[k] < |hs|
    requires forall k :: 0 <= k < |results| ==> results[k].name == hs[order[..|order| - 1][k]].name.value
    requires x.name == hs[order[|order| - 1]].name.value
    ensures forall k :: 0 <= k < |order| ==> (results + [x])[k].name == hs[order[k]].name.value
  {
    forall k | 0 <= k < |order|
      ensures (results + [x])[k].name == hs[order[k]].name.value
    {
      if k < |results| {
        assert order[..|order| - 1][k] == order[k];
      }
    }
  }

  /** Hypothesis `i` has the result at some position `k`, and its heading is report line `1 + 2k`. */
  predicate HasSection(parts: seq<string>, results: seq<Outcome>, order: seq<nat>, hs: seq<Hypothesis>, i: nat)
    requires |parts| == 1 + 2 * |results| && |order| == |results| && i < |hs|
  {
    exists k :: 0 <= k < |results| && order[k] == i && hs[i].name == Some(results[k].name)
                && parts[1 + 2 * k] == Heading(results[k])
  }

  /**
   * One "## Hypothesis" heading per hypothesis: the report opens with the
   * topic line, and every hypothesis has exactly one result, whose heading
   * and report are two consecutive lines.
   */
  lemma {:induction false} OneSectionPerHypothesis(sb: Sandbox, board: map<string, Progress>, env: Env, topic: string,
                                hs: seq<Hypothesis>, jobs: seq<Job>, order: seq<nat>)
    requires AllNamed(hs) && |jobs| == |hs| && IsPermutation(order, |hs|)
    ensures var results := RunJobs(sb, board, env, hs, jobs, order).0;
      var parts := ReportParts(topic, results);
      |parts| == 1 + 2 * |hs| && parts[0] == "# Research Summary: " + topic
      && (forall i :: 0 <= i < |hs| ==> HasSection(parts, results, order, hs, i))
      && (forall k, l :: 0 <= k < l < |results| ==> order[k] != order[l])
  {
    ResultsFollowOrder(sb, board, env, hs, jobs, order);
    ReportSections(topic, RunJobs(sb, board, env, hs, jobs, order).0, order, hs);
  }

  /** The report of results that follow a permutation of the hypotheses has one section per hypothesis. */
  lemma {:induction false} ReportSections(topic: string, results: seq<Outcome>, order: seq<nat>, hs: seq<Hypothesis>)
    requires AllNamed(hs) && IsPermutation(order, |hs|) && |results| == |order|
    requires forall k :: 0 <= k < |order| ==> results[k].name == hs[order[k]].name.value
    ensures var parts := ReportParts(topic, results);
      |parts| == 1 + 2 * |hs| && parts[0] == "# Research Summary: " + topic
      && (forall i :: 0 <= i < |hs| ==> HasSection(parts, results, order, hs, i))
  {
    forall i | 0 <= i < |hs|
      ensures HasSection(ReportParts(topic, results), results, order, hs, i)
    {
      SectionOf(topic, results, order, hs, i);
    }
  }

  /** Hypothesis `i`'s result sits at the position where the order puts it. */
  lemma {:induction false} SectionOf(topic: string, results: seq<Outcome>, order: seq<nat>, hs: seq<Hypothesis>, i: nat)
    requires AllNamed(hs) && IsPermutation(order, |hs|) && |results| == |order| && i < |hs|
    requires forall k :: 0 <= k < |order| ==> results[k].name == hs[order[k]].name.value
    ensures HasSection(ReportParts(topic, results), results, order, hs, i)
  {
    assert i in order;
    var k :| 0 <= k < |order| && order[k] == i;
    SectionHeading(topic, results, k);
    assert hs[i].name == Some(results[k].name);
  }

  lemma {:induction false} SectionHeading(topic: string, results: seq<Outcome>, k: nat)
    requires k < |results|
    ensures 1 + 2 * k < |ReportParts(topic, results)| && ReportParts(topic, results)[1 + 2 * k] == Heading(results[k])
  {
    assert ReportParts(topic, results)[1 + 2 * k] == Sections(results)[2 * k];
  }

  /** The machine: its lab handles. */
  class Host {
    var sandbox: Sandbox

    constructor (sandbox: Sandbox)
      ensures this.sandbox == sandbox
    {
      this.sandbox := sandbox;
    }
  }

  /** The progress dictionary the jobs share with the dashboard. */
  class Board {
    var entries: map<string, Progress>

    constructor (entries: map<string, Progress>)
      ensures this.entries == entries
    {
      this.entries := entries;
    }
  }

  /** `_setup_docker_lab` on the host. */
  method SetupLab(host: Host, env: Env, labId: string, fault: SetupFault) returns (r: Result<LabInfo>)
    modifies host
    ensures (r, host.sandbox) == SetupSpec(old(host.sandbox), env, labId, fault)
  {
    var dir := LabDir(env, labId);
    var labs := host.sandbox.labs - {dir};
    var containers := host.sandbox.containers;
    if fault.MakedirsFails? {
      host.sandbox := Sandbox(labs, containers);
      return Err(fault.error);
    }
    var copied: seq<Item> := [];
    var i := 0;
    while i < |env.items|
      invariant 0 <= i <= |env.items|
      invariant copied == CopiedItems(env.items[..i])
      invariant CopyFault(env.items, fault) ==> i <= fault.at
    {
      assert env.items[..i + 1][..i] == env.items[..i];
      var item := env.items[i];
      if Copied(item) {
        if fault.CopyFails? && fault.at == i {
          host.sandbox := Sandbox(labs[dir := copied], containers);
          return Err(fault.error);
        }
        copied := copied + [item];
      }
      i := i + 1;
    }
    assert env.items[..i] == env.items;
    host.sandbox := Sandbox(labs[dir := copied], containers);
    if fault.RunFails? {
      return Err(fault.error);
    }
    var container := ContainerOf(labId);
    host.sandbox := host.sandbox.(containers := containers + {container});
    r := Ok(LabInfo(container, dir));
  }

  /** The part of `_run_researcher` after the lab is up, with the progress entries it writes. */
  method Research(board: Board, name: string, labId: string, lab: LabInfo, env: Env, job: Job) returns (out: Outcome)
    modifies board
    ensures var (o, p) := ResearchSpec(name, labId, lab, env, job);
      out == o && board.entries == old(board.entries)[name := p]
  {
    if !env.api.workerTakesPrintFunc {
      out := Outcome(name, Error, WorkerKwargError, None);
    } else if !env.api.loaderTakesVerbose {
      out := Outcome(name, Error, LoaderKwargError, None);
    } else {
      var tools := ResearchToolList(job.loaded, lab);
      var registry := Register(tools);
      board.entries := board.entries[name := Progress(0, env.iterations, "Starting")];
      if !env.api.runTakesLimits {
        out := Outcome(name, Error, RunKwargError, None);
      } else {
        match job.run(registry) {
          case RunRaised(e) =>
            out := Outcome(name, Error, e, None);
          case Ran(history) =>
            var (status, report) := FinalStatus(history);
            out := Outcome(name, status, report, Some(Lab(labId, lab.hostPath)));
            board.entries := board.entries[name := Progress(env.iterations, env.iterations, "Finished")];
            return;
        }
      }
    }
    board.entries := board.entries[name := Progress(0, 0, "Error")];
  }

  /** `_run_researcher`: the job's result (or what its cleanup raised), with the lab set up and torn down. */
  method RunResearcher(host: Host, board: Board, env: Env, h: Hypothesis, job: Job) returns (r: Result<Outcome>)
    modifies host, board
    ensures var (o, sb, p) := JobSpec(old(host.sandbox), env, h, job);
      r == o && host.sandbox == sb && board.entries == old(board.entries)[NameOf(h) := p]
  {
    var name := NameOf(h);
    var labId := job.uuid + "_" + AlnumOnly(name);
    board.entries := board.entries[name := Progress(0, env.iterations, "Booting")];
    var setup := SetupLab(host, env, labId, job.setup);
    if setup.Err? {
      board.entries := board.entries[name := Progress(0, 0, "Error")];
      return Ok(Outcome(name, Error, setup.error, None));
    }
    var lab := setup.value;
    var out := Research(board, name, labId, lab, env, job);
    // finally: the recorded container is killed, then the recorded directory removed
    host.sandbox := host.sandbox.(containers := host.sandbox.containers - {lab.container});
    if job.cleanupError.Some? {
      return Err(job.cleanupError.value);
    }
    host.sandbox := host.sandbox.(labs := host.sandbox.labs - {lab.hostPath});
    r := Ok(out);
  }

  const MissingName := "'name'"

  /**
   * `ConductResearchTool.execute`: the report, or the exception that escapes
   * (no hypotheses, or one without a name). The jobs are run one after another
   * in `order`, the order in which they complete.
   */
  method Execute(host: Host, env: Env, topic: string, hs: seq<Hypothesis>, totalGb: real,
                 jobs: seq<Job>, order: seq<nat>) returns (r: Result<string>, results: seq<Outcome>, board: Board)
    requires |jobs| == |hs| && IsPermutation(order, |hs|)
    modifies host
    ensures |hs| == 0 ==> r == Err(DivisionByZero) && host.sandbox == old(host.sandbox)
    ensures |hs| > 0 && !AllNamed(hs) ==> r == Err(MissingName) && host.sandbox == old(host.sandbox)
    ensures |hs| > 0 && AllNamed(hs) ==>
      var names := seq(|hs|, i requires 0 <= i < |hs| => hs[i].name.value);
      (results, host.sandbox, board.entries)
        == RunJobs(old(host.sandbox), InitialProgress(names, env.iterations), env, hs, jobs, order)
      && r == Ok(Join("\n", ReportParts(topic, results)))
  {
    results := [];
    var mem := MemPerAgent(totalGb, |hs|);
    if mem.Err? {
      board := new Board(map[]);
      return Err(mem.error), results, board;
    }
    if exists i :: 0 <= i < |hs| && hs[i].name.None? {
      board := new Board(map[]);
      return Err(MissingName), results, board;
    }
    var names := seq(|hs|, i requires 0 <= i < |hs| => hs[i].name.value);
    board := new Board(InitialProgress(names, env.iterations));
    ghost var sb0 := host.sandbox;
    ghost var board0 := board.entries;
    var k := 0;
    while k < |order|
      invariant 0 <= k <= |order|
      invariant (results, host.sandbox, board.entries) == RunJobs(sb0, board0, env, hs, jobs, order[..k])
    {
      assert order[..k + 1][..k] == order[..k];
      var i := order[k];
      var res := RunResearcher(host, board, env, hs[i], jobs[i]);
      results := results + [Collected(res, hs[i])];
      k := k + 1;
    }
    assert order[..k] == order;
    var report := BuildReport(topic, results);
    r := Ok(report);
  }
}
