/**
 * The tool loader: scanning a package's modules for `BaseTool` subclasses and
 * instantiating each one whose constructor parameters can all be resolved,
 * injecting the parameters that name an available dependency.
 *
 * Python's reflection is replaced by data: a package is the list of its
 * modules in `pkgutil.iter_modules` order, a module the list of classes
 * `inspect.getmembers` returns (sorted by name, imported classes included), a
 * class its `__init__` signature and whether its constructor raises on given
 * keyword arguments.
 */
module Loader {
  import opened Wrappers

  /** An injectable object (an LLM client, the worker, ...), kept abstract. */
  datatype Dep = Handle(id: nat)

  type Deps = map<string, Dep>

  /** `inspect.Parameter.kind`, collapsed to what the loader distinguishes. */
  datatype ParamKind = Named | VarPositional | VarKeyword

  /** One `__init__` parameter: its name, kind and whether it has a default. */
  datatype Param = Param(name: string, kind: ParamKind, hasDefault: bool)

  /**
   * A class found in a module: whether `issubclass(obj, BaseTool)`, whether
   * `obj is BaseTool`, its `__init__` parameters, and whether calling it with
   * the given keyword arguments raises.
   */
  datatype ToolClass = ToolClass(
    name: string,
    subclassOfBaseTool: bool,
    isBaseTool: bool,
    params: seq<Param>,
    raises: Deps -> bool)

  /** A constructed tool: the class it came from and the arguments it got. */
  datatype Instance = Instance(className: string, args: Deps)

  /** What importing a package or a module does. */
  datatype Import<T> = Imported(value: T) | ImportFailed(error: string) | OtherFailure(error: string)

  type Package = Import<seq<Import<seq<ToolClass>>>>

  /** Only proper subclasses of `BaseTool` are considered. */
  predicate Candidate(c: ToolClass) {
    c.subclassOfBaseTool && !c.isBaseTool
  }

  /** `self`, `*args` and `**kwargs` are never resolved. */
  predicate Resolvable(p: Param) {
    p.name != "self" && p.kind == Named
  }

  /** A parameter that makes the tool unloadable: resolvable, not supplied, no default. */
  predicate Unmet(p: Param, deps: Deps) {
    Resolvable(p) && p.name !in deps && !p.hasDefault
  }

  /** The names of the resolvable parameters. */
  function ResolvableNames(ps: seq<Param>): (r: set<string>)
    ensures forall n :: n in r <==> exists k :: 0 <= k < |ps| && Resolvable(ps[k]) && ps[k].name == n
  {
    if |ps| == 0 then {}
    else
      var rest := ResolvableNames(ps[..|ps| - 1]);
      var last := ps[|ps| - 1];
      var r := if Resolvable(last) then rest + {last.name} else rest;
      assert forall k :: 0 <= k < |ps| - 1 ==> ps[..|ps| - 1][k] == ps[k];
      r
  }

  /**
   * The keyword arguments for a constructor with parameters `ps`, or `None`
   * when some parameter is unmet (the scan stops there).
   */
  function Resolve(ps: seq<Param>, deps: Deps): Option<Deps> {
    if |ps| == 0 then Some(map[])
    else
      match Resolve(ps[..|ps| - 1], deps)
      case None => None
      case Some(args) =>
        var p := ps[|ps| - 1];
        if !Resolvable(p) then Some(args)
        else if p.name in deps then Some(args[p.name := deps[p.name]])
        else if p.hasDefault then Some(args)
        else None
  }

  /** A tool is loadable iff none of its parameters is unmet. */
  lemma {:induction false} ResolveSucceedsIff(ps: seq<Param>, deps: Deps)
    ensures Resolve(ps, deps).Some? <==> forall k :: 0 <= k < |ps| ==> !Unmet(ps[k], deps)
  {
    if |ps| > 0 {
      var init := ps[..|ps| - 1];
      ResolveSucceedsIff(init, deps);
      assert forall k :: 0 <= k < |init| ==> init[k] == ps[k];
    }
  }

  /**
   * The injected arguments are exactly the resolvable parameters that name a
   * dependency, each bound to that dependency.
   */
  lemma {:induction false} ResolveInjects(ps: seq<Param>, deps: Deps)
    requires Resolve(ps, deps).Some?
    ensures Resolve(ps, deps).value.Keys == ResolvableNames(ps) * deps.Keys
    ensures forall n :: n in Resolve(ps, deps).value ==> n in deps && Resolve(ps, deps).value[n] == deps[n]
  {
    if |ps| > 0 {
      ResolveInjects(ps[..|ps| - 1], deps);
    }
  }

  /** Once a prefix of the parameters has an unmet one, so does the whole list. */
  lemma {:induction false} UnmetPrefix(ps: seq<Param>, deps: Deps, i: nat)
    requires i <= |ps|
    requires Resolve(ps[..i], deps).None?
    ensures Resolve(ps, deps).None?
    decreases |ps| - i
  {
    if i < |ps| {
      assert ps[..i + 1][..i] == ps[..i];
      UnmetPrefix(ps, deps, i + 1);
    } else {
      assert ps[..i] == ps;
    }
  }

  /**
   * The parameter loop of one class: `missing` is raised (and the loop left)
   * at the first unmet parameter; otherwise `args` holds the injections.
   */
  method ResolveParams(ps: seq<Param>, deps: Deps) returns (args: Deps, missing: bool)
    ensures missing <==> Resolve(ps, deps).None?
    ensures !missing ==> Resolve(ps, deps) == Some(args)
  {
    args := map[];
    missing := false;
    var i := 0;
    while i < |ps|
      invariant 0 <= i <= |ps|
      invariant Resolve(ps[..i], deps) == Some(args)
    {
      var p := ps[i];
      assert ps[..i + 1][..i] == ps[..i];
      if p.name == "self" {
        i := i + 1;
        continue;
      }
      if p.kind == VarPositional || p.kind == VarKeyword {
        i := i + 1;
        continue;
      }
      if p.name in deps {
        args := args[p.name := deps[p.name]];
      } else if !p.hasDefault {
        missing := true;
        UnmetPrefix(ps, deps, i + 1);
        return;
      }
      i := i + 1;
    }
    assert ps[..i] == ps;
  }

  /** What one class contributes: its instance, if it is loadable and constructs. */
  function ClassTools(c: ToolClass, deps: Deps): (r: seq<Instance>)
    ensures |r| <= 1
  {
    if !Candidate(c) then []
    else
      match Resolve(c.params, deps)
      case None => []
      case Some(args) => if c.raises(args) then [] else [Instance(c.name, args)]
  }

  /** `t` is the instance the loader builds from class `c`. */
  predicate Builds(c: ToolClass, deps: Deps, t: Instance) {
    Candidate(c) && Resolve(c.params, deps) == Some(t.args) && !c.raises(t.args) && t.className == c.name
  }

  /** The tools of one module, in class order. */
  function ModuleTools(cs: seq<ToolClass>, deps: Deps): (r: seq<Instance>)
    ensures |r| <= |cs|
  {
    if |cs| == 0 then []
    else ModuleTools(cs[..|cs| - 1], deps) + ClassTools(cs[|cs| - 1], deps)
  }

  /** The tools of a package's modules; the first module failing otherwise than by ImportError propagates. */
  function PackageTools(ms: seq<Import<seq<ToolClass>>>, deps: Deps): Result<seq<Instance>> {
    if |ms| == 0 then Ok([])
    else
      match PackageTools(ms[..|ms| - 1], deps)
      case Err(e) => Err(e)
      case Ok(tools) =>
        match ms[|ms| - 1]
        case Imported(cs) => Ok(tools + ModuleTools(cs, deps))
        case ImportFailed(_) => Ok(tools)
        case OtherFailure(e) => Err(e)
  }

  /** `load_tools_from_directory`, with `None` dependencies taken as `{}`. */
  function Load(pkg: Package, deps: Option<Deps>): Result<seq<Instance>> {
    match pkg
    case ImportFailed(_) => Ok([])
    case OtherFailure(e) => Err(e)
    case Imported(ms) => PackageTools(ms, deps.GetOr(map[]))
  }

  /** A module's tools are exactly the instances built from its classes. */
  lemma {:induction false} ModuleToolsMembers(cs: seq<ToolClass>, deps: Deps)
    ensures forall t :: t in ModuleTools(cs, deps) <==> exists k :: 0 <= k < |cs| && Builds(cs[k], deps, t)
  {
    if |cs| > 0 {
      var init := cs[..|cs| - 1];
      ModuleToolsMembers(init, deps);
      assert forall k :: 0 <= k < |init| ==> init[k] == cs[k];
      forall t | t in ModuleTools(cs, deps)
        ensures exists k :: 0 <= k < |cs| && Builds(cs[k], deps, t)
      {
        if t !in ModuleTools(init, deps) {
          assert Builds(cs[|cs| - 1], deps, t);
        }
      }
      forall t, k | 0 <= k < |cs| && Builds(cs[k], deps, t)
        ensures t in ModuleTools(cs, deps)
      {
        if k == |cs| - 1 {
          assert ClassTools(cs[k], deps) == [t];
        } else {
          assert Builds(init[k], deps, t);
        }
      }
    }
  }

  lemma {:induction false} ModuleToolsAppend(a: seq<ToolClass>, b: seq<ToolClass>, deps: Deps)
    ensures ModuleTools(a + b, deps) == ModuleTools(a, deps) + ModuleTools(b, deps)
    decreases |b|
  {
    if |b| == 0 {
      assert a + b == a;
    } else {
      var b' := b[..|b| - 1];
      assert (a + b)[..|a + b| - 1] == a + b';
      assert (a + b)[|a + b| - 1] == b[|b| - 1];
      ModuleToolsAppend(a, b', deps);
    }
  }

  /** A class whose constructor raises is skipped; the other classes load as before. */
  lemma {:induction false} ConstructorFailureSkipsOnlyThatTool(cs: seq<ToolClass>, deps: Deps, i: nat)
    requires i < |cs|
    requires Resolve(cs[i].params, deps).Some? && cs[i].raises(Resolve(cs[i].params, deps).value)
    ensures ModuleTools(cs, deps) == ModuleTools(cs[..i] + cs[i + 1..], deps)
  {
    var pre := cs[..i + 1];
    var post := cs[i + 1..];
    assert cs == pre + post;
    ModuleToolsAppend(pre, post, deps);
    assert pre[..i] == cs[..i];
    assert ModuleTools(pre, deps) == ModuleTools(cs[..i], deps);
    ModuleToolsAppend(cs[..i], post, deps);
  }

  lemma {:induction false} PackageToolsAppend(a: seq<Import<seq<ToolClass>>>, b: seq<Import<seq<ToolClass>>>, deps: Deps)
    requires PackageTools(a, deps).Ok?
    ensures PackageTools(a + b, deps) ==
      match PackageTools(b, deps)
      case Err(e) => Err(e)
      case Ok(u) => Ok(PackageTools(a, deps).value + u)
    decreases |b|
  {
    if |b| == 0 {
      assert a + b == a;
      assert PackageTools(a, deps).value + [] == PackageTools(a, deps).value;
    } else {
      var b' := b[..|b| - 1];
      assert (a + b)[..|a + b| - 1] == a + b';
      assert (a + b)[|a + b| - 1] == b[|b| - 1];
      PackageToolsAppend(a, b', deps);
      match PackageTools(b', deps) {
        case Err(e) =>
        case Ok(u) =>
          match b[|b| - 1] {
            case Imported(cs) =>
              assert PackageTools(a, deps).value + u + ModuleTools(cs, deps)
                == PackageTools(a, deps).value + (u + ModuleTools(cs, deps));
            case ImportFailed(_) =>
            case OtherFailure(_) =>
          }
      }
    }
  }

  /** A module that fails with ImportError is ignored: the result is as if it were absent. */
  lemma {:induction false} ImportErrorIgnored(ms: seq<Import<seq<ToolClass>>>, deps: Deps, i: nat)
    requires i < |ms| && ms[i].ImportFailed?
    ensures PackageTools(ms, deps) == PackageTools(ms[..i] + ms[i + 1..], deps)
  {
    var pre := ms[..i];
    var post := ms[i + 1..];
    assert ms == pre + [ms[i]] + post;
    match PackageTools(pre, deps)
    case Err(e) =>
      PrefixErrorPropagates(pre, [ms[i]] + post, deps);
      PrefixErrorPropagates(pre, post, deps);
      assert ms == pre + ([ms[i]] + post);
    case Ok(t) =>
      PackageToolsAppend(pre, [ms[i]], deps);
      assert PackageTools([ms[i]], deps) == Ok([]) by {
        assert [ms[i]][..0] == [];
      }
      assert PackageTools(pre + [ms[i]], deps) == Ok(t);
      PackageToolsAppend(pre + [ms[i]], post, deps);
      PackageToolsAppend(pre, post, deps);
  }

  lemma {:induction false} PrefixErrorPropagates(a: seq<Import<seq<ToolClass>>>, b: seq<Import<seq<ToolClass>>>, deps: Deps)
    requires PackageTools(a, deps).Err?
    ensures PackageTools(a + b, deps) == PackageTools(a, deps)
    decreases |b|
  {
    if |b| == 0 {
      assert a + b == a;
    } else {
      var b' := b[..|b| - 1];
      assert (a + b)[..|a + b| - 1] == a + b';
      PrefixErrorPropagates(a, b', deps);
    }
  }

  /**
   * Without failures other than ImportError, every loaded tool is built from
   * a class of a module that imported, and every such buildable class yields one.
   */
  lemma {:induction false} PackageToolsMembers(ms: seq<Import<seq<ToolClass>>>, deps: Deps)
    requires forall j :: 0 <= j < |ms| ==> !ms[j].OtherFailure?
    ensures PackageTools(ms, deps).Ok?
    ensures forall t :: t in PackageTools(ms, deps).value <==>
      exists j, k :: 0 <= j < |ms| && ms[j].Imported? && 0 <= k < |ms[j].value| && Builds(ms[j].value[k], deps, t)
  {
    if |ms| > 0 {
      var init := ms[..|ms| - 1];
      assert forall j :: 0 <= j < |init| ==> init[j] == ms[j];
      PackageToolsMembers(init, deps);
      var last := ms[|ms| - 1];
      if last.Imported? {
        ModuleToolsMembers(last.value, deps);
      }
      forall t | t in PackageTools(ms, deps).value
        ensures exists j, k :: 0 <= j < |ms| && ms[j].Imported? && 0 <= k < |ms[j].value| && Builds(ms[j].value[k], deps, t)
      {
        if t !in PackageTools(init, deps).value {
          var k :| 0 <= k < |last.value| && Builds(last.value[k], deps, t);
          assert ms[|ms| - 1] == last;
        } else {
          var j, k :| 0 <= j < |init| && init[j].Imported? && 0 <= k < |init[j].value| && Builds(init[j].value[k], deps, t);
          assert ms[j] == init[j];
        }
      }
      forall t, j, k | 0 <= j < |ms| && ms[j].Imported? && 0 <= k < |ms[j].value| && Builds(ms[j].value[k], deps, t)
        ensures t in PackageTools(ms, deps).value
      {
        if j == |ms| - 1 {
          assert t in ModuleTools(last.value, deps);
        } else {
          assert init[j] == ms[j];
        }
      }
    }
  }

  /** The class loop of one module. */
  method ScanModule(cs: seq<ToolClass>, deps: Deps) returns (found: seq<Instance>)
    ensures found == ModuleTools(cs, deps)
  {
    found := [];
    var i := 0;
    while i < |cs|
      invariant 0 <= i <= |cs|
      invariant found == ModuleTools(cs[..i], deps)
    {
      var c := cs[i];
      assert cs[..i + 1][..i] == cs[..i];
      if c.subclassOfBaseTool && !c.isBaseTool {
        var args, missing := ResolveParams(c.params, deps);
        if !missing {
          if !c.raises(args) {
            found := found + [Instance(c.name, args)];
          }
        }
      }
      i := i + 1;
    }
    assert cs[..i] == cs;
  }

  /**
   * `load_tools_from_directory(package, dependencies)`: `Err` stands for an
   * exception other than ImportError escaping the loader.
   */
  method LoadToolsFromDirectory(pkg: Package, dependencies: Option<Deps>) returns (r: Result<seq<Instance>>)
    ensures r == Load(pkg, dependencies)
    ensures pkg.ImportFailed? ==> r == Ok([])
    ensures dependencies.None? ==> r == Load(pkg, Some(map[]))
  {
    var deps := if dependencies.None? then map[] else dependencies.value;
    match pkg {
      case ImportFailed(_) =>
        return Ok([]);
      case OtherFailure(e) =>
        return Err(e);
      case Imported(ms) =>
        var found := [];
        var i := 0;
        while i < |ms|
          invariant 0 <= i <= |ms|
          invariant PackageTools(ms[..i], deps) == Ok(found)
        {
          assert ms[..i + 1][..i] == ms[..i];
          match ms[i] {
            case Imported(cs) =>
              var tools := ScanModule(cs, deps);
              found := found + tools;
            case ImportFailed(_) =>
            case OtherFailure(e) =>
              PrefixErrorPropagates(ms[..i + 1], ms[i + 1..], deps);
              assert ms[..i + 1] + ms[i + 1..] == ms;
              return Err(e);
          }
          i := i + 1;
        }
        assert ms[..i] == ms;
        return Ok(found);
    }
  }
}
