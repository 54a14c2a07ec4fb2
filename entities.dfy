/**
 * Entities: a named set of services plus named workflows.  A workflow is a
 * chain "A -> B -> C" of task names; running it runs each stage's task in
 * order, recording each stage's result and feeding the previous stage's
 * result to the next one through `ctx["workflow"]`.
 */
module Entities {
  import opened Wrappers
  import opened Values
  import opened OrderedMaps
  import opened Actions
  import opened Tasks
  import opened Services
  import opened ServiceManagers

  /**
   * An entity as loaded: its declared fields, the services its own service
   * manager holds, its own action registry, and the services directory it
   * was loaded from (None until loaded).
   */
  datatype Entity = Entity(
    name: string,
    description: string,
    services: seq<string>,
    workflows: OMap<string, string>,
    catalog: Catalog,
    actions: ActionTable,
    servicesRoot: Option<string>)

  // ----- service files -----

  /** A service definition file found below the services root, with the name of the directory holding it. */
  datatype ServiceFile = ServiceFile(parent: string, path: string)

  /** The files whose directory is a listed service, or all of them when `wildcard` holds. */
  function FilterFiles(found: seq<ServiceFile>, services: seq<string>, wildcard: bool): (r: seq<ServiceFile>)
    ensures forall f :: multiset(r)[f] == if f.parent in services || wildcard then multiset(found)[f] else 0
    decreases |found|
  {
    if found == [] then []
    else
      assert found == [found[0]] + found[1..];
      (if found[0].parent in services || wildcard then [found[0]] else []) + FilterFiles(found[1..], services, wildcard)
  }

  /**
   * `get_service_files` (current): no root is a ValueError; otherwise a found
   * file is kept iff its directory is a listed service or the list is `["*"]`.
   */
  function ServiceFiles(e: Entity, found: seq<ServiceFile>): (r: Result<seq<ServiceFile>>)
    ensures r.Err? <==> e.servicesRoot.None?
    ensures r.Err? ==> r.error == ValueError("No services root set")
    ensures r.Ok? ==> forall f :: multiset(r.value)[f] ==
                                  if f.parent in e.services || e.services == ["*"] then multiset(found)[f] else 0
  {
    if e.servicesRoot.None? then Err(ValueError("No services root set"))
    else Ok(FilterFiles(found, e.services, e.services == ["*"]))
  }

  /** `get_service_files` (legacy): the same, without the wildcard. */
  function LegacyServiceFiles(e: Entity, found: seq<ServiceFile>): (r: Result<seq<ServiceFile>>)
    ensures r.Err? <==> e.servicesRoot.None?
    ensures r.Err? ==> r.error == ValueError("No services root set")
    ensures r.Ok? ==> forall f :: multiset(r.value)[f] == if f.parent in e.services then multiset(found)[f] else 0
  {
    if e.servicesRoot.None? then Err(ValueError("No services root set"))
    else Ok(FilterFiles(found, e.services, false))
  }

  lemma ConcatAssoc<T>(p: seq<T>, q: seq<T>, r: seq<T>)
    ensures p + (q + r) == (p + q) + r
  {
  }

  /** The filter keeps the order of the files found: filtering a concatenation filters each part. */
  lemma {:induction false} FilterFilesAppend(a: seq<ServiceFile>, b: seq<ServiceFile>, services: seq<string>, wildcard: bool)
    ensures FilterFiles(a + b, services, wildcard) == FilterFiles(a, services, wildcard) + FilterFiles(b, services, wildcard)
    decreases |a|
  {
    if a == [] {
      assert a + b == b;
    } else {
      var keep := if a[0].parent in services || wildcard then [a[0]] else [];
      assert (a + b)[0] == a[0] && (a + b)[1..] == a[1..] + b;
      assert FilterFiles(a + b, services, wildcard) == keep + FilterFiles(a[1..] + b, services, wildcard);
      assert FilterFiles(a, services, wildcard) == keep + FilterFiles(a[1..], services, wildcard);
      FilterFilesAppend(a[1..], b, services, wildcard);
      ConcatAssoc(keep, FilterFiles(a[1..], services, wildcard), FilterFiles(b, services, wildcard));
    }
  }

  /** One file is kept exactly when its directory is listed or the wildcard holds. */
  lemma FilterFilesOne(f: ServiceFile, services: seq<string>, wildcard: bool)
    ensures FilterFiles([f], services, wildcard) == if f.parent in services || wildcard then [f] else []
  {
    assert [f][1..] == [];
  }

  /** Both `get_service_files` versions keep the found files in the order they were found. */
  lemma ServiceFilesAppend(e: Entity, a: seq<ServiceFile>, b: seq<ServiceFile>)
    ensures ServiceFiles(e, a + b).Ok? ==> ServiceFiles(e, a + b).value == ServiceFiles(e, a).value + ServiceFiles(e, b).value
    ensures LegacyServiceFiles(e, a + b).Ok? ==>
              LegacyServiceFiles(e, a + b).value == LegacyServiceFiles(e, a).value + LegacyServiceFiles(e, b).value
  {
    if e.servicesRoot.Some? {
      var w := e.services == ["*"];
      FilterFilesAppend(a, b, e.services, w);
      assert ServiceFiles(e, a + b).value == FilterFiles(a + b, e.services, w);
      assert ServiceFiles(e, a).value == FilterFiles(a, e.services, w);
      assert ServiceFiles(e, b).value == FilterFiles(b, e.services, w);
      FilterFilesAppend(a, b, e.services, false);
      assert LegacyServiceFiles(e, a + b).value == FilterFiles(a + b, e.services, false);
      assert LegacyServiceFiles(e, a).value == FilterFiles(a, e.services, false);
      assert LegacyServiceFiles(e, b).value == FilterFiles(b, e.services, false);
    }
  }

  // ----- parsing a workflow chain -----

  /** `s.replace(" ", "")` */
  function RemoveSpaces(s: string): (r: string)
    ensures ' ' !in r
    ensures forall ch :: ch != ' ' ==> multiset(r)[ch] == multiset(s)[ch]
    decreases |s|
  {
    if s == [] then []
    else
      assert s == [s[0]] + s[1..];
      (if s[0] == ' ' then [] else [s[0]]) + RemoveSpaces(s[1..])
  }

  /** Removing spaces keeps the order of the other characters: it distributes over concatenation. */
  lemma {:induction false} RemoveSpacesAppend(a: string, b: string)
    ensures RemoveSpaces(a + b) == RemoveSpaces(a) + RemoveSpaces(b)
    decreases |a|
  {
    if a == [] {
      assert a + b == b;
    } else {
      var keep := if a[0] == ' ' then [] else [a[0]];
      assert (a + b)[0] == a[0] && (a + b)[1..] == a[1..] + b;
      assert RemoveSpaces(a + b) == keep + RemoveSpaces(a[1..] + b);
      assert RemoveSpaces(a) == keep + RemoveSpaces(a[1..]);
      RemoveSpacesAppend(a[1..], b);
      ConcatAssoc(keep, RemoveSpaces(a[1..]), RemoveSpaces(b));
    }
  }

  /** A single character is dropped exactly when it is a space. */
  lemma RemoveSpacesOne(ch: char)
    ensures RemoveSpaces([ch]) == if ch == ' ' then [] else [ch]
  {
    assert [ch][1..] == [];
  }

  predicate ArrowAt(s: string, i: int) {
    0 <= i && i + 1 < |s| && s[i] == '-' && s[i + 1] == '>'
  }

  predicate NoArrow(s: string) {
    forall i :: 0 <= i < |s| ==> !ArrowAt(s, i)
  }

  /** `s.split("->")`: the pieces between non-overlapping arrows, found left to right; never empty. */
  function SplitArrow(s: string): (parts: seq<string>)
    ensures |parts| >= 1
    ensures forall i :: 0 <= i < |parts| ==> NoArrow(parts[i])
    ensures |parts[0]| <= |s| && parts[0] == s[..|parts[0]|]
    decreases |s|
  {
    if |s| < 2 then
      assert NoArrow(s);
      [s]
    else if ArrowAt(s, 0) then [""] + SplitArrow(s[2..])
    else
      var rest := SplitArrow(s[1..]);
      var head := [s[0]] + rest[0];
      assert NoArrow(head) by {
        forall i | 0 <= i < |head|
          ensures !ArrowAt(head, i)
        {
          if i > 0 {
            assert !ArrowAt(rest[0], i - 1);
          } else if |rest[0]| > 0 {
            assert rest[0][0] == s[1];
          }
        }
      }
      [head] + rest[1..]
  }

  /** `"->".join(parts)` */
  function JoinArrow(parts: seq<string>): string
    requires |parts| >= 1
    decreases |parts|
  {
    if |parts| == 1 then parts[0] else parts[0] + "->" + JoinArrow(parts[1..])
  }

  /** Joining the pieces back gives the chain: nothing is lost by the split. */
  lemma {:induction false} JoinSplit(s: string)
    ensures JoinArrow(SplitArrow(s)) == s
    decreases |s|
  {
    if |s| < 2 {
    } else if ArrowAt(s, 0) {
      JoinSplit(s[2..]);
      JoinAfterArrow(s, SplitArrow(s[2..]));
    } else {
      JoinSplit(s[1..]);
      JoinAfterChar(s, SplitArrow(s[1..]));
    }
  }

  /** A leading arrow adds an empty first piece. */
  lemma JoinAfterArrow(s: string, rest: seq<string>)
    requires ArrowAt(s, 0) && |rest| >= 1 && JoinArrow(rest) == s[2..]
    ensures JoinArrow([""] + rest) == s
  {
    assert ([""] + rest)[1..] == rest;
    assert s == "->" + s[2..];
  }

  /** Any other leading character goes in front of the first piece. */
  lemma JoinAfterChar(s: string, rest: seq<string>)
    requires |s| >= 1 && |rest| >= 1 && JoinArrow(rest) == s[1..]
    ensures JoinArrow([[s[0]] + rest[0]] + rest[1..]) == s
  {
    var parts := [[s[0]] + rest[0]] + rest[1..];
    assert s == [s[0]] + s[1..];
    if |rest| > 1 {
      assert parts[1..] == rest[1..];
    }
  }

  /** A piece without an arrow splits to itself. */
  lemma {:induction false} SplitPiece(p: string)
    requires NoArrow(p)
    ensures SplitArrow(p) == [p]
    decreases |p|
  {
    if |p| >= 2 {
      assert !ArrowAt(p, 0);
      assert NoArrow(p[1..]) by {
        forall i | 0 <= i < |p[1..]|
          ensures !ArrowAt(p[1..], i)
        {
          assert !ArrowAt(p, i + 1);
        }
      }
      SplitPiece(p[1..]);
      assert [p[0]] + p[1..] == p;
    }
  }

  /** Splitting `p + "->" + rest` for an arrow-free `p` yields `p` and then the pieces of `rest`. */
  lemma {:induction false} SplitAfterPiece(p: string, rest: string)
    requires NoArrow(p)
    ensures SplitArrow(p + "->" + rest) == [p] + SplitArrow(rest)
    decreases |p|
  {
    var s := p + "->" + rest;
    if p == [] {
      assert s == "->" + rest;
      assert ArrowAt(s, 0);
      assert s[2..] == rest;
    } else {
      assert NoArrow(p[1..]) by {
        forall i | 0 <= i < |p[1..]|
          ensures !ArrowAt(p[1..], i)
        {
          assert !ArrowAt(p, i + 1);
        }
      }
      if |p| >= 2 {
        assert !ArrowAt(p, 0);
      }
      assert !ArrowAt(s, 0);
      assert s[1..] == p[1..] + "->" + rest;
      SplitAfterPiece(p[1..], rest);
      assert [p[0]] + p[1..] == p;
    }
  }

  /** Splitting a join of arrow-free pieces gives the pieces back. */
  lemma {:induction false} SplitJoin(parts: seq<string>)
    requires |parts| >= 1
    requires forall i :: 0 <= i < |parts| ==> NoArrow(parts[i])
    ensures SplitArrow(JoinArrow(parts)) == parts
    decreases |parts|
  {
    if |parts| == 1 {
      SplitPiece(parts[0]);
    } else {
      SplitJoin(parts[1..]);
      SplitAfterPiece(parts[0], JoinArrow(parts[1..]));
      assert [parts[0]] + parts[1..] == parts;
    }
  }

  /** `wf.replace(" ", "").split("->")` */
  function Stages(wf: string): seq<string> {
    SplitArrow(RemoveSpaces(wf))
  }

  // ----- the workflow context -----

  /** `{"workflow": {"input": input, "result": result}}` */
  function WorkflowCtx(input: Ctx, result: Ctx): Ctx {
    map["workflow" := VDict(map["input" := VDict(input), "result" := VDict(result)])]
  }

  const NotADict := "workflow context is not a dictionary"

  /** `ctx["workflow"][part]`, failing as Python would when a key is missing or an entry is no dictionary. */
  function Part(ctx: Ctx, part: string): Result<Ctx> {
    if "workflow" !in ctx then Err(KeyError("workflow"))
    else
      match ctx["workflow"]
      case VDict(w) =>
        if part !in w then Err(KeyError(part))
        else if w[part].VDict? then Ok(w[part].entries)
        else Err(TypeError(NotADict))
      case _ => Err(TypeError(NotADict))
  }

  /** Replaces `ctx["workflow"][part]` by `d`, keeping every other entry. */
  function WithPart(ctx: Ctx, part: string, d: Ctx): Ctx {
    if "workflow" in ctx && ctx["workflow"].VDict? then
      ctx["workflow" := VDict(ctx["workflow"].entries[part := VDict(d)])]
    else ctx
  }

  /** Reading the parts of a context of the initial shape. */
  lemma PartOfWorkflowCtx(input: Ctx, result: Ctx)
    ensures Part(WorkflowCtx(input, result), "input") == Ok(input)
    ensures Part(WorkflowCtx(input, result), "result") == Ok(result)
  {
  }

  /** Replacing the parts of a context of the initial shape keeps the shape. */
  lemma WithPartOfWorkflowCtx(input: Ctx, result: Ctx, d: Ctx)
    ensures WithPart(WorkflowCtx(input, result), "input", d) == WorkflowCtx(d, result)
    ensures WithPart(WorkflowCtx(input, result), "result", d) == WorkflowCtx(input, d)
  {
    var w := map["input" := VDict(input), "result" := VDict(result)];
    assert w["input" := VDict(d)] == map["input" := VDict(d), "result" := VDict(result)];
    assert w["result" := VDict(d)] == map["input" := VDict(input), "result" := VDict(d)];
  }

  /**
   * `run_task(stage, ctx)` of the entity's service manager: the current
   * manager gets the context as `args`, copied into each task's argument
   * dictionary, so top-level writes by a task do not reach it; the legacy
   * one runs every task on the context itself.  A task's exception fails
   * the stage either way.
   */
  ghost function RunStage(c: Catalog, legacy: bool, rank: string -> nat, stage: string, ctx: Ctx): (Result<Value>, Ctx)
    requires Ranked(c, rank, legacy)
  {
    match Resolve(c, stage, legacy, rank)
    case Err(e) => (Err(e), ctx)
    case Ok(tasklist) =>
      if legacy then
        var out := SharedResults(ctx, tasklist);
        (SharedFinal(out), out.ctx)
      else (RunTasklistSpec(map[], tasklist, Some(ctx)).0, ctx)
  }

  /**
   * Before stage i runs: `if tasks[i - 1] in result: input[task] = result[tasks[i - 1]]`
   * (`tasks[i - 1]` is the last stage when i = 0).
   */
  function Feed(ctx: Ctx, stages: seq<string>, i: nat): Result<Ctx>
    requires i < |stages|
  {
    var prev := stages[if i == 0 then |stages| - 1 else i - 1];
    match Part(ctx, "result")
    case Err(e) => Err(e)
    case Ok(result) =>
      if prev !in result then Ok(ctx)
      else
        match Part(ctx, "input")
        case Err(e) => Err(e)
        case Ok(input) => Ok(WithPart(ctx, "input", input[stages[i] := result[prev]]))
  }

  /** After stage `stage` ran: `result[task] = value`. */
  function Store(ctx: Ctx, stage: string, v: Value): Result<Ctx> {
    match Part(ctx, "result")
    case Err(e) => Err(e)
    case Ok(result) => Ok(WithPart(ctx, "result", result[stage := v]))
  }

  /** Stage i: feed it, run it, store its result. */
  ghost function StepStage(c: Catalog, legacy: bool, rank: string -> nat, stages: seq<string>, i: nat, ctx: Ctx): Result<(Ctx, Value)>
    requires Ranked(c, rank, legacy) && i < |stages|
  {
    match Feed(ctx, stages, i)
    case Err(e) => Err(e)
    case Ok(ctx1) =>
      var (r, ctx2) := RunStage(c, legacy, rank, stages[i], ctx1);
      match r
      case Err(e) => Err(e)
      case Ok(v) =>
        match Store(ctx2, stages[i], v)
        case Err(e) => Err(e)
        case Ok(ctx3) => Ok((ctx3, v))
  }

  /** The context after the first i stages, with each stage's result in order. */
  ghost function AfterStages(c: Catalog, legacy: bool, rank: string -> nat, stages: seq<string>, i: nat): Result<(Ctx, seq<Value>)>
    requires Ranked(c, rank, legacy) && i <= |stages|
    decreases i
  {
    if i == 0 then Ok((WorkflowCtx(map[], map[]), []))
    else
      match AfterStages(c, legacy, rank, stages, i - 1)
      case Err(e) => Err(e)
      case Ok((ctx, outs)) =>
        match StepStage(c, legacy, rank, stages, i - 1, ctx)
        case Err(e) => Err(e)
        case Ok((ctx1, v)) => Ok((ctx1, outs + [v]))
  }

  /** A failing stage ends the workflow with its error: no later stage runs. */
  lemma {:induction false} ErrSticks(c: Catalog, legacy: bool, rank: string -> nat, stages: seq<string>, i: nat, n: nat, err: PyError)
    requires Ranked(c, rank, legacy) && i <= n <= |stages|
    requires AfterStages(c, legacy, rank, stages, i) == Err(err)
    ensures AfterStages(c, legacy, rank, stages, n) == Err(err)
    decreases n
  {
    if n > i {
      ErrSticks(c, legacy, rank, stages, i, n - 1, err);
    }
  }

  /** `run_workflow`: an unknown workflow is a KeyError before any stage runs; otherwise the context after all stages. */
  ghost function WorkflowSpec(e: Entity, workflow: string, legacy: bool, rank: string -> nat): Result<Ctx>
    requires Ranked(e.catalog, rank, legacy)
  {
    if workflow !in e.workflows.entries then Err(KeyError(workflow))
    else
      var stages := Stages(e.workflows.entries[workflow]);
      Final(AfterStages(e.catalog, legacy, rank, stages, |stages|))
  }

  /** The context the last stage leaves, or the error that stopped the run. */
  function Final(run: Result<(Ctx, seq<Value>)>): Result<Ctx> {
    match run
    case Err(err) => Err(err)
    case Ok((ctx, _)) => Ok(ctx)
  }

  /** No later stage among the first i has the name of stage j. */
  predicate LastAt(stages: seq<string>, j: nat, i: nat)
    requires j < i <= |stages|
  {
    forall l :: j < l < i ==> stages[l] != stages[j]
  }

  /** Feeding a context of the initial shape. */
  lemma FeedShaped(stages: seq<string>, i: nat, input: Ctx, result: Ctx)
    requires i < |stages|
    ensures var prev := stages[if i == 0 then |stages| - 1 else i - 1];
      Feed(WorkflowCtx(input, result), stages, i) ==
        Ok(WorkflowCtx(if prev in result then input[stages[i] := result[prev]] else input, result))
  {
    var prev := stages[if i == 0 then |stages| - 1 else i - 1];
    PartOfWorkflowCtx(input, result);
    if prev in result {
      WithPartOfWorkflowCtx(input, result, input[stages[i] := result[prev]]);
    }
  }

  /** Storing a stage's value in a context of the initial shape. */
  lemma StoreShaped(input: Ctx, result: Ctx, stage: string, v: Value)
    ensures Store(WorkflowCtx(input, result), stage, v) == Ok(WorkflowCtx(input, result[stage := v]))
  {
    PartOfWorkflowCtx(input, result);
    WithPartOfWorkflowCtx(input, result, result[stage := v]);
  }

  /** The names occurring in a list. */
  function Names(s: seq<string>): set<string> {
    set x | x in s
  }

  /** The `result` dictionary after the first i stages returned `outs`: each stage writes its own name. */
  function ResultOf(stages: seq<string>, outs: seq<Value>, i: nat): Ctx
    requires i <= |stages| && i <= |outs|
  {
    if i == 0 then map[] else ResultOf(stages, outs, i - 1)[stages[i - 1] := outs[i - 1]]
  }

  /**
   * The `input` dictionary after the first i stages: before stage i' >= 1 runs,
   * its name receives the result of stage i' - 1; before stage 0 the result
   * dictionary is still empty, so nothing is fed.
   */
  function InputOf(stages: seq<string>, outs: seq<Value>, i: nat): Ctx
    requires i <= |stages| && i <= |outs|
  {
    if i <= 1 then map[] else InputOf(stages, outs, i - 1)[stages[i - 1] := outs[i - 2]]
  }

  /** `result` holds exactly the names of the stages run, each mapped to the value of its latest run. */
  lemma ResultOfSpec(stages: seq<string>, outs: seq<Value>, i: nat)
    requires i <= |stages| && i <= |outs|
    ensures ResultOf(stages, outs, i).Keys == Names(stages[..i])
    ensures forall j :: 0 <= j < i && LastAt(stages, j, i) ==> ResultOf(stages, outs, i)[stages[j]] == outs[j]
  {
    ResultOfKeys(stages, outs, i);
    ResultOfValues(stages, outs, i);
  }

  lemma {:induction false} ResultOfKeys(stages: seq<string>, outs: seq<Value>, i: nat)
    requires i <= |stages| && i <= |outs|
    ensures ResultOf(stages, outs, i).Keys == Names(stages[..i])
    decreases i
  {
    if i == 0 {
      assert stages[..0] == [];
    } else {
      ResultOfKeys(stages, outs, i - 1);
      assert stages[..i] == stages[..i - 1] + [stages[i - 1]];
    }
  }

  lemma {:induction false} ResultOfValues(stages: seq<string>, outs: seq<Value>, i: nat)
    requires i <= |stages| && i <= |outs|
    ensures forall j :: 0 <= j < i && LastAt(stages, j, i) ==> stages[j] in ResultOf(stages, outs, i) && ResultOf(stages, outs, i)[stages[j]] == outs[j]
    decreases i
  {
    if i > 0 {
      ResultOfValues(stages, outs, i - 1);
      forall j | 0 <= j < i - 1 && LastAt(stages, j, i)
        ensures stages[j] in ResultOf(stages, outs, i) && ResultOf(stages, outs, i)[stages[j]] == outs[j]
      {
        assert LastAt(stages, j, i - 1);
      }
    }
  }

  /**
   * `input` holds exactly the names of the stages after the first, each mapped
   * to the value of the stage just before its latest occurrence.
   */
  lemma InputOfSpec(stages: seq<string>, outs: seq<Value>, i: nat)
    requires i <= |stages| && i <= |outs|
    ensures InputOf(stages, outs, i).Keys == if i == 0 then {} else Names(stages[1..i])
    ensures forall j :: 1 <= j < i && LastAt(stages, j, i) ==> InputOf(stages, outs, i)[stages[j]] == outs[j - 1]
  {
    InputOfKeys(stages, outs, i);
    InputOfValues(stages, outs, i);
  }

  lemma {:induction false} InputOfKeys(stages: seq<string>, outs: seq<Value>, i: nat)
    requires i <= |stages| && i <= |outs|
    ensures InputOf(stages, outs, i).Keys == if i == 0 then {} else Names(stages[1..i])
    decreases i
  {
    if i == 1 {
      assert stages[1..1] == [];
    } else if i > 1 {
      InputOfKeys(stages, outs, i - 1);
      assert stages[1..i] == stages[1..i - 1] + [stages[i - 1]];
    }
  }

  lemma {:induction false} InputOfValues(stages: seq<string>, outs: seq<Value>, i: nat)
    requires i <= |stages| && i <= |outs|
    ensures forall j :: 1 <= j < i && LastAt(stages, j, i) ==> stages[j] in InputOf(stages, outs, i) && InputOf(stages, outs, i)[stages[j]] == outs[j - 1]
    decreases i
  {
    if i > 1 {
      InputOfValues(stages, outs, i - 1);
      forall j | 1 <= j < i - 1 && LastAt(stages, j, i)
        ensures stages[j] in InputOf(stages, outs, i) && InputOf(stages, outs, i)[stages[j]] == outs[j - 1]
      {
        assert LastAt(stages, j, i - 1);
      }
    }
  }

  /**
   * With the current manager the context keeps exactly the initial shape
   * `{"workflow": {"input": ..., "result": ...}}`, with the two dictionaries
   * described by `InputOf` and `ResultOf`.
   */
  lemma {:induction false} WorkflowShape(c: Catalog, rank: string -> nat, stages: seq<string>, i: nat)
    requires Ranked(c, rank, false) && i <= |stages|
    ensures AfterStages(c, false, rank, stages, i).Ok? ==>
      var (ctx, outs) := AfterStages(c, false, rank, stages, i).value;
      |outs| == i && ctx == WorkflowCtx(InputOf(stages, outs, i), ResultOf(stages, outs, i))
    decreases i
  {
    if i > 0 {
      WorkflowShape(c, rank, stages, i - 1);
      if AfterStages(c, false, rank, stages, i - 1).Ok? {
        var (ctx, outs) := AfterStages(c, false, rank, stages, i - 1).value;
        ShapeStep(c, rank, stages, i, ctx, outs);
      }
    }
  }

  /** One stage with the current manager keeps the shape. */
  lemma ShapeStep(c: Catalog, rank: string -> nat, stages: seq<string>, i: nat, ctx: Ctx, outs: seq<Value>)
    requires Ranked(c, rank, false) && 1 <= i <= |stages| && |outs| == i - 1
    requires AfterStages(c, false, rank, stages, i - 1) == Ok((ctx, outs))
    requires ctx == WorkflowCtx(InputOf(stages, outs, i - 1), ResultOf(stages, outs, i - 1))
    ensures AfterStages(c, false, rank, stages, i).Ok? ==>
      var (ctx1, outs1) := AfterStages(c, false, rank, stages, i).value;
      |outs1| == i && ctx1 == WorkflowCtx(InputOf(stages, outs1, i), ResultOf(stages, outs1, i))
  {
    NextStage(c, false, rank, stages, i - 1, ctx, outs);
    var step := StepStage(c, false, rank, stages, i - 1, ctx);
    if step.Ok? {
      StepOnShape(c, rank, stages, i, outs);
      var (ctx1, v) := step.value;
      AppendShape(stages, outs, v, i);
    }
  }

  /** Stage i - 1 with the current manager on a context of the shape the earlier stages left. */
  lemma StepOnShape(c: Catalog, rank: string -> nat, stages: seq<string>, i: nat, outs: seq<Value>)
    requires Ranked(c, rank, false) && 1 <= i <= |stages| && |outs| == i - 1
    ensures var input, result := InputOf(stages, outs, i - 1), ResultOf(stages, outs, i - 1);
      var input1 := if i == 1 then input else input[stages[i - 1] := outs[i - 2]];
      var step := StepStage(c, false, rank, stages, i - 1, WorkflowCtx(input, result));
      step.Ok? ==> step.value.0 == WorkflowCtx(input1, result[stages[i - 1] := step.value.1])
  {
    var input, result := InputOf(stages, outs, i - 1), ResultOf(stages, outs, i - 1);
    PreviousResult(stages, outs, i);
    FeedShaped(stages, i - 1, input, result);
    var input1 := if i == 1 then input else input[stages[i - 1] := outs[i - 2]];
    var fed := WorkflowCtx(input1, result);
    assert Feed(WorkflowCtx(input, result), stages, i - 1) == Ok(fed);
    var run := RunStage(c, false, rank, stages[i - 1], fed);
    CurrentStageKeepsCtx(c, rank, stages[i - 1], fed);
    if run.0.Ok? {
      StoreShaped(input1, result, stages[i - 1], run.0.value);
    }
  }

  /** With the current manager a stage's task sees a fresh argument dictionary, so the context itself is unchanged. */
  lemma CurrentStageKeepsCtx(c: Catalog, rank: string -> nat, stage: string, ctx: Ctx)
    requires Ranked(c, rank, false)
    ensures RunStage(c, false, rank, stage, ctx).1 == ctx
  {
  }

  /** Recording stage i - 1's value extends the two dictionaries the way `InputOf` and `ResultOf` say. */
  lemma AppendShape(stages: seq<string>, outs: seq<Value>, v: Value, i: nat)
    requires 1 <= i <= |stages| && |outs| == i - 1
    ensures var input, result := InputOf(stages, outs, i - 1), ResultOf(stages, outs, i - 1);
      var input1 := if i == 1 then input else input[stages[i - 1] := outs[i - 2]];
      WorkflowCtx(input1, result[stages[i - 1] := v]) == WorkflowCtx(InputOf(stages, outs + [v], i), ResultOf(stages, outs + [v], i))
  {
    ResultOfAppend(stages, outs, v, i);
    InputOfAppend(stages, outs, v, i);
  }

  /** Before stage i - 1 runs, the result of the stage before it is there to feed, except before the first stage. */
  lemma PreviousResult(stages: seq<string>, outs: seq<Value>, i: nat)
    requires 1 <= i <= |stages| && |outs| == i - 1
    ensures i == 1 ==> ResultOf(stages, outs, i - 1) == map[]
    ensures i > 1 ==> stages[i - 2] in ResultOf(stages, outs, i - 1) && ResultOf(stages, outs, i - 1)[stages[i - 2]] == outs[i - 2]
  {
  }

  /** Appending a later result leaves the dictionaries of the earlier stages alone. */
  lemma {:induction false} ResultOfAppend(stages: seq<string>, outs: seq<Value>, v: Value, i: nat)
    requires 1 <= i <= |stages| && |outs| == i - 1
    ensures ResultOf(stages, outs + [v], i) == ResultOf(stages, outs, i - 1)[stages[i - 1] := v]
  {
    ResultOfPrefix(stages, outs, outs + [v], i - 1);
  }

  lemma {:induction false} InputOfAppend(stages: seq<string>, outs: seq<Value>, v: Value, i: nat)
    requires 1 <= i <= |stages| && |outs| == i - 1
    ensures InputOf(stages, outs + [v], i) == if i == 1 then map[] else InputOf(stages, outs, i - 1)[stages[i - 1] := outs[i - 2]]
  {
    if i > 1 {
      InputOfPrefix(stages, outs, outs + [v], i - 1);
    }
  }

  lemma {:induction false} ResultOfPrefix(stages: seq<string>, a: seq<Value>, b: seq<Value>, i: nat)
    requires i <= |stages| && i <= |a| && i <= |b| && a[..i] == b[..i]
    ensures ResultOf(stages, a, i) == ResultOf(stages, b, i)
    decreases i
  {
    if i > 0 {
      assert a[i - 1] == a[..i][i - 1] == b[..i][i - 1] == b[i - 1];
      assert a[..i - 1] == a[..i][..i - 1];
      assert b[..i - 1] == b[..i][..i - 1];
      ResultOfPrefix(stages, a, b, i - 1);
    }
  }

  lemma {:induction false} InputOfPrefix(stages: seq<string>, a: seq<Value>, b: seq<Value>, i: nat)
    requires i <= |stages| && i <= |a| && i <= |b| && a[..i] == b[..i]
    ensures InputOf(stages, a, i) == InputOf(stages, b, i)
    decreases i
  {
    if i > 1 {
      assert a[i - 2] == a[..i][i - 2] == b[..i][i - 2] == b[i - 2];
      assert a[..i - 1] == a[..i][..i - 1];
      assert b[..i - 1] == b[..i][..i - 1];
      InputOfPrefix(stages, a, b, i - 1);
    }
  }

  /** One pass of the loop body of `run_workflow` with the current manager: feed stage i, run it, store its result. */
  method RunStageStep(c: Catalog, stages: seq<string>, i: nat, ctx: Ctx, ghost rank: string -> nat) returns (r: Result<(Ctx, Value)>)
    requires Ranked(c, rank, false) && i < |stages|
    ensures r == StepStage(c, false, rank, stages, i, ctx)
  {
    var fed := Feed(ctx, stages, i);
    if fed.Err? {
      return Err(fed.error);
    }
    var v, _ := RunTask(c, stages[i], Some(fed.value), None, rank);
    if v.Err? {
      return Err(v.error);
    }
    var stored := Store(fed.value, stages[i], v.value);
    if stored.Err? {
      return Err(stored.error);
    }
    r := Ok((stored.value, v.value));
  }

  /** The same pass with the legacy manager: the stage's tasks run on the context itself. */
  method RunStageStepLegacy(c: Catalog, stages: seq<string>, i: nat, ctx: Ctx, ghost rank: string -> nat) returns (r: Result<(Ctx, Value)>)
    requires Ranked(c, rank, true) && i < |stages|
    ensures r == StepStage(c, true, rank, stages, i, ctx)
  {
    var fed := Feed(ctx, stages, i);
    if fed.Err? {
      return Err(fed.error);
    }
    var v, ctx2 := RunTaskShared(c, stages[i], fed.value, rank);
    if v.Err? {
      return Err(v.error);
    }
    var stored := Store(ctx2, stages[i], v.value);
    if stored.Err? {
      return Err(stored.error);
    }
    r := Ok((stored.value, v.value));
  }

  /** Running stage i after the first i stages: its error ends the run, its success extends it. */
  lemma NextStage(c: Catalog, legacy: bool, rank: string -> nat, stages: seq<string>, i: nat, ctx: Ctx, outs: seq<Value>)
    requires Ranked(c, rank, legacy) && i < |stages|
    requires AfterStages(c, legacy, rank, stages, i) == Ok((ctx, outs))
    ensures StepStage(c, legacy, rank, stages, i, ctx).Err? ==>
      AfterStages(c, legacy, rank, stages, i + 1) == Err(StepStage(c, legacy, rank, stages, i, ctx).error)
    ensures StepStage(c, legacy, rank, stages, i, ctx).Ok? ==>
      var (ctx1, v) := StepStage(c, legacy, rank, stages, i, ctx).value;
      AfterStages(c, legacy, rank, stages, i + 1) == Ok((ctx1, outs + [v]))
  {
  }

  /** A failing stage decides the outcome of the whole run. */
  lemma StepFails(c: Catalog, legacy: bool, rank: string -> nat, stages: seq<string>, i: nat, ctx: Ctx, outs: seq<Value>)
    requires Ranked(c, rank, legacy) && i < |stages|
    requires AfterStages(c, legacy, rank, stages, i) == Ok((ctx, outs))
    requires StepStage(c, legacy, rank, stages, i, ctx).Err?
    ensures AfterStages(c, legacy, rank, stages, |stages|) == Err(StepStage(c, legacy, rank, stages, i, ctx).error)
  {
    var err := StepStage(c, legacy, rank, stages, i, ctx).error;
    NextStage(c, legacy, rank, stages, i, ctx, outs);
    ErrSticks(c, legacy, rank, stages, i + 1, |stages|, err);
  }

  /** The body of the stage loop: either the run ends with the stage's error, or it goes on with the stage's result. */
  method RunNextStage(c: Catalog, legacy: bool, stages: seq<string>, i: nat, ctx: Ctx, ghost outs: seq<Value>, ghost rank: string -> nat)
    returns (r: Result<(Ctx, Value)>)
    requires Ranked(c, rank, legacy) && i < |stages|
    requires AfterStages(c, legacy, rank, stages, i) == Ok((ctx, outs))
    ensures r.Err? ==> Final(AfterStages(c, legacy, rank, stages, |stages|)) == Err(r.error)
    ensures r.Ok? ==> AfterStages(c, legacy, rank, stages, i + 1) == Ok((r.value.0, outs + [r.value.1]))
  {
    if legacy {
      r := RunStageStepLegacy(c, stages, i, ctx, rank);
    } else {
      r := RunStageStep(c, stages, i, ctx, rank);
    }
    if r.Err? {
      StepFails(c, legacy, rank, stages, i, ctx, outs);
    } else {
      NextStage(c, legacy, rank, stages, i, ctx, outs);
    }
  }

  /**
   * The loop of `run_workflow` over the chain's stages, identical in both
   * entity modules; `legacy` selects the manager that runs a stage.
   */
  method RunStages(c: Catalog, legacy: bool, stages: seq<string>, ghost rank: string -> nat) returns (r: Result<Ctx>)
    requires Ranked(c, rank, legacy)
    ensures r == Final(AfterStages(c, legacy, rank, stages, |stages|))
  {
    var ctx := WorkflowCtx(map[], map[]);
    ghost var outs: seq<Value> := [];
    var i := 0;
    while i < |stages|
      invariant 0 <= i <= |stages|
      invariant AfterStages(c, legacy, rank, stages, i) == Ok((ctx, outs))
    {
      var step := RunNextStage(c, legacy, stages, i, ctx, outs, rank);
      if step.Err? {
        return Err(step.error);
      }
      ctx := step.value.0;
      outs := outs + [step.value.1];
      i := i + 1;
    }
    r := Ok(ctx);
  }

  /** `run_workflow` (`entity/__main__.py`): look the chain up, split it, run its stages. */
  method RunWorkflow(e: Entity, workflow: string, ghost rank: string -> nat) returns (r: Result<Ctx>)
    requires Ranked(e.catalog, rank, false)
    ensures r == WorkflowSpec(e, workflow, false, rank)
  {
    if workflow !in e.workflows.entries {
      return Err(KeyError(workflow));
    }
    r := RunStages(e.catalog, false, Stages(e.workflows.entries[workflow]), rank);
  }

  /** `run_workflow` of the legacy entity (`entity.py`). */
  method RunWorkflowLegacy(e: Entity, workflow: string, ghost rank: string -> nat) returns (r: Result<Ctx>)
    requires Ranked(e.catalog, rank, true)
    ensures r == WorkflowSpec(e, workflow, true, rank)
  {
    if workflow !in e.workflows.entries {
      return Err(KeyError(workflow));
    }
    r := RunStages(e.catalog, true, Stages(e.workflows.entries[workflow]), rank);
  }

  // ----- binding the entity's actions onto its tasks -----

  function RebindCatalog(c: Catalog, offered: ActionTable): Catalog {
    MapValues(c, s => RebindService(s, offered))
  }

  /**
   * After binding, every loaded task of every service has exactly the
   * requested actions that `offered` holds bound to `offered`'s pairs, and
   * keeps its other actions.
   */
  lemma RebindCatalogSpec(c: Catalog, offered: ActionTable, sname: string, tname: string, a: string)
    requires sname in c.entries && tname in c.entries[sname].loaded.entries
    ensures RebindCatalog(c, offered).keys == c.keys
    ensures sname in RebindCatalog(c, offered).entries
    ensures var s := RebindCatalog(c, offered).entries[sname];
      var t := c.entries[sname].loaded.entries[tname];
      && s.loaded.keys == c.entries[sname].loaded.keys
      && tname in s.loaded.entries
      && s.loaded.entries[tname].requestedActions == t.requestedActions
      && GetAction(s.loaded.entries[tname].actions, a) ==
         if a in t.requestedActions && a in offered.entries then GetAction(offered, a) else GetAction(t.actions, a)
  {
    var t := c.entries[sname].loaded.entries[tname];
    BoundActionsSpec(t.actions, t.requestedActions, offered);
  }

  /** The catalog part-way through the binding loop: the first j services are rebound, the rest untouched. */
  ghost predicate BoundUpTo(c: Catalog, offered: ActionTable, bound: Catalog, j: nat)
    requires j <= |c.keys|
  {
    && bound.keys == c.keys
    && bound.entries.Keys == c.entries.Keys
    && forall i :: 0 <= i < |c.keys| ==>
         bound.entries[c.keys[i]] == if i < j then RebindService(c.entries[c.keys[i]], offered) else c.entries[c.keys[i]]
  }

  /** One turn of the binding loop keeps `BoundUpTo`. */
  lemma BindOne(c: Catalog, offered: ActionTable, bound: Catalog, j: nat)
    requires j < |c.keys| && BoundUpTo(c, offered, bound, j)
    ensures BoundUpTo(c, offered, Put(bound, c.keys[j], RebindService(c.entries[c.keys[j]], offered)), j + 1)
  {
    var next := Put(bound, c.keys[j], RebindService(c.entries[c.keys[j]], offered));
    forall i | 0 <= i < |c.keys|
      ensures next.entries[c.keys[i]] == if i < j + 1 then RebindService(c.entries[c.keys[i]], offered) else c.entries[c.keys[i]]
    {
      if i != j {
        assert c.keys[i] != c.keys[j];
      }
    }
  }

  /** After the whole loop every service is rebound. */
  lemma BindAll(c: Catalog, offered: ActionTable, bound: Catalog)
    requires BoundUpTo(c, offered, bound, |c.keys|)
    ensures bound == RebindCatalog(c, offered)
  {
    forall k | k in c.entries
      ensures bound.entries[k] == RebindService(c.entries[k], offered)
    {
      var i := IndexOf(c, k);
    }
    RebindCatalogExt(c, offered, bound);
  }

  /** `for service in services.values(): for task in service.get_tasks(): bind`, in load order. */
  method BindCatalog(c: Catalog, offered: ActionTable) returns (bound: Catalog)
    ensures bound == RebindCatalog(c, offered)
  {
    bound := c;
    var j := 0;
    while j < |c.keys|
      invariant 0 <= j <= |c.keys|
      invariant BoundUpTo(c, offered, bound, j)
    {
      var name := c.keys[j];
      var svc := RebindTasks(c.entries[name], offered);
      BindOne(c, offered, bound, j);
      bound := Put(bound, name, svc);
      j := j + 1;
    }
    BindAll(c, offered, bound);
  }

  /** A catalog with the same names in the same order, each service rebound, is the rebound catalog. */
  lemma RebindCatalogExt(c: Catalog, offered: ActionTable, r: Catalog)
    requires r.keys == c.keys && r.entries.Keys == c.entries.Keys
    requires forall k :: k in c.entries ==> r.entries[k] == RebindService(c.entries[k], offered)
    ensures r == RebindCatalog(c, offered)
  {
    var expected := RebindCatalog(c, offered);
    assert r.entries == expected.entries;
  }

  /** The binding loop of `load_from_yaml`: every task is offered the entity's own registry. */
  method BindEntityActions(e: Entity) returns (bound: Entity)
    ensures bound == e.(catalog := RebindCatalog(e.catalog, e.actions))
  {
    var c := BindCatalog(e.catalog, e.actions);
    bound := e.(catalog := c);
  }
}
