/**
 * The service manager: a catalog of services in insertion order, task lookup
 * through the first service that declares a name, dependency resolution into
 * an execution list, and the two runners.
 *
 * Two generations of the manager exist.  The current one
 * (dizzy/service/manager.py) answers an unknown name with an empty list,
 * skips a dependency on the task itself, and threads results through
 * per-name stacks.  The older one (dizzy/service.py) raises for an unknown
 * name, has no self-skip, and runs every task against one shared context.
 * Resolution is written once with a `legacy` switch between the two.
 */
module ServiceManagers {
  import opened Wrappers
  import opened Values
  import opened OrderedMaps
  import opened Actions
  import opened Tasks
  import opened Services

  type Catalog = OMap<string, Service>

  /** The i-th service in insertion order. */
  function At(c: Catalog, i: nat): Service
    requires i < |c.keys|
  {
    c.entries[c.keys[i]]
  }

  /** The first position, from `i` on, of a service that declares `task`. */
  function OwnerFrom(c: Catalog, task: string, i: nat): (r: Option<nat>)
    requires i <= |c.keys|
    ensures r.Some? ==> i <= r.value < |c.keys| && task in At(c, r.value).tasks
    ensures r.Some? ==> forall j :: i <= j < r.value ==> task !in At(c, j).tasks
    ensures r.None? ==> forall j :: i <= j < |c.keys| ==> task !in At(c, j).tasks
    decreases |c.keys| - i
  {
    if i == |c.keys| then None
    else if task in At(c, i).tasks then Some(i)
    else OwnerFrom(c, task, i + 1)
  }

  /** `find_owner_service`: the first service, in insertion order, whose declared tasks contain the name. */
  function FindOwnerService(c: Catalog, task: string): (r: Option<Service>)
    ensures r.None? <==> forall j :: 0 <= j < |c.keys| ==> task !in At(c, j).tasks
    ensures r.Some? ==> exists i :: 0 <= i < |c.keys| && r.value == At(c, i) && task in At(c, i).tasks &&
                                    forall j :: 0 <= j < i ==> task !in At(c, j).tasks
  {
    match OwnerFrom(c, task, 0)
    case None => None
    case Some(i) => Some(At(c, i))
  }

  /** `get_service`: the service stored under the name, or None. */
  function GetService(c: Catalog, name: string): (r: Option<Service>)
    ensures r.None? <==> name !in c.entries
    ensures r.Some? ==> r.value == c.entries[name]
  {
    Get(c, name)
  }

  /**
   * `find_task`: the owner's task; None when no service declares the name;
   * the owner's ValueError when it declares the name but did not load it.
   */
  function FindTask(c: Catalog, task: string): (r: Result<Option<Task>>)
    ensures r == Ok(None) <==> FindOwnerService(c, task).None?
    ensures r.Ok? && r.value.Some? ==>
      FindOwnerService(c, task).Some? && task in FindOwnerService(c, task).value.loaded.entries &&
      r.value.value == FindOwnerService(c, task).value.loaded.entries[task]
    ensures r.Err? ==>
      FindOwnerService(c, task).Some? && task !in FindOwnerService(c, task).value.loaded.entries &&
      r.error == ValueError("Task " + task + " not loaded")
  {
    match FindOwnerService(c, task)
    case None => Ok(None)
    case Some(s) =>
      match GetTask(s, task)
      case Ok(t) => Ok(Some(t))
      case Err(e) => Err(e)
  }

  /** The task `find_task` returns, when it returns one. */
  function Found(c: Catalog, name: string): Option<Task> {
    match FindTask(c, name)
    case Ok(Some(t)) => Some(t)
    case _ => None
  }

  /**
   * A rank that strictly decreases along every dependency edge resolution
   * follows (the current version does not follow an edge to the task itself).
   * The source has no cycle check; on a cycle it stops with a RecursionError,
   * an error path this precondition rules out.
   */
  ghost predicate Ranked(c: Catalog, rank: string -> nat, legacy: bool) {
    forall n, d :: Found(c, n).Some? && d in Found(c, n).value.dependencies && (legacy || d != n) ==> rank(d) < rank(n)
  }

  /** Appends `suffix` to a successful list. */
  function Then(r: Result<seq<Task>>, suffix: seq<Task>): Result<seq<Task>> {
    match r
    case Ok(v) => Ok(v + suffix)
    case Err(e) => Err(e)
  }

  /**
   * `resolve_task_dependencies`: an unknown name gives `[]` (current) or a
   * ValueError (legacy); a task without dependencies gives `[t]`; otherwise
   * each dependency's chain is put in front of those resolved before it, and
   * the task comes last.
   */
  function Resolve(c: Catalog, name: string, legacy: bool, ghost rank: string -> nat): Result<seq<Task>>
    requires Ranked(c, rank, legacy)
    decreases rank(name), 1
  {
    match FindTask(c, name)
    case Err(e) => Err(e)
    case Ok(None) => if legacy then Err(ValueError("Task " + name + " not found")) else Ok([])
    case Ok(Some(t)) =>
      if t.dependencies == [] then Ok([t])
      else Then(Chains(c, name, t.dependencies, [], legacy, rank), [t])
  }

  /** The dependency loop: `tasks = resolve(dep) + tasks` for each dependency in order. */
  function Chains(c: Catalog, name: string, deps: seq<string>, acc: seq<Task>, legacy: bool, ghost rank: string -> nat): Result<seq<Task>>
    requires Ranked(c, rank, legacy)
    requires forall d :: d in deps && (legacy || d != name) ==> rank(d) < rank(name)
    decreases rank(name), 0, |deps|
  {
    if deps == [] then Ok(acc)
    else if !legacy && deps[0] == name then Chains(c, name, deps[1..], acc, legacy, rank)
    else
      match Resolve(c, deps[0], legacy, rank)
      case Err(e) => Err(e)
      case Ok(r) => Chains(c, name, deps[1..], r + acc, legacy, rank)
  }

  /**
   * The closed form of the dependency loop: with dependencies d1..dn it is
   * `resolve(dn) ++ ... ++ resolve(d1)`, failing with the first failure in
   * declaration order; self-dependencies contribute nothing (current version).
   */
  ghost function Reference(c: Catalog, name: string, deps: seq<string>, legacy: bool, rank: string -> nat): Result<seq<Task>>
    requires Ranked(c, rank, legacy)
    requires forall d :: d in deps && (legacy || d != name) ==> rank(d) < rank(name)
    decreases |deps|
  {
    if deps == [] then Ok([])
    else
      var last := deps[|deps| - 1];
      match Reference(c, name, deps[..|deps| - 1], legacy, rank)
      case Err(e) => Err(e)
      case Ok(p) =>
        if !legacy && last == name then Ok(p)
        else
          match Resolve(c, last, legacy, rank)
          case Err(e) => Err(e)
          case Ok(r) => Ok(r + p)
  }

  /** The accumulator only ever ends up behind everything the loop prepends. */
  lemma {:induction false} ChainsAcc(c: Catalog, name: string, deps: seq<string>, acc: seq<Task>, legacy: bool, rank: string -> nat)
    requires Ranked(c, rank, legacy)
    requires forall d :: d in deps && (legacy || d != name) ==> rank(d) < rank(name)
    ensures Chains(c, name, deps, acc, legacy, rank) == Then(Chains(c, name, deps, [], legacy, rank), acc)
    decreases |deps|
  {
    if deps == [] {
      assert [] + acc == acc;
    } else {
      if !legacy && deps[0] == name {
        ChainsAcc(c, name, deps[1..], acc, legacy, rank);
      } else if Resolve(c, deps[0], legacy, rank).Ok? {
        var r := Resolve(c, deps[0], legacy, rank).value;
        assert r + [] == r;
        ChainsAcc(c, name, deps[1..], r + acc, legacy, rank);
        ChainsAcc(c, name, deps[1..], r, legacy, rank);
        ThenAssoc(Chains(c, name, deps[1..], [], legacy, rank), r, acc);
      }
    }
  }

  /** Appending in two steps is appending the concatenation. */
  lemma ThenAssoc(x: Result<seq<Task>>, r: seq<Task>, acc: seq<Task>)
    ensures Then(Then(x, r), acc) == Then(x, r + acc)
  {
    if x.Ok? {
      assert x.value + (r + acc) == (x.value + r) + acc;
    }
  }

  /** One more dependency at the end puts its chain in front. */
  lemma {:induction false} ChainsSnoc(c: Catalog, name: string, deps: seq<string>, d: string, acc: seq<Task>, legacy: bool, rank: string -> nat)
    requires Ranked(c, rank, legacy)
    requires forall e :: e in deps + [d] && (legacy || e != name) ==> rank(e) < rank(name)
    ensures Chains(c, name, deps + [d], acc, legacy, rank) ==
      match Chains(c, name, deps, acc, legacy, rank)
      case Err(e) => Err(e)
      case Ok(p) =>
        if !legacy && d == name then Ok(p)
        else
          match Resolve(c, d, legacy, rank)
          case Err(e) => Err(e)
          case Ok(r) => Ok(r + p)
    decreases |deps|
  {
    if deps == [] {
      assert [d][1..] == [];
    } else {
      assert (deps + [d])[1..] == deps[1..] + [d];
      if !legacy && deps[0] == name {
        ChainsSnoc(c, name, deps[1..], d, acc, legacy, rank);
      } else if Resolve(c, deps[0], legacy, rank).Ok? {
        ChainsSnoc(c, name, deps[1..], d, Resolve(c, deps[0], legacy, rank).value + acc, legacy, rank);
      }
    }
  }

  /** Later-declared dependencies' chains come first: the loop computes the closed form. */
  lemma {:induction false} ChainsIsReference(c: Catalog, name: string, deps: seq<string>, legacy: bool, rank: string -> nat)
    requires Ranked(c, rank, legacy)
    requires forall d :: d in deps && (legacy || d != name) ==> rank(d) < rank(name)
    ensures Chains(c, name, deps, [], legacy, rank) == Reference(c, name, deps, legacy, rank)
    decreases |deps|
  {
    if deps != [] {
      var init := deps[..|deps| - 1];
      assert deps == init + [deps[|deps| - 1]];
      ChainsIsReference(c, name, init, legacy, rank);
      ChainsSnoc(c, name, init, deps[|deps| - 1], [], legacy, rank);
    }
  }

  /** A name no service declares resolves to `[]` (current) or a ValueError (legacy). */
  lemma ResolveUnknown(c: Catalog, name: string, legacy: bool, rank: string -> nat)
    requires Ranked(c, rank, legacy)
    requires forall j :: 0 <= j < |c.keys| ==> name !in At(c, j).tasks
    ensures Resolve(c, name, legacy, rank) == if legacy then Err(ValueError("Task " + name + " not found")) else Ok([])
  {
  }

  /** A found task without dependencies resolves to itself alone; one with dependencies comes last. */
  lemma ResolveFound(c: Catalog, name: string, legacy: bool, rank: string -> nat)
    requires Ranked(c, rank, legacy)
    requires Found(c, name).Some?
    ensures var t := Found(c, name).value;
      Resolve(c, name, legacy, rank) ==
        if t.dependencies == [] then Ok([t]) else Then(Reference(c, name, t.dependencies, legacy, rank), [t])
  {
    var t := Found(c, name).value;
    if t.dependencies != [] {
      ChainsIsReference(c, name, t.dependencies, legacy, rank);
    }
  }

  /** Legacy resolution fails when any dependency anywhere below is declared nowhere. */
  lemma {:induction false} LegacyMissingDependencyFails(c: Catalog, name: string, rank: string -> nat, path: seq<string>)
    requires Ranked(c, rank, true)
    requires |path| >= 2 && path[0] == name
    requires forall i :: 0 <= i < |path| - 1 ==> Found(c, path[i]).Some? && path[i + 1] in Found(c, path[i]).value.dependencies
    requires forall j :: 0 <= j < |c.keys| ==> path[|path| - 1] !in At(c, j).tasks
    ensures Resolve(c, name, true, rank).Err?
    decreases |path|
  {
    var t := Found(c, name).value;
    if |path| == 2 {
      ResolveUnknown(c, path[1], true, rank);
    } else {
      LegacyMissingDependencyFails(c, path[1], rank, path[1..]);
    }
    ChainsFailsOn(c, name, t.dependencies, [], rank, path[1]);
  }

  /** A failing dependency makes the whole legacy loop fail. */
  lemma {:induction false} ChainsFailsOn(c: Catalog, name: string, deps: seq<string>, acc: seq<Task>, rank: string -> nat, d: string)
    requires Ranked(c, rank, true)
    requires forall e :: e in deps ==> rank(e) < rank(name)
    requires d in deps && Resolve(c, d, true, rank).Err?
    ensures Chains(c, name, deps, acc, true, rank).Err?
    decreases |deps|
  {
    if deps[0] != d && Resolve(c, deps[0], true, rank).Ok? {
      ChainsFailsOn(c, name, deps[1..], Resolve(c, deps[0], true, rank).value + acc, rank, d);
    }
  }

  // ----- the stack-threading runner (current version) -----

  /** The context of the current runner: one stack of results per task name. */
  type Stacks = map<string, seq<Value>>

  /** The stack stored under `k`, absent meaning empty. */
  function Stack(s: Stacks, k: string): seq<Value> {
    if k in s then s[k] else []
  }

  datatype Popped = Popped(failure: Option<PyError>, args: Ctx, stacks: Stacks)

  /**
   * `{dep: ctx[dep].pop() for dep in task.dependencies}`: one pop per listed
   * dependency, in order; a missing stack is a KeyError, an empty one an
   * IndexError (the stacks keep the pops already made).
   */
  function PopArgs(s: Stacks, deps: seq<string>, acc: Ctx): Popped
    decreases |deps|
  {
    if deps == [] then Popped(None, acc, s)
    else
      var d := deps[0];
      if d !in s then Popped(Some(KeyError(d)), acc, s)
      else if s[d] == [] then Popped(Some(IndexError("pop from empty list")), acc, s)
      else PopArgs(s[d := s[d][..|s[d]| - 1]], deps[1..], acc[d := s[d][|s[d]| - 1]])
  }

  /** The task's input: the popped values, overlaid by `args` when given. */
  function Input(popped: Ctx, args: Option<Ctx>): Ctx {
    if args.Some? then Update(popped, args.value) else popped
  }

  datatype Run = Run(failure: Option<PyError>, stacks: Stacks)

  /**
   * One task: pop its arguments, run it, push its result on the stack of its
   * name.  An exception the task raises ends the list, with the pops made.
   */
  function Step(s: Stacks, t: Task, args: Option<Ctx>): Run {
    var p := PopArgs(s, t.dependencies, map[]);
    if p.failure.Some? then Run(p.failure, p.stacks)
    else
      match t.run(Input(p.args, args)).0
      case Err(e) => Run(Some(e), p.stacks)
      case Ok(v) => Run(None, p.stacks[t.name := Stack(p.stacks, t.name) + [v]])
  }

  function RunSteps(s: Stacks, tasks: seq<Task>, args: Option<Ctx>): Run
    decreases |tasks|
  {
    if tasks == [] then Run(None, s)
    else
      var r := Step(s, tasks[0], args);
      if r.failure.Some? then r else RunSteps(r.stacks, tasks[1..], args)
  }

  /**
   * `run_tasklist`: the steps, then the final value popped from the last
   * task's stack; an empty list (or an empty stack) gives None, since the
   * IndexError is caught there.
   */
  function RunTasklistSpec(s: Stacks, tasks: seq<Task>, args: Option<Ctx>): (Result<Value>, Stacks) {
    var run := RunSteps(s, tasks, args);
    if run.failure.Some? then (Err(run.failure.value), run.stacks)
    else if tasks == [] then (Ok(VNone), run.stacks)
    else
      var n := tasks[|tasks| - 1].name;
      var st := run.stacks;
      if n !in st then (Err(KeyError(n)), st)
      else if st[n] == [] then (Ok(VNone), st)
      else (Ok(st[n][|st[n]| - 1]), st[n := st[n][..|st[n]| - 1]])
  }

  /**
   * Each dependency is popped exactly once per listing: popping succeeds when
   * every stack holds at least as many values as its name is listed, the
   * stack loses exactly that many from the top, and the argument under a name
   * is the deepest value popped for it (later pops overwrite earlier ones).
   */
  lemma {:induction false} PopArgsSpec(s: Stacks, deps: seq<string>, acc: Ctx, k: string)
    requires PopArgs(s, deps, acc).failure.None?
    ensures multiset(deps)[k] <= |Stack(s, k)|
    ensures Stack(PopArgs(s, deps, acc).stacks, k) == Stack(s, k)[..|Stack(s, k)| - multiset(deps)[k]]
    ensures k in PopArgs(s, deps, acc).args <==> k in acc || k in deps
    ensures k in deps ==> PopArgs(s, deps, acc).args[k] == Stack(s, k)[|Stack(s, k)| - multiset(deps)[k]]
    ensures k !in deps && k in acc ==> PopArgs(s, deps, acc).args[k] == acc[k]
  {
    PopArgsStacks(s, deps, acc, k);
    PopArgsValues(s, deps, acc, k);
  }

  /** The stack half of `PopArgsSpec`. */
  lemma {:induction false} PopArgsStacks(s: Stacks, deps: seq<string>, acc: Ctx, k: string)
    requires PopArgs(s, deps, acc).failure.None?
    ensures multiset(deps)[k] <= |Stack(s, k)|
    ensures Stack(PopArgs(s, deps, acc).stacks, k) == Stack(s, k)[..|Stack(s, k)| - multiset(deps)[k]]
    decreases |deps|
  {
    if deps == [] {
      assert Stack(s, k)[..|Stack(s, k)|] == Stack(s, k);
    } else {
      var d := deps[0];
      var s' := s[d := s[d][..|s[d]| - 1]];
      var acc' := acc[d := s[d][|s[d]| - 1]];
      PopArgsStacks(s', deps[1..], acc', k);
      MultisetHead(deps, k);
      if k == d {
        assert Stack(s', k) == Stack(s, k)[..|Stack(s, k)| - 1];
      } else {
        assert Stack(s', k) == Stack(s, k);
      }
    }
  }

  /** The argument half of `PopArgsSpec`. */
  lemma {:induction false} PopArgsValues(s: Stacks, deps: seq<string>, acc: Ctx, k: string)
    requires PopArgs(s, deps, acc).failure.None?
    ensures k in PopArgs(s, deps, acc).args <==> k in acc || k in deps
    ensures k in deps ==> (0 < multiset(deps)[k] <= |Stack(s, k)| &&
                           PopArgs(s, deps, acc).args[k] == Stack(s, k)[|Stack(s, k)| - multiset(deps)[k]])
    ensures k !in deps && k in acc ==> PopArgs(s, deps, acc).args[k] == acc[k]
    decreases |deps|
  {
    if deps != [] {
      var d := deps[0];
      var s' := s[d := s[d][..|s[d]| - 1]];
      var acc' := acc[d := s[d][|s[d]| - 1]];
      PopArgsValues(s', deps[1..], acc', k);
      MultisetHead(deps, k);
      assert k in deps <==> k == d || k in deps[1..];
      if k == d {
        assert Stack(s', k) == Stack(s, k)[..|Stack(s, k)| - 1];
      } else {
        assert Stack(s', k) == Stack(s, k);
      }
    }
  }

  /** How often the name `k` occurs in a non-empty list. */
  lemma MultisetHead(deps: seq<string>, k: string)
    requires deps != []
    ensures multiset(deps)[k] == multiset(deps[1..])[k] + (if k == deps[0] then 1 else 0)
  {
    assert deps == [deps[0]] + deps[1..];
  }

  /** Popping cannot fail when every stack is deep enough. */
  lemma {:induction false} PopArgsSucceeds(s: Stacks, deps: seq<string>, acc: Ctx)
    requires forall k :: multiset(deps)[k] <= |Stack(s, k)|
    ensures PopArgs(s, deps, acc).failure.None?
    decreases |deps|
  {
    if deps != [] {
      var d := deps[0];
      assert deps == [d] + deps[1..];
      assert multiset(deps)[d] >= 1;
      var s' := s[d := s[d][..|s[d]| - 1]];
      forall k
        ensures multiset(deps[1..])[k] <= |Stack(s', k)|
      {
        assert multiset(deps)[k] == multiset(deps[1..])[k] + (if k == d then 1 else 0);
      }
      PopArgsSucceeds(s', deps[1..], acc[d := s[d][|s[d]| - 1]]);
    }
  }

  /** Running one list after another is running their concatenation. */
  lemma {:induction false} RunStepsAppend(s: Stacks, a: seq<Task>, b: seq<Task>, args: Option<Ctx>)
    ensures RunSteps(s, a + b, args) ==
      (var ra := RunSteps(s, a, args); if ra.failure.Some? then ra else RunSteps(ra.stacks, b, args))
    decreases |a|
  {
    if a != [] {
      assert (a + b)[0] == a[0];
      assert (a + b)[1..] == a[1..] + b;
      var r := Step(s, a[0], args);
      if r.failure.None? {
        RunStepsAppend(r.stacks, a[1..], b, args);
      }
    } else {
      assert a + b == b;
    }
  }

  /** The final pop takes back the value the last step pushed. */
  lemma FinalPopTakesLastPush(s: Stacks, tasks: seq<Task>, args: Option<Ctx>, q: Stacks, v: Value)
    requires tasks != []
    requires var n := tasks[|tasks| - 1].name;
      RunSteps(s, tasks, args) == Run(None, q[n := Stack(q, n) + [v]])
    ensures var n := tasks[|tasks| - 1].name;
      RunTasklistSpec(s, tasks, args) == (Ok(v), q[n := Stack(q, n)])
  {
    var n := tasks[|tasks| - 1].name;
    var st := q[n := Stack(q, n) + [v]];
    assert st[n][|st[n]| - 1] == v;
    assert st[n][..|st[n]| - 1] == Stack(q, n);
    assert n in st && st[n] != [];
    assert st[n := Stack(q, n)] == q[n := Stack(q, n)];
  }

  /** The last task's result is what the runner returns, popped back off its stack; an empty list gives None. */
  lemma RunTasklistReturnsLast(s: Stacks, pre: seq<Task>, t: Task, args: Option<Ctx>)
    requires RunSteps(s, pre + [t], args).failure.None?
    ensures RunTasklistSpec(s, [], args) == (Ok(VNone), s)
    ensures var before := RunSteps(s, pre, args).stacks;
      var p := PopArgs(before, t.dependencies, map[]);
      t.run(Input(p.args, args)).0.Ok? &&
      RunTasklistSpec(s, pre + [t], args) ==
        (t.run(Input(p.args, args)).0, p.stacks[t.name := Stack(p.stacks, t.name)])
  {
    RunStepsLast(s, pre, t, args);
    var p := PopArgs(RunSteps(s, pre, args).stacks, t.dependencies, map[]);
    assert (pre + [t])[|pre + [t]| - 1] == t;
    FinalPopTakesLastPush(s, pre + [t], args, p.stacks, t.run(Input(p.args, args)).0.value);
  }

  /** The steps of `pre + [t]` end with t's step after those of `pre`. */
  lemma RunStepsLast(s: Stacks, pre: seq<Task>, t: Task, args: Option<Ctx>)
    requires RunSteps(s, pre + [t], args).failure.None?
    ensures RunSteps(s, pre, args).failure.None?
    ensures var p := PopArgs(RunSteps(s, pre, args).stacks, t.dependencies, map[]);
      var v := t.run(Input(p.args, args)).0;
      v.Ok? && RunSteps(s, pre + [t], args) == Run(None, p.stacks[t.name := Stack(p.stacks, t.name) + [v.value]])
  {
    RunStepsAppend(s, pre, [t], args);
    var before := RunSteps(s, pre, args).stacks;
    assert RunSteps(before, [t], args) == Step(before, t, args);
  }

  /**
   * A task that raises once its arguments are popped ends the list with its
   * exception: no later task runs, nothing is pushed for it, and the stacks
   * keep the pops made, which is what a caller passing its own context sees.
   */
  lemma RaisingTaskStops(s: Stacks, pre: seq<Task>, t: Task, post: seq<Task>, args: Option<Ctx>)
    requires RunSteps(s, pre, args).failure.None?
    requires var p := PopArgs(RunSteps(s, pre, args).stacks, t.dependencies, map[]);
      p.failure.None? && t.run(Input(p.args, args)).0.Err?
    ensures var p := PopArgs(RunSteps(s, pre, args).stacks, t.dependencies, map[]);
      RunTasklistSpec(s, pre + [t] + post, args) == (Err(t.run(Input(p.args, args)).0.error), p.stacks)
  {
    var before := RunSteps(s, pre, args).stacks;
    assert pre + [t] + post == pre + ([t] + post);
    RunStepsAppend(s, pre, [t] + post, args);
    assert ([t] + post)[0] == t;
  }

  /** Two contexts with the same stacks, absent keys counting as empty. */
  ghost predicate SameStacks(s: Stacks, u: Stacks) {
    forall k :: Stack(s, k) == Stack(u, k)
  }

  /** A missing stack and an empty one behave alike as far as success goes. */
  lemma {:induction false} PopArgsCongruent(s: Stacks, u: Stacks, deps: seq<string>, acc: Ctx)
    requires SameStacks(s, u)
    ensures PopArgs(s, deps, acc).failure.None? <==> PopArgs(u, deps, acc).failure.None?
    ensures PopArgs(s, deps, acc).failure.None? ==>
      PopArgs(s, deps, acc).args == PopArgs(u, deps, acc).args &&
      SameStacks(PopArgs(s, deps, acc).stacks, PopArgs(u, deps, acc).stacks)
    decreases |deps|
  {
    if deps != [] {
      var d := deps[0];
      assert Stack(s, d) == Stack(u, d);
      if d in s && s[d] != [] {
        var s' := s[d := s[d][..|s[d]| - 1]];
        var u' := u[d := u[d][..|u[d]| - 1]];
        assert SameStacks(s', u') by {
          forall k ensures Stack(s', k) == Stack(u', k) {
            assert Stack(s, k) == Stack(u, k);
          }
        }
        PopArgsCongruent(s', u', deps[1..], acc[d := s[d][|s[d]| - 1]]);
      }
    }
  }

  /** A result stack that grew by exactly one value on top, all others unchanged. */
  ghost predicate PushedOne(s: Stacks, u: Stacks, n: string) {
    && (forall k :: k != n ==> Stack(u, k) == Stack(s, k))
    && |Stack(u, n)| == |Stack(s, n)| + 1
    && Stack(u, n)[..|Stack(s, n)|] == Stack(s, n)
  }

  /**
   * A catalog whose found tasks carry the name they are found under, do not
   * list themselves, and only list names that are found as well.
   */
  ghost predicate Resolvable(c: Catalog) {
    forall n :: Found(c, n).Some? ==>
      && Found(c, n).value.name == n
      && n !in Found(c, n).value.dependencies
      && (forall d :: d in Found(c, n).value.dependencies ==> Found(c, d).Some?)
  }

  /** The stacks a pop leaves, and whether it fails, do not depend on the arguments gathered so far. */
  lemma {:induction false} PopArgsAccIndependent(s: Stacks, deps: seq<string>, a1: Ctx, a2: Ctx)
    ensures PopArgs(s, deps, a1).failure == PopArgs(s, deps, a2).failure
    ensures PopArgs(s, deps, a1).stacks == PopArgs(s, deps, a2).stacks
    decreases |deps|
  {
    if deps != [] {
      var d := deps[0];
      if d in s && s[d] != [] {
        PopArgsAccIndependent(s[d := s[d][..|s[d]| - 1]], deps[1..], a1[d := s[d][|s[d]| - 1]], a2[d := s[d][|s[d]| - 1]]);
      }
    }
  }

  /** Popping the value just pushed on `d`, then the rest, restores what popping the rest restored before the push. */
  lemma PopAfterPush(t1: Stacks, t2: Stacks, d: string, rest: seq<string>, s: Stacks)
    requires PushedOne(t1, t2, d)
    requires PopArgs(t1, rest, map[]).failure.None? && SameStacks(PopArgs(t1, rest, map[]).stacks, s)
    ensures PopArgs(t2, [d] + rest, map[]).failure.None? && SameStacks(PopArgs(t2, [d] + rest, map[]).stacks, s)
  {
    assert Stack(t2, d) != [];
    var v := t2[d][|t2[d]| - 1];
    var t3 := t2[d := t2[d][..|t2[d]| - 1]];
    assert SameStacks(t3, t1) by {
      forall k ensures Stack(t3, k) == Stack(t1, k) {
        if k == d {
          assert Stack(t3, k) == Stack(t2, d)[..|Stack(t1, d)|];
        }
      }
    }
    assert ([d] + rest)[1..] == rest;
    assert PopArgs(t2, [d] + rest, map[]) == PopArgs(t3, rest, map[][d := v]);
    PopArgsAccIndependent(t3, rest, map[][d := v], map[]);
    PopArgsCongruent(t3, t1, rest, map[]);
  }

  /** A task that returns on every input. */
  ghost predicate Returns(t: Task) {
    forall x :: t.run(x).0.Ok?
  }

  /** No task found in the catalog ever raises. */
  ghost predicate NeverRaises(c: Catalog) {
    forall n :: Found(c, n).Some? ==> Returns(Found(c, n).value)
  }

  /** A returning task whose dependencies pop back to `s` pushes exactly its own result on top of `s`. */
  lemma StepAfterRestore(before: Stacks, t: Task, s: Stacks, args: Option<Ctx>)
    requires Returns(t)
    requires PopArgs(before, t.dependencies, map[]).failure.None?
    requires SameStacks(PopArgs(before, t.dependencies, map[]).stacks, s)
    ensures Step(before, t, args).failure.None? && PushedOne(s, Step(before, t, args).stacks, t.name)
  {
    var p := PopArgs(before, t.dependencies, map[]);
    var after := Step(before, t, args).stacks;
    assert t.run(Input(p.args, args)).0.Ok?;
    assert after == p.stacks[t.name := Stack(p.stacks, t.name) + [t.run(Input(p.args, args)).0.value]];
    assert forall k :: k != t.name ==> Stack(after, k) == Stack(p.stacks, k);
    assert Stack(p.stacks, t.name) == Stack(s, t.name);
  }

  /**
   * When no task raises, running the chain of a found task never pops a
   * missing or empty stack, and its net effect is exactly one value pushed
   * on that task's stack.
   */
  lemma {:induction false} ChainRunsClean(c: Catalog, n: string, rank: string -> nat, s: Stacks, args: Option<Ctx>)
    requires Ranked(c, rank, false) && Resolvable(c) && NeverRaises(c) && Found(c, n).Some?
    ensures Resolve(c, n, false, rank).Ok?
    ensures var ch := Resolve(c, n, false, rank).value;
      && |ch| > 0 && ch[|ch| - 1] == Found(c, n).value
      && RunSteps(s, ch, args).failure.None?
      && PushedOne(s, RunSteps(s, ch, args).stacks, n)
    decreases rank(n), 1
  {
    var t := Found(c, n).value;
    assert t.name == n;
    var deps := t.dependencies;
    if deps == [] {
      assert Resolve(c, n, false, rank) == Ok([t]);
      assert RunSteps(s, [t], args) == Step(s, t, args);
      assert PopArgs(s, deps, map[]) == Popped(None, map[], s);
      StepAfterRestore(s, t, s, args);
    } else {
      DepChainsRunClean(c, n, deps, rank, s, args);
      var x := Chains(c, n, deps, [], false, rank).value;
      assert Resolve(c, n, false, rank) == Ok(x + [t]);
      RunStepsAppend(s, x, [t], args);
      var before := RunSteps(s, x, args).stacks;
      assert RunSteps(before, [t], args) == Step(before, t, args);
      StepAfterRestore(before, t, s, args);
    }
  }

  /** The first dependency's chain ends up behind those of the later ones. */
  lemma ChainsCons(c: Catalog, n: string, deps: seq<string>, rank: string -> nat)
    requires Ranked(c, rank, false)
    requires forall d :: d in deps && d != n ==> rank(d) < rank(n)
    requires deps != [] && deps[0] != n
    requires Resolve(c, deps[0], false, rank).Ok? && Chains(c, n, deps[1..], [], false, rank).Ok?
    ensures Chains(c, n, deps, [], false, rank) ==
      Ok(Chains(c, n, deps[1..], [], false, rank).value + Resolve(c, deps[0], false, rank).value)
  {
    var r := Resolve(c, deps[0], false, rank).value;
    assert r + [] == r;
    ChainsAcc(c, n, deps[1..], r, false, rank);
  }

  /**
   * Running the chains of a dependency list, then popping that list, leaves
   * the stacks as they were.
   */
  lemma {:induction false} DepChainsRunClean(c: Catalog, n: string, deps: seq<string>, rank: string -> nat, s: Stacks, args: Option<Ctx>)
    requires Ranked(c, rank, false) && Resolvable(c) && NeverRaises(c)
    requires forall d :: d in deps ==> d != n && Found(c, d).Some? && rank(d) < rank(n)
    ensures Chains(c, n, deps, [], false, rank).Ok?
    ensures var x := Chains(c, n, deps, [], false, rank).value;
      var run := RunSteps(s, x, args);
      && run.failure.None?
      && PopArgs(run.stacks, deps, map[]).failure.None?
      && SameStacks(PopArgs(run.stacks, deps, map[]).stacks, s)
    decreases rank(n), 0, |deps|
  {
    if deps == [] {
      assert RunSteps(s, [], args) == Run(None, s);
    } else {
      var d := deps[0];
      var rest := deps[1..];
      assert deps == [d] + rest;
      ChainRunsClean(c, d, rank, s, args);
      var r := Resolve(c, d, false, rank).value;
      DepChainsRunClean(c, n, rest, rank, s, args);
      var x' := Chains(c, n, rest, [], false, rank).value;
      ChainsCons(c, n, deps, rank);
      RunStepsAppend(s, x', r, args);
      var t1 := RunSteps(s, x', args).stacks;
      ChainRunsClean(c, d, rank, t1, args);
      PopAfterPush(t1, RunSteps(t1, r, args).stacks, d, rest, s);
    }
  }

  /** After a clean run that pushed one value on the last task's stack, the final pop empties everything. */
  lemma FinalPopEmpties(ch: seq<Task>, n: string, args: Option<Ctx>)
    requires |ch| > 0 && ch[|ch| - 1].name == n
    requires RunSteps(map[], ch, args).failure.None? && PushedOne(map[], RunSteps(map[], ch, args).stacks, n)
    ensures var out := RunTasklistSpec(map[], ch, args);
      out.0.Ok? && forall k :: Stack(out.1, k) == []
  {
    var st := RunSteps(map[], ch, args).stacks;
    assert |Stack(st, n)| == 1;
    assert forall k :: k != n ==> Stack(st, k) == [];
    var out := RunTasklistSpec(map[], ch, args);
    assert out.1 == st[n := []];
    assert forall k :: Stack(out.1, k) == (if k == n then [] else Stack(st, k));
  }

  /**
   * On a fully resolvable acyclic catalog whose tasks do not raise, running a
   * found task's chain in a fresh context succeeds and leaves every stack
   * empty.
   */
  lemma ResolvedRunLeavesStacksEmpty(c: Catalog, n: string, rank: string -> nat, args: Option<Ctx>)
    requires Ranked(c, rank, false) && Resolvable(c) && NeverRaises(c) && Found(c, n).Some?
    ensures Resolve(c, n, false, rank).Ok?
    ensures var out := RunTasklistSpec(map[], Resolve(c, n, false, rank).value, args);
      out.0.Ok? && forall k :: Stack(out.1, k) == []
  {
    ChainRunsClean(c, n, rank, map[], args);
    FinalPopEmpties(Resolve(c, n, false, rank).value, n, args);
  }

  /** The argument loop of `run_tasklist`: `args[dep] = ctx[dep].pop()` for each dependency, failing at the first missing or empty stack. */
  method PopArguments(s: Stacks, deps: seq<string>) returns (p: Popped)
    ensures p == PopArgs(s, deps, map[])
  {
    var stacks := s;
    var popped: Ctx := map[];
    var j := 0;
    while j < |deps|
      invariant 0 <= j <= |deps|
      invariant PopArgs(stacks, deps[j..], popped) == PopArgs(s, deps, map[])
    {
      var d := deps[j];
      if d !in stacks {
        return Popped(Some(KeyError(d)), popped, stacks);
      } else if stacks[d] == [] {
        return Popped(Some(IndexError("pop from empty list")), popped, stacks);
      }
      popped := popped[d := stacks[d][|stacks[d]| - 1]];
      stacks := stacks[d := stacks[d][..|stacks[d]| - 1]];
      assert deps[j..][1..] == deps[j + 1..];
      j := j + 1;
    }
    p := Popped(None, popped, stacks);
  }

  /**
   * `run_tasklist(tasklist, args, ctx)`: `ctx or {}` means an empty caller
   * context is replaced by a new one, so the caller only sees the stacks
   * change when it passed a non-empty context.
   */
  method RunTasklist(tasklist: seq<Task>, args: Option<Ctx>, ctx: Option<Stacks>) returns (r: Result<Value>, callerCtx: Option<Stacks>)
    ensures var out := RunTasklistSpec(if ctx.Some? then ctx.value else map[], tasklist, args);
      r == out.0 && callerCtx == (if ctx.Some? && ctx.value != map[] then Some(out.1) else ctx)
  {
    var start: Stacks := if ctx.Some? && ctx.value != map[] then ctx.value else map[];
    var s := start;
    var i := 0;
    while i < |tasklist|
      invariant 0 <= i <= |tasklist|
      invariant RunSteps(s, tasklist[i..], args) == RunSteps(start, tasklist, args)
    {
      var t := tasklist[i];
      var p := PopArguments(s, t.dependencies);
      if p.failure.Some? {
        r := Err(p.failure.value);
        callerCtx := if ctx.Some? && ctx.value != map[] then Some(p.stacks) else ctx;
        return;
      }
      var popped := p.args;
      s := p.stacks;
      var input := if args.Some? then Update(popped, args.value) else popped;
      var outcome := t.run(input);
      if outcome.0.Err? {
        r := Err(outcome.0.error);
        callerCtx := if ctx.Some? && ctx.value != map[] then Some(s) else ctx;
        return;
      }
      s := s[t.name := Stack(s, t.name) + [outcome.0.value]];
      assert tasklist[i..][1..] == tasklist[i + 1..];
      i := i + 1;
    }
    if |tasklist| == 0 {
      r := Ok(VNone);
    } else {
      var n := tasklist[|tasklist| - 1].name;
      if n !in s {
        r := Err(KeyError(n));
      } else if s[n] == [] {
        r := Ok(VNone);
      } else {
        r := Ok(s[n][|s[n]| - 1]);
        s := s[n := s[n][..|s[n]| - 1]];
      }
    }
    callerCtx := if ctx.Some? && ctx.value != map[] then Some(s) else ctx;
  }

  /** `run_task(name, args, ctx)`: resolve, then run the list (current version). */
  method RunTask(c: Catalog, name: string, args: Option<Ctx>, ctx: Option<Stacks>, ghost rank: string -> nat)
    returns (r: Result<Value>, callerCtx: Option<Stacks>)
    requires Ranked(c, rank, false)
    ensures Resolve(c, name, false, rank).Err? ==> r == Err(Resolve(c, name, false, rank).error) && callerCtx == ctx
    ensures Resolve(c, name, false, rank).Ok? ==>
      var out := RunTasklistSpec(if ctx.Some? then ctx.value else map[], Resolve(c, name, false, rank).value, args);
      r == out.0 && callerCtx == (if ctx.Some? && ctx.value != map[] then Some(out.1) else ctx)
  {
    var tasklist := Resolve(c, name, false, rank);
    if tasklist.Err? {
      return Err(tasklist.error), ctx;
    }
    r, callerCtx := RunTasklist(tasklist.value, args, ctx);
  }

  // ----- the shared-context runner (legacy version) -----

  /** The legacy runner's progress: the results so far, the shared context, and the exception that stopped it, if any. */
  datatype Shared = Shared(failure: Option<PyError>, results: seq<Value>, ctx: Ctx)

  /**
   * Every task runs on the shared context in list order; an exception stops
   * the list, keeping the results before it and the context as the raising
   * task left it.
   */
  function SharedResults(ctx: Ctx, tasks: seq<Task>): Shared
    decreases |tasks|
  {
    if tasks == [] then Shared(None, [], ctx)
    else
      var out := tasks[0].run(ctx);
      match out.0
      case Err(e) => Shared(Some(e), [], out.1)
      case Ok(v) =>
        var rest := SharedResults(out.1, tasks[1..]);
        Shared(rest.failure, [v] + rest.results, rest.ctx)
  }

  /** What `run_tasklist` returns: the last result, None for an empty list, or the exception. */
  function SharedFinal(out: Shared): Result<Value> {
    if out.failure.Some? then Err(out.failure.value)
    else if out.results == [] then Ok(VNone)
    else Ok(out.results[|out.results| - 1])
  }

  /**
   * The shared context threads through a concatenation; a list that runs
   * to the end has one result per task, one that raises fewer, and after an
   * exception nothing more runs.
   */
  lemma {:induction false} SharedResultsAppend(ctx: Ctx, a: seq<Task>, b: seq<Task>)
    ensures SharedResults(ctx, a).failure.None? ==> |SharedResults(ctx, a).results| == |a|
    ensures SharedResults(ctx, a).failure.Some? ==> |SharedResults(ctx, a).results| < |a|
    ensures SharedResults(ctx, a + b) ==
      (var x := SharedResults(ctx, a);
       if x.failure.Some? then x
       else
         var y := SharedResults(x.ctx, b);
         Shared(y.failure, x.results + y.results, y.ctx))
    decreases |a|
  {
    if a == [] {
      assert a + b == b;
      assert [] + SharedResults(ctx, b).results == SharedResults(ctx, b).results;
    } else {
      assert (a + b)[0] == a[0];
      assert (a + b)[1..] == a[1..] + b;
      var out := a[0].run(ctx);
      if out.0.Ok? {
        SharedResultsAppend(out.1, a[1..], b);
        var x := SharedResults(out.1, a[1..]);
        if x.failure.None? {
          var y := SharedResults(x.ctx, b);
          assert [out.0.value] + (x.results + y.results) == ([out.0.value] + x.results) + y.results;
        }
      }
    }
  }

  /**
   * After a prefix that ran to the end, the next task runs on the context
   * the prefix left: it adds its result, or stops the list with its
   * exception; either way the shared context is what that task left.
   */
  lemma SharedRunReturnsLast(ctx: Ctx, pre: seq<Task>, t: Task)
    requires SharedResults(ctx, pre).failure.None?
    ensures var x := SharedResults(ctx, pre);
      var out := t.run(x.ctx);
      var all := SharedResults(ctx, pre + [t]);
      all.ctx == out.1 &&
      (out.0.Ok? ==> all.failure.None? && all.results == x.results + [out.0.value] && SharedFinal(all) == out.0) &&
      (out.0.Err? ==> all.failure == Some(out.0.error) && all.results == x.results && SharedFinal(all) == out.0)
  {
    SharedResultsAppend(ctx, pre, [t]);
    var x := SharedResults(ctx, pre);
    assert SharedResults(x.ctx, [t]).ctx == t.run(x.ctx).1;
  }

  /** Once a prefix has raised, appending tasks changes nothing: they never run. */
  lemma SharedRaiseSticks(ctx: Ctx, a: seq<Task>, b: seq<Task>)
    requires SharedResults(ctx, a).failure.Some?
    ensures SharedResults(ctx, a + b) == SharedResults(ctx, a)
  {
    SharedResultsAppend(ctx, a, b);
  }

  /**
   * `run_tasklist(tasklist, ctx)` of the legacy manager: the last result or
   * None, or the exception a task raised; the caller's context is left as
   * the tasks, up to the one that raised, wrote it.
   */
  method RunTasklistShared(tasklist: seq<Task>, ctx: Ctx) returns (r: Result<Value>, ctxAfter: Ctx)
    ensures var out := SharedResults(ctx, tasklist);
      ctxAfter == out.ctx && r == SharedFinal(out)
  {
    var out := RunSharedLoop(tasklist, ctx);
    r := if out.failure.Some? then Err(out.failure.value)
         else if |out.results| > 0 then Ok(out.results[|out.results| - 1])
         else Ok(VNone);
    ctxAfter := out.ctx;
  }

  /** The loop of the legacy `run_tasklist`: each task runs on the shared context and its result is gathered. */
  method RunSharedLoop(tasklist: seq<Task>, ctx: Ctx) returns (out: Shared)
    ensures out == SharedResults(ctx, tasklist)
  {
    ghost var full := SharedResults(ctx, tasklist);
    var results: seq<Value> := [];
    var shared := ctx;
    var i := 0;
    assert tasklist[0..] == tasklist;
    while i < |tasklist|
      invariant 0 <= i <= |tasklist|
      invariant full == After(results, SharedResults(shared, tasklist[i..]))
    {
      var step := tasklist[i].run(shared);
      SharedStep(shared, tasklist, i);
      if step.0.Err? {
        assert results + [] == results;
        return Shared(Some(step.0.error), results, step.1);
      }
      AfterStep(results, step.0.value, SharedResults(step.1, tasklist[i + 1..]));
      results := results + [step.0.value];
      shared := step.1;
      i := i + 1;
    }
    assert SharedResults(shared, tasklist[i..]) == Shared(None, [], shared);
    assert results + [] == results;
    out := Shared(None, results, shared);
  }

  /** The run of a list behind results already gathered. */
  function After(results: seq<Value>, rest: Shared): Shared {
    Shared(rest.failure, results + rest.results, rest.ctx)
  }

  /** One turn of the legacy loop: the task at i stops the rest of the list or adds its result in front of it. */
  lemma SharedStep(shared: Ctx, tasks: seq<Task>, i: nat)
    requires i < |tasks|
    ensures var out := tasks[i].run(shared);
      SharedResults(shared, tasks[i..]) ==
        if out.0.Err? then Shared(Some(out.0.error), [], out.1)
        else var rest := SharedResults(out.1, tasks[i + 1..]); Shared(rest.failure, [out.0.value] + rest.results, rest.ctx)
  {
    assert tasks[i..][0] == tasks[i];
    assert tasks[i..][1..] == tasks[i + 1..];
  }

  /** Moving one result from the rest of the run to the results gathered. */
  lemma AfterStep(results: seq<Value>, v: Value, rest: Shared)
    ensures After(results, Shared(rest.failure, [v] + rest.results, rest.ctx)) == After(results + [v], rest)
  {
    assert results + ([v] + rest.results) == (results + [v]) + rest.results;
  }

  /** `run_task(name, ctx)` of the legacy manager: a resolution error propagates, otherwise the list runs. */
  method RunTaskShared(c: Catalog, name: string, ctx: Ctx, ghost rank: string -> nat) returns (r: Result<Value>, ctxAfter: Ctx)
    requires Ranked(c, rank, true)
    ensures Resolve(c, name, true, rank).Err? ==> r == Err(Resolve(c, name, true, rank).error) && ctxAfter == ctx
    ensures Resolve(c, name, true, rank).Ok? ==>
      var out := SharedResults(ctx, Resolve(c, name, true, rank).value);
      ctxAfter == out.ctx && r == SharedFinal(out)
  {
    var tasklist := Resolve(c, name, true, rank);
    if tasklist.Err? {
      return Err(tasklist.error), ctx;
    }
    r, ctxAfter := RunTasklistShared(tasklist.value, ctx);
  }

  // ----- a concrete catalog: the `uno` service of the default data -----

  function UnoTask(name: string, deps: seq<string>, run: TaskBody): Task {
    Task(name, None, deps, [], run, Empty())
  }

  /** `uno` declares A, B (needs A), C (needs B) and D (needs nothing). */
  function UnoService(ra: TaskBody, rb: TaskBody, rc: TaskBody, rd: TaskBody): Service {
    var loaded := OrderedMap(["A", "B", "C", "D"],
      map["A" := UnoTask("A", [], ra), "B" := UnoTask("B", ["A"], rb),
          "C" := UnoTask("C", ["B"], rc), "D" := UnoTask("D", [], rd)]);
    Service("uno", "", ["A", "B", "C", "D"], loaded, Empty())
  }

  function Uno(ra: TaskBody, rb: TaskBody, rc: TaskBody, rd: TaskBody): Catalog {
    OrderedMap(["uno"], map["uno" := UnoService(ra, rb, rc, rd)])
  }

  function UnoRank(n: string): nat {
    if n == "C" then 3 else if n == "B" then 2 else if n == "A" then 1 else 0
  }

  lemma UnoFound(ra: TaskBody, rb: TaskBody, rc: TaskBody, rd: TaskBody, n: string)
    ensures Found(Uno(ra, rb, rc, rd), n) ==
      if n == "A" then Some(UnoTask("A", [], ra))
      else if n == "B" then Some(UnoTask("B", ["A"], rb))
      else if n == "C" then Some(UnoTask("C", ["B"], rc))
      else if n == "D" then Some(UnoTask("D", [], rd))
      else None
  {
    var c := Uno(ra, rb, rc, rd);
    var uno := UnoService(ra, rb, rc, rd);
    assert At(c, 0) == uno;
    if n in uno.tasks {
      assert OwnerFrom(c, n, 0) == Some(0);
      assert FindOwnerService(c, n) == Some(uno);
      assert n in uno.loaded.entries;
      assert FindTask(c, n) == Ok(Some(uno.loaded.entries[n]));
    } else {
      assert OwnerFrom(c, n, 1) == None;
      assert OwnerFrom(c, n, 0) == None;
    }
  }

  const ATakesNoArgument := "A.run() takes 0 positional arguments but 1 was given"

  /** A's `run` as written takes no argument, so the runner's call with the argument dictionary raises. */
  function BodyA(ctx: Ctx): (Result<Value>, Ctx) {
    (Err(TypeError(ATakesNoArgument)), ctx)
  }

  /** B's `run(A)` as written: its one parameter receives the whole argument dictionary, which it prints before "B". */
  ghost function BodyB(ctx: Ctx): (Result<Value>, Ctx) {
    (Ok(VStr(Repr(VDict(ctx)) + "B")), ctx)
  }

  /** C's `run(ctx)`: writes "C" into its argument dictionary, then appends "C" to the text under "B". */
  ghost function BodyC(ctx: Ctx): (Result<Value>, Ctx) {
    var after := ctx["C" := VStr("C")];
    if "B" in ctx then (Ok(VStr(Str(ctx["B"]) + "C")), after) else (Err(KeyError("B")), after)
  }

  /** A as the test expects it: it accepts the argument dictionary and gives "A". */
  function BodyAExpected(ctx: Ctx): (Result<Value>, Ctx) {
    (Ok(VStr("A")), ctx)
  }

  /** B as the test expects it: like C, it reads its dependency's result from the dictionary. */
  ghost function BodyBExpected(ctx: Ctx): (Result<Value>, Ctx) {
    if "A" in ctx then (Ok(VStr(Str(ctx["A"]) + "B")), ctx) else (Err(KeyError("A")), ctx)
  }

  /** `uno` is acyclic under the rank C > B > A. */
  lemma UnoRanked(ra: TaskBody, rb: TaskBody, rc: TaskBody, rd: TaskBody)
    ensures Ranked(Uno(ra, rb, rc, rd), UnoRank, false)
  {
    var c := Uno(ra, rb, rc, rd);
    forall n, d | Found(c, n).Some? && d in Found(c, n).value.dependencies && d != n
      ensures UnoRank(d) < UnoRank(n)
    {
      UnoFound(ra, rb, rc, rd, n);
    }
  }

  /** `resolve("C") == [A, B, C]` and `resolve("D") == [D]`. */
  lemma UnoResolves(ra: TaskBody, rb: TaskBody, rc: TaskBody, rd: TaskBody)
    ensures Ranked(Uno(ra, rb, rc, rd), UnoRank, false)
    ensures Resolve(Uno(ra, rb, rc, rd), "C", false, UnoRank) ==
      Ok([UnoTask("A", [], ra), UnoTask("B", ["A"], rb), UnoTask("C", ["B"], rc)])
    ensures Resolve(Uno(ra, rb, rc, rd), "D", false, UnoRank) == Ok([UnoTask("D", [], rd)])
  {
    var c := Uno(ra, rb, rc, rd);
    UnoRanked(ra, rb, rc, rd);
    UnoResolvesB(ra, rb, rc, rd);
    UnoResolvesD(ra, rb, rc, rd);
    UnoFound(ra, rb, rc, rd, "C");
    var a := UnoTask("A", [], ra);
    var b := UnoTask("B", ["A"], rb);
    var t := UnoTask("C", ["B"], rc);
    assert [a, b] + [] == [a, b];
    assert Chains(c, "C", ["B"], [], false, UnoRank) == Ok([a, b]);
    assert FindTask(c, "C") == Ok(Some(t));
    assert [a, b] + [t] == [a, b, t];
  }

  /** D has no dependencies: its chain is D alone. */
  lemma UnoResolvesD(ra: TaskBody, rb: TaskBody, rc: TaskBody, rd: TaskBody)
    ensures Ranked(Uno(ra, rb, rc, rd), UnoRank, false)
    ensures Resolve(Uno(ra, rb, rc, rd), "D", false, UnoRank) == Ok([UnoTask("D", [], rd)])
  {
    UnoRanked(ra, rb, rc, rd);
    UnoFound(ra, rb, rc, rd, "D");
  }

  /** B's chain is A then B. */
  lemma UnoResolvesB(ra: TaskBody, rb: TaskBody, rc: TaskBody, rd: TaskBody)
    ensures Ranked(Uno(ra, rb, rc, rd), UnoRank, false)
    ensures Resolve(Uno(ra, rb, rc, rd), "B", false, UnoRank) == Ok([UnoTask("A", [], ra), UnoTask("B", ["A"], rb)])
  {
    var c := Uno(ra, rb, rc, rd);
    UnoRanked(ra, rb, rc, rd);
    UnoFound(ra, rb, rc, rd, "A");
    UnoFound(ra, rb, rc, rd, "B");
    var a := UnoTask("A", [], ra);
    var b := UnoTask("B", ["A"], rb);
    assert Resolve(c, "A", false, UnoRank) == Ok([a]);
    assert [a] + [] == [a];
    assert Chains(c, "B", ["A"], [], false, UnoRank) == Ok([a]);
    assert FindTask(c, "B") == Ok(Some(b));
    assert [a] + [b] == [a, b];
  }

  /** B as written, given A's result "A": it returns the printed dictionary followed by "B". */
  lemma UnoStepBAsWritten()
    ensures Step(map["A" := [VStr("A")]], UnoTask("B", ["A"], BodyB), None) ==
      Run(None, map["A" := [], "B" := [VStr("{'A': 'A'}B")]])
  {
    var s1 := map["A" := [VStr("A")]];
    assert PopArgs(s1, ["A"], map[]) == Popped(None, map["A" := VStr("A")], map["A" := []]);
    ReprSingleEntry("A", VStr("A"));
    assert Repr(VStr("A")) == "'A'";
    assert "{'" + "A" + "': " + "'A'" + "}" + "B" == "{'A': 'A'}B";
    assert BodyB(map["A" := VStr("A")]).0 == Ok(VStr("{'A': 'A'}B"));
    assert Stack(map["A" := []], "B") == [];
    assert [] + [VStr("{'A': 'A'}B")] == [VStr("{'A': 'A'}B")];
  }

  /** B as the test expects it, given A's result "A", pushes "AB". */
  lemma UnoStepB()
    ensures Step(map["A" := [VStr("A")]], UnoTask("B", ["A"], BodyBExpected), None) == Run(None, map["A" := [], "B" := [VStr("AB")]])
  {
    var s1 := map["A" := [VStr("A")]];
    assert PopArgs(s1, ["A"], map[]) == Popped(None, map["A" := VStr("A")], map["A" := []]);
    assert "A" + "B" == "AB";
    assert BodyBExpected(map["A" := VStr("A")]).0 == Ok(VStr("AB"));
    assert Stack(map["A" := []], "B") == [];
    assert [] + [VStr("AB")] == [VStr("AB")];
  }

  /** C, given B's result "AB", pushes "ABC"; its write of "C" lands in its own argument dictionary. */
  lemma UnoStepC()
    ensures Step(map["A" := [], "B" := [VStr("AB")]], UnoTask("C", ["B"], BodyC), None) ==
      Run(None, map["A" := [], "B" := [], "C" := [VStr("ABC")]])
  {
    var s2 := map["A" := [], "B" := [VStr("AB")]];
    assert PopArgs(s2, ["B"], map[]) == Popped(None, map["B" := VStr("AB")], map["A" := [], "B" := []]);
    assert "AB" + "C" == "ABC";
    assert BodyC(map["B" := VStr("AB")]).0 == Ok(VStr("ABC"));
    assert Stack(map["A" := [], "B" := []], "C") == [];
    assert [] + [VStr("ABC")] == [VStr("ABC")];
  }

  /**
   * `run_tasklist(resolve("C"))` on the fixture as written: A's call raises
   * the TypeError before anything is pushed, so the list never yields "ABC".
   */
  lemma UnoRunAsWrittenRaises(rd: TaskBody)
    ensures Ranked(Uno(BodyA, BodyB, BodyC, rd), UnoRank, false)
    ensures Resolve(Uno(BodyA, BodyB, BodyC, rd), "C", false, UnoRank).Ok? &&
      RunTasklistSpec(map[], Resolve(Uno(BodyA, BodyB, BodyC, rd), "C", false, UnoRank).value, None) ==
      (Err(TypeError(ATakesNoArgument)), map[])
  {
    UnoResolves(BodyA, BodyB, BodyC, rd);
    var a := UnoTask("A", [], BodyA);
    var b := UnoTask("B", ["A"], BodyB);
    var t := UnoTask("C", ["B"], BodyC);
    assert PopArgs(map[], [], map[]) == Popped(None, map[], map[]);
    assert Step(map[], a, None) == Run(Some(TypeError(ATakesNoArgument)), map[]);
    assert RunSteps(map[], [a, b, t], None) == Run(Some(TypeError(ATakesNoArgument)), map[]);
  }

  /** With A and B as the test expects them, `run_tasklist(resolve("C"))` in a fresh context gives "ABC". */
  lemma UnoRunGivesABC(rd: TaskBody)
    ensures Ranked(Uno(BodyAExpected, BodyBExpected, BodyC, rd), UnoRank, false)
    ensures Resolve(Uno(BodyAExpected, BodyBExpected, BodyC, rd), "C", false, UnoRank).Ok? &&
      RunTasklistSpec(map[], Resolve(Uno(BodyAExpected, BodyBExpected, BodyC, rd), "C", false, UnoRank).value, None).0 ==
      Ok(VStr("ABC"))
  {
    UnoResolves(BodyAExpected, BodyBExpected, BodyC, rd);
    UnoStepsABC();
  }

  /** The intended A, B and C run one after the other, each pushing its result. */
  lemma UnoStepsABC()
    ensures RunSteps(map[], [UnoTask("A", [], BodyAExpected), UnoTask("B", ["A"], BodyBExpected), UnoTask("C", ["B"], BodyC)], None) ==
      Run(None, map["A" := [], "B" := [], "C" := [VStr("ABC")]])
  {
    var a := UnoTask("A", [], BodyAExpected);
    var b := UnoTask("B", ["A"], BodyBExpected);
    var t := UnoTask("C", ["B"], BodyC);
    var s1 := map["A" := [VStr("A")]];
    var s2 := map["A" := [], "B" := [VStr("AB")]];
    var s3 := map["A" := [], "B" := [], "C" := [VStr("ABC")]];
    assert PopArgs(map[], [], map[]) == Popped(None, map[], map[]);
    assert Stack(map[], "A") == [];
    assert [] + [VStr("A")] == [VStr("A")];
    assert Step(map[], a, None) == Run(None, s1);
    UnoStepB();
    UnoStepC();
    assert [a, b, t][1..] == [b, t];
    assert [b, t][1..] == [t];
    assert RunSteps(s2, [t], None) == Run(None, s3);
    assert RunSteps(s1, [b, t], None) == Run(None, s3);
    assert RunSteps(map[], [a, b, t], None) == Run(None, s3);
  }

  // ----- the manager object -----

  /** A task with each requested action the offering registry holds bound onto it. */
  function Rebound(t: Task, offered: ActionTable): Task {
    t.(actions := BoundActions(t.actions, t.requestedActions, offered))
  }

  function RebindService(s: Service, offered: ActionTable): Service {
    s.(loaded := MapValues(s.loaded, t => Rebound(t, offered)))
  }

  /** The catalog after `load_services`: a missing file is skipped; a later service replaces an earlier one of the same name. */
  function LoadedServices(c: Catalog, files: seq<Option<Service>>, offered: ActionTable): Catalog
    decreases |files|
  {
    if files == [] then c
    else
      var next := if files[0].Some? then Put(c, files[0].value.name, RebindService(files[0].value, offered)) else c;
      LoadedServices(next, files[1..], offered)
  }

  /** The position of the last present file that holds a service named `k`. */
  function LastFile(files: seq<Option<Service>>, k: string): (r: Option<nat>)
    ensures r.Some? ==> r.value < |files| && files[r.value].Some? && files[r.value].value.name == k
    ensures r.Some? ==> forall j :: r.value < j < |files| && files[j].Some? ==> files[j].value.name != k
    ensures r.None? ==> forall j :: 0 <= j < |files| && files[j].Some? ==> files[j].value.name != k
    decreases |files|
  {
    if files == [] then None
    else
      var later := LastFile(files[1..], k);
      assert forall i :: 1 <= i < |files| ==> files[i] == files[1..][i - 1];
      if later.Some? then Some(later.value + 1)
      else if files[0].Some? && files[0].value.name == k then Some(0)
      else None
  }

  /**
   * Each name in the loaded catalog maps to the last service of that name,
   * with every task's requested actions bound against the manager's registry.
   */
  lemma {:induction false} LoadedServicesSpec(c: Catalog, files: seq<Option<Service>>, offered: ActionTable, k: string)
    ensures Get(LoadedServices(c, files, offered), k) ==
      match LastFile(files, k)
      case Some(i) => Some(RebindService(files[i].value, offered))
      case None => Get(c, k)
    decreases |files|
  {
    if files != [] {
      var next := if files[0].Some? then Put(c, files[0].value.name, RebindService(files[0].value, offered)) else c;
      LoadedServicesSpec(next, files[1..], offered, k);
      assert LoadedServices(c, files, offered) == LoadedServices(next, files[1..], offered);
      var later := LastFile(files[1..], k);
      if later.Some? {
        assert LastFile(files, k) == Some(later.value + 1);
        assert files[later.value + 1] == files[1..][later.value];
      } else if files[0].Some? && files[0].value.name == k {
        assert LastFile(files, k) == Some(0);
        assert Get(next, k) == Some(RebindService(files[0].value, offered));
      } else {
        assert LastFile(files, k) == None;
        assert Get(next, k) == Get(c, k);
      }
    }
  }

  /** `for task in S.get_tasks(): self._register_task_actions(task)`: every loaded task, in load order. */
  method RebindTasks(svc: Service, offered: ActionTable) returns (rebound: Service)
    ensures rebound == RebindService(svc, offered)
  {
    var loaded := svc.loaded;
    var j := 0;
    while j < |svc.loaded.keys|
      invariant 0 <= j <= |svc.loaded.keys|
      invariant ReboundUpTo(svc.loaded, offered, loaded, j)
    {
      var name := svc.loaded.keys[j];
      var task := BindRequestedActions(svc.loaded.entries[name], offered);
      ReboundOne(svc.loaded, offered, loaded, j);
      loaded := Put(loaded, name, task);
      j := j + 1;
    }
    ReboundAll(svc.loaded, offered, loaded);
    rebound := svc.(loaded := loaded);
  }

  /** The task table part-way through the loop: the first j tasks are rebound, the rest untouched. */
  ghost predicate ReboundUpTo(m: OMap<string, Task>, offered: ActionTable, loaded: OMap<string, Task>, j: nat)
    requires j <= |m.keys|
  {
    && loaded.keys == m.keys
    && loaded.entries.Keys == m.entries.Keys
    && forall i :: 0 <= i < |m.keys| ==>
         loaded.entries[m.keys[i]] == if i < j then Rebound(m.entries[m.keys[i]], offered) else m.entries[m.keys[i]]
  }

  /** One turn of the loop keeps `ReboundUpTo`. */
  lemma ReboundOne(m: OMap<string, Task>, offered: ActionTable, loaded: OMap<string, Task>, j: nat)
    requires j < |m.keys| && ReboundUpTo(m, offered, loaded, j)
    ensures ReboundUpTo(m, offered, Put(loaded, m.keys[j], Rebound(m.entries[m.keys[j]], offered)), j + 1)
  {
    var next := Put(loaded, m.keys[j], Rebound(m.entries[m.keys[j]], offered));
    forall i | 0 <= i < |m.keys|
      ensures next.entries[m.keys[i]] == if i < j + 1 then Rebound(m.entries[m.keys[i]], offered) else m.entries[m.keys[i]]
    {
      if i != j {
        assert m.keys[i] != m.keys[j];
      }
    }
  }

  /** After the whole loop every task is rebound. */
  lemma ReboundAll(m: OMap<string, Task>, offered: ActionTable, loaded: OMap<string, Task>)
    requires ReboundUpTo(m, offered, loaded, |m.keys|)
    ensures loaded == MapValues(m, t => Rebound(t, offered))
  {
    var expected := MapValues(m, t => Rebound(t, offered));
    forall k | k in m.entries
      ensures loaded.entries[k] == expected.entries[k]
    {
      var i := IndexOf(m, k);
      assert loaded.entries[m.keys[i]] == Rebound(m.entries[m.keys[i]], offered);
    }
    SameEntries(loaded, expected);
  }

  /** The current service manager: the catalog it fills and the registry it offers to tasks. */
  class ServiceManager {
    var services: Catalog
    const registry: ActionRegistry

    /** A fresh manager has no services and offers exactly `service_info`. */
    constructor (serviceInfo: Action)
      ensures services.keys == [] && fresh(registry)
      ensures registry.table.keys == ["service_info"]
      ensures GetAction(registry.table, "service_info") == (Some(""), Some(serviceInfo))
    {
      services := Empty();
      registry := new ActionRegistry();
      new;
      var _ := registry.RegisterAction("service_info", "", Some(serviceInfo));
    }

    /**
     * `load_services`: each present file's service is stored under its name,
     * then each of its tasks is offered the manager's registry.
     */
    method LoadServices(files: seq<Option<Service>>)
      modifies this
      ensures services == LoadedServices(old(services), files, registry.table)
    {
      var i := 0;
      while i < |files|
        invariant 0 <= i <= |files|
        invariant LoadedServices(services, files[i..], registry.table) == LoadedServices(old(services), files, registry.table)
      {
        assert files[i..][1..] == files[i + 1..];
        if files[i].Some? {
          var svc := RebindTasks(files[i].value, registry.table);
          services := Put(services, svc.name, svc);
        }
        i := i + 1;
      }
    }
  }
}
