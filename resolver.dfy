/**
 * The memoised dependency resolver: services indexed by name, a results
 * cache filled during recursion, and a mutable string context threaded
 * through every service function.  A service is executed only on a cache
 * miss, after all of its dependencies, which are resolved in declared order.
 */
module Memo {
  import opened Values

  type Context = map<string, string>

  /** A service function: its dependencies' results in declared order, and the context it may change. */
  type ServiceFn = (seq<string>, Context) -> (string, Context)

  datatype RService = RService(name: string, run: ServiceFn, dependencies: seq<string>)

  /** `Resolver::new`: collecting `(name, service)` pairs, so a later service of the same name replaces an earlier one. */
  function Index(list: seq<RService>): (m: map<string, RService>)
    ensures forall i :: 0 <= i < |list| ==> list[i].name in m
    ensures forall n :: n in m ==> exists i :: 0 <= i < |list| && list[i].name == n
    decreases |list|
  {
    if list == [] then map[]
    else
      var init := list[..|list| - 1];
      assert forall i :: 0 <= i < |init| ==> init[i] == list[i];
      Index(init)[list[|list| - 1].name := list[|list| - 1]]
  }

  /** The service a name is indexed under is the last one of that name. */
  lemma {:induction false} IndexLastWins(list: seq<RService>, i: nat)
    requires i < |list|
    requires forall j :: i < j < |list| ==> list[j].name != list[i].name
    ensures Index(list)[list[i].name] == list[i]
    decreases |list|
  {
    if i < |list| - 1 {
      var init := list[..|list| - 1];
      assert init[i] == list[i];
      assert forall j :: i < j < |init| ==> init[j] == list[j];
      IndexLastWins(init, i);
    }
  }

  /** A rank that decreases along every dependency edge: the resolver has no cycle check, and a cycle overflows the stack and aborts the process. */
  ghost predicate Acyclic(services: map<string, RService>, rank: string -> nat) {
    forall n, d :: n in services && d in services[n].dependencies ==> rank(d) < rank(n)
  }

  /** Services whose result does not depend on the context they are given. */
  ghost predicate ContextFree(services: map<string, RService>) {
    forall n, args, c :: n in services ==> services[n].run(args, c).0 == services[n].run(args, map[]).0
  }

  /** The value a name denotes, computed without any cache: the reference for context-free services. */
  ghost function Eval(services: map<string, RService>, n: string, rank: string -> nat): Result<string>
    requires Acyclic(services, rank)
    decreases rank(n), 1
  {
    if n !in services then Err(Panic("Unknown service"))
    else
      match EvalFrom(services, n, services[n].dependencies, [], rank)
      case Ok(vs) => Ok(services[n].run(vs, map[]).0)
      case Err(e) => Err(e)
  }

  ghost function EvalFrom(services: map<string, RService>, n: string, deps: seq<string>, acc: seq<string>, rank: string -> nat): Result<seq<string>>
    requires Acyclic(services, rank)
    requires forall d :: d in deps ==> rank(d) < rank(n)
    decreases rank(n), 0, |deps|
  {
    if deps == [] then Ok(acc)
    else
      match Eval(services, deps[0], rank)
      case Ok(v) => EvalFrom(services, n, deps[1..], acc + [v], rank)
      case Err(e) => Err(e)
  }

  /** The cached values of the listed names, in list order. */
  function Lookup(results: map<string, string>, names: seq<string>): (vs: seq<string>)
    requires forall d :: d in names ==> d in results
    ensures |vs| == |names| && forall j :: 0 <= j < |names| ==> vs[j] == results[names[j]]
  {
    seq(|names|, j requires 0 <= j < |names| => results[names[j]])
  }

  class Resolver {
    const services: map<string, RService>
    var results: map<string, string>
    /** The names of the services executed so far, in execution order. */
    ghost var executed: seq<string>

    /** Every cached name was executed exactly once, and only cached names were executed. */
    ghost predicate Valid()
      reads this
    {
      && (forall i, j :: 0 <= i < j < |executed| ==> executed[i] != executed[j])
      && (forall k :: k in results <==> k in executed)
      && (forall k :: k in results ==> k in services)
    }

    /** The cache agrees with the reference evaluation wherever the reference applies. */
    ghost predicate Consistent(rank: string -> nat)
      reads this
    {
      Acyclic(services, rank) && ContextFree(services) ==>
        forall k :: k in results ==> Eval(services, k, rank) == Ok(results[k])
    }

    constructor (list: seq<RService>)
      ensures services == Index(list) && results == map[] && executed == []
      ensures Valid() && forall rank :: Consistent(rank)
    {
      services := Index(list);
      results := map[];
      executed := [];
    }

    /**
     * `resolve`: a cached name returns its value and runs nothing; an unknown
     * name panics; otherwise every dependency is resolved in declared order,
     * the service runs on their results, and its result is cached.
     * Cached entries are never overwritten.
     */
    method Resolve(name: string, ctx: Context, ghost rank: string -> nat) returns (r: Result<string>, ctxAfter: Context)
      requires Valid() && Acyclic(services, rank) && Consistent(rank)
      modifies this
      ensures Valid() && Consistent(rank)
      ensures forall k :: k in old(results) ==> k in results && results[k] == old(results)[k]
      ensures forall k :: k in results && k !in old(results) ==> rank(k) <= rank(name)
      ensures old(executed) <= executed
      ensures name in old(results) ==>
        r == Ok(old(results)[name]) && ctxAfter == ctx && results == old(results) && executed == old(executed)
      ensures name !in old(results) && name !in services ==>
        r == Err(Panic("Unknown service")) && ctxAfter == ctx && results == old(results) && executed == old(executed)
      ensures r.Ok? ==> name in results && results[name] == r.value
      ensures r.Ok? && name !in old(results) ==>
        && executed == old(executed) + executed[|old(executed)|..|executed| - 1] + [name]
        && (forall d :: d in services[name].dependencies ==> d in results)
        && exists c0 :: (r.value, ctxAfter) == services[name].run(Lookup(results, services[name].dependencies), c0)
      ensures ContextFree(services) ==> (r.Ok? <==> Eval(services, name, rank).Ok?)
      ensures ContextFree(services) && r.Ok? ==> r.value == Eval(services, name, rank).value
      decreases rank(name), 4
    {
      if name in results {
        return Ok(results[name]), ctx;
      }
      if name !in services {
        return Err(Panic("Unknown service")), ctx;
      }
      r, ctxAfter := ResolveFresh(name, ctx, rank);
    }

    /** `resolve` of a known name that is not cached yet: resolve the dependencies, run, cache. */
    method ResolveFresh(name: string, ctx: Context, ghost rank: string -> nat) returns (r: Result<string>, ctxAfter: Context)
      requires Valid() && Acyclic(services, rank) && Consistent(rank)
      requires name in services && name !in results
      modifies this
      ensures Valid() && Consistent(rank)
      ensures forall k :: k in old(results) ==> k in results && results[k] == old(results)[k]
      ensures forall k :: k in results && k !in old(results) ==> rank(k) <= rank(name)
      ensures old(executed) <= executed
      ensures r.Ok? ==> name in results && results[name] == r.value
      ensures r.Ok? ==>
        && executed == old(executed) + executed[|old(executed)|..|executed| - 1] + [name]
        && (forall d :: d in services[name].dependencies ==> d in results)
        && exists c0 :: (r.value, ctxAfter) == services[name].run(Lookup(results, services[name].dependencies), c0)
      ensures ContextFree(services) ==> (r.Ok? <==> Eval(services, name, rank).Ok?)
      ensures ContextFree(services) && r.Ok? ==> r.value == Eval(services, name, rank).value
      decreases rank(name), 3
    {
      var service := services[name];
      var dependencyResults, context := ResolveDependencies(name, ctx, rank);
      if dependencyResults.Err? {
        return Err(dependencyResults.error), context;
      }
      var out := service.run(dependencyResults.value, context);
      results := results[name := out.0];
      executed := executed + [name];
      r, ctxAfter := Ok(out.0), out.1;
      assert dependencyResults.value == Lookup(results, service.dependencies);
      assert (r.value, ctxAfter) == services[name].run(Lookup(results, service.dependencies), context);
    }

    /**
     * The dependency loop of `resolve`: each declared dependency resolved in
     * order, threading the context, stopping at the first panic.
     */
    method ResolveDependencies(name: string, ctx: Context, ghost rank: string -> nat) returns (r: Result<seq<string>>, ctxAfter: Context)
      requires Valid() && Acyclic(services, rank) && Consistent(rank)
      requires name in services && name !in results
      modifies this
      ensures Valid() && Consistent(rank)
      ensures name !in results
      ensures forall k :: k in old(results) ==> k in results && results[k] == old(results)[k]
      ensures forall k :: k in results && k !in old(results) ==> rank(k) < rank(name)
      ensures old(executed) <= executed
      ensures r.Ok? ==> (forall d :: d in services[name].dependencies ==> d in results) &&
                        r.value == Lookup(results, services[name].dependencies)
      ensures ContextFree(services) ==>
        (r.Ok? <==> EvalFrom(services, name, services[name].dependencies, [], rank).Ok?) &&
        (r.Ok? ==> EvalFrom(services, name, services[name].dependencies, [], rank) == Ok(r.value))
      decreases rank(name), 2
    {
      r, ctxAfter := CollectDependencies(name, ctx, rank);
      if r.Ok? {
        assert r.value == Lookup(results, services[name].dependencies);
      }
    }

    /** The loop itself: the j-th collected result is the cached result of the j-th dependency. */
    method CollectDependencies(name: string, ctx: Context, ghost rank: string -> nat) returns (r: Result<seq<string>>, ctxAfter: Context)
      requires Valid() && Acyclic(services, rank) && Consistent(rank)
      requires name in services && name !in results
      modifies this
      ensures Valid() && Consistent(rank)
      ensures name !in results
      ensures forall k :: k in old(results) ==> k in results && results[k] == old(results)[k]
      ensures forall k :: k in results && k !in old(results) ==> rank(k) < rank(name)
      ensures old(executed) <= executed
      ensures r.Ok? ==> |r.value| == |services[name].dependencies|
      ensures r.Ok? ==> forall j :: 0 <= j < |r.value| ==>
                          services[name].dependencies[j] in results && results[services[name].dependencies[j]] == r.value[j]
      ensures ContextFree(services) ==>
        (r.Ok? <==> EvalFrom(services, name, services[name].dependencies, [], rank).Ok?) &&
        (r.Ok? ==> EvalFrom(services, name, services[name].dependencies, [], rank) == Ok(r.value))
      decreases rank(name), 1
    {
      var deps := services[name].dependencies;
      var dependencyResults: seq<string> := [];
      var context := ctx;
      var i := 0;
      while i < |deps|
        invariant 0 <= i <= |deps| && |dependencyResults| == i
        invariant Valid() && Consistent(rank)
        invariant name !in results
        invariant forall k :: k in old(results) ==> k in results && results[k] == old(results)[k]
        invariant forall k :: k in results && k !in old(results) ==> rank(k) < rank(name)
        invariant old(executed) <= executed
        invariant forall j :: 0 <= j < i ==> deps[j] in results && results[deps[j]] == dependencyResults[j]
        invariant ContextFree(services) ==>
          EvalFrom(services, name, deps[i..], dependencyResults, rank) == EvalFrom(services, name, deps, [], rank)
      {
        ghost var before := results;
        var dr, c := ResolveNext(name, i, context, rank);
        EvalFromStep(services, name, deps, i, dependencyResults, rank);
        if dr.Err? {
          return Err(dr.error), c;
        }
        CachedStayCached(before, results, deps, i, dependencyResults, dr.value);
        dependencyResults := dependencyResults + [dr.value];
        context := c;
        i := i + 1;
      }
      r, ctxAfter := Ok(dependencyResults), context;
    }

    /** One turn of the dependency loop: `resolve` of the i-th dependency, with what the loop needs of it. */
    method ResolveNext(name: string, i: nat, ctx: Context, ghost rank: string -> nat) returns (r: Result<string>, ctxAfter: Context)
      requires Valid() && Acyclic(services, rank) && Consistent(rank)
      requires name in services && name !in results && i < |services[name].dependencies|
      modifies this
      ensures Valid() && Consistent(rank)
      ensures name !in results
      ensures forall k :: k in old(results) ==> k in results && results[k] == old(results)[k]
      ensures forall k :: k in results && k !in old(results) ==> rank(k) < rank(name)
      ensures old(executed) <= executed
      ensures r.Ok? ==> services[name].dependencies[i] in results && results[services[name].dependencies[i]] == r.value
      ensures ContextFree(services) ==>
        (r.Ok? <==> Eval(services, services[name].dependencies[i], rank).Ok?) &&
        (r.Ok? ==> r.value == Eval(services, services[name].dependencies[i], rank).value)
      decreases rank(name), 0
    {
      var d := services[name].dependencies[i];
      assert rank(d) < rank(name);
      r, ctxAfter := Resolve(d, ctx, rank);
    }
  }

  /** Dependencies already cached keep their values while the cache only grows. */
  lemma CachedStayCached(before: map<string, string>, after: map<string, string>, deps: seq<string>, i: nat, acc: seq<string>, v: string)
    requires i < |deps| && i == |acc|
    requires forall j :: 0 <= j < i ==> deps[j] in before && before[deps[j]] == acc[j]
    requires forall k :: k in before ==> k in after && after[k] == before[k]
    requires deps[i] in after && after[deps[i]] == v
    ensures forall j :: 0 <= j < i + 1 ==> deps[j] in after && after[deps[j]] == (acc + [v])[j]
  {
  }

  /** One step of the reference dependency evaluation: the next dependency's value is appended, or its failure ends it. */
  lemma EvalFromStep(services: map<string, RService>, name: string, deps: seq<string>, i: nat, acc: seq<string>, rank: string -> nat)
    requires Acyclic(services, rank) && name in services && deps == services[name].dependencies && i < |deps|
    ensures forall d :: d in deps[i..] ==> rank(d) < rank(name)
    ensures Eval(services, deps[i], rank).Ok? ==>
      EvalFrom(services, name, deps[i..], acc, rank) == EvalFrom(services, name, deps[i + 1..], acc + [Eval(services, deps[i], rank).value], rank)
    ensures Eval(services, deps[i], rank).Err? ==>
      EvalFrom(services, name, deps[i..], acc, rank) == Err(Eval(services, deps[i], rank).error)
  {
    assert deps[i..][1..] == deps[i + 1..];
  }

  /** Each name occurs once in a list without repetitions. */
  lemma {:induction false} OccursOnce(s: seq<string>, x: string)
    requires forall i, j :: 0 <= i < j < |s| ==> s[i] != s[j]
    requires x in s
    ensures multiset(s)[x] == 1
    decreases |s|
  {
    assert s == [s[0]] + s[1..];
    if s[0] == x {
      assert x !in s[1..];
    } else {
      OccursOnce(s[1..], x);
    }
  }

  // ----- the example of `main` -----

  /** `results.join(", ")` */
  function Join(xs: seq<string>): string {
    if xs == [] then "" else if |xs| == 1 then xs[0] else xs[0] + ", " + Join(xs[1..])
  }

  function FnA(results: seq<string>, c: Context): (string, Context) {
    ("Result A", c)
  }

  function FnB(results: seq<string>, c: Context): (string, Context) {
    ("Result B (" + Join(results) + ")", c)
  }

  function FnC(results: seq<string>, c: Context): (string, Context) {
    ("Result C (" + Join(results) + ")", c)
  }

  function ExampleServices(): seq<RService> {
    [RService("ServiceA", FnA, []), RService("ServiceB", FnB, ["ServiceA"]), RService("ServiceC", FnC, ["ServiceA", "ServiceB"])]
  }

  function ExampleRank(n: string): nat {
    if n == "ServiceC" then 2 else if n == "ServiceB" then 1 else 0
  }

  /** The example services indexed by name. */
  lemma ExampleIndexed()
    ensures Index(ExampleServices()).Keys == {"ServiceA", "ServiceB", "ServiceC"}
    ensures Index(ExampleServices())["ServiceA"] == RService("ServiceA", FnA, [])
    ensures Index(ExampleServices())["ServiceB"] == RService("ServiceB", FnB, ["ServiceA"])
    ensures Index(ExampleServices())["ServiceC"] == RService("ServiceC", FnC, ["ServiceA", "ServiceB"])
  {
    var list := ExampleServices();
    IndexLastWins(list, 0);
    IndexLastWins(list, 1);
    IndexLastWins(list, 2);
  }

  /** The example graph is acyclic and context-free. */
  lemma ExampleWellFormed()
    ensures Acyclic(Index(ExampleServices()), ExampleRank)
    ensures ContextFree(Index(ExampleServices()))
  {
    ExampleIndexed();
  }

  /** B denotes "Result B (Result A)". */
  lemma ExampleEvalB()
    requires Acyclic(Index(ExampleServices()), ExampleRank)
    ensures Eval(Index(ExampleServices()), "ServiceA", ExampleRank) == Ok("Result A")
    ensures Eval(Index(ExampleServices()), "ServiceB", ExampleRank) == Ok("Result B (" + "Result A" + ")")
  {
    var m := Index(ExampleServices());
    ExampleIndexed();
    assert EvalFrom(m, "ServiceA", [], [], ExampleRank) == Ok([]);
    assert Eval(m, "ServiceA", ExampleRank) == Ok("Result A");
    assert EvalFrom(m, "ServiceB", ["ServiceA"], [], ExampleRank) == Ok(["Result A"]) by {
      assert ["ServiceA"][1..] == [];
      assert [] + ["Result A"] == ["Result A"];
      assert EvalFrom(m, "ServiceB", [], ["Result A"], ExampleRank) == Ok(["Result A"]);
    }
    assert Join(["Result A"]) == "Result A";
  }

  /** C's dependencies evaluate to A's and B's results, in declared order. */
  lemma ExampleDependenciesOfC()
    requires Acyclic(Index(ExampleServices()), ExampleRank)
    ensures Index(ExampleServices())["ServiceC"].dependencies == ["ServiceA", "ServiceB"]
    ensures EvalFrom(Index(ExampleServices()), "ServiceC", ["ServiceA", "ServiceB"], [], ExampleRank) ==
      Ok(["Result A", "Result B (" + "Result A" + ")"])
  {
    var m := Index(ExampleServices());
    ExampleIndexed();
    ExampleEvalB();
    var resultA := "Result A";
    var resultB := "Result B (" + resultA + ")";
    assert ["ServiceA", "ServiceB"][1..] == ["ServiceB"];
    assert ["ServiceB"][1..] == [];
    assert [] + [resultA] == [resultA];
    assert [resultA] + [resultB] == [resultA, resultB];
    assert EvalFrom(m, "ServiceC", [], [resultA, resultB], ExampleRank) == Ok([resultA, resultB]);
    assert EvalFrom(m, "ServiceC", ["ServiceB"], [resultA], ExampleRank) == Ok([resultA, resultB]);
  }

  /** C runs on its dependencies' results. */
  lemma ExampleEvalC()
    ensures Acyclic(Index(ExampleServices()), ExampleRank)
    ensures Eval(Index(ExampleServices()), "ServiceC", ExampleRank) ==
      Ok(FnC(["Result A", "Result B (" + "Result A" + ")"], map[]).0)
  {
    ExampleWellFormed();
    ExampleDependenciesOfC();
    ExampleIndexed();
  }

  /** The text C produces from A's and B's results. */
  lemma ExampleTextC()
    ensures FnC(["Result A", "Result B (" + "Result A" + ")"], map[]).0 == "Result C (Result A, Result B (Result A))"
  {
    var resultA := "Result A";
    var resultB := "Result B (" + resultA + ")";
    assert [resultA, resultB][1..] == [resultB];
    assert Join([resultA, resultB]) == resultA + ", " + resultB;
  }

  /** C denotes "Result C (Result A, Result B (Result A))". */
  lemma ExampleEval()
    ensures Acyclic(Index(ExampleServices()), ExampleRank)
    ensures ContextFree(Index(ExampleServices()))
    ensures Eval(Index(ExampleServices()), "ServiceC", ExampleRank) == Ok("Result C (Result A, Result B (Result A))")
  {
    ExampleWellFormed();
    ExampleEvalC();
    ExampleTextC();
  }

  /** `main`: resolving ServiceC on the example graph gives the nested result string, and ServiceA runs once. */
  method ExampleMain() returns (result: Result<string>, ghost runsOfA: nat)
    ensures result == Ok("Result C (Result A, Result B (Result A))")
    ensures runsOfA == 1
  {
    ExampleEval();
    var resolver := new Resolver(ExampleServices());
    var context: Context := map[];
    result, context := resolver.Resolve("ServiceC", context, ExampleRank);
    assert "ServiceA" in resolver.services["ServiceC"].dependencies;
    OccursOnce(resolver.executed, "ServiceA");
    runsOfA := multiset(resolver.executed)["ServiceA"];
  }
}
