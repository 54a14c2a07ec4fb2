# dizzy, modelled in Dafny

dizzy is a small task-orchestration engine. A *service* declares named
*tasks*, and each task may depend on other tasks. An *entity* groups services
and names *workflows*, which are chains such as `"A -> B -> C"`. A daemon takes
requests to run a workflow of an entity, or a task of a common service, and
answers with a response object. That object has append-only `errors` and `info`
multimaps, a `result` that its status guards, and a final status.

The project models the engine's logic:

- both versions of the service manager: dependency resolution, the stack-based runner and the shared-context runner;
- the capability (action) registry and its binding onto tasks;
- task and service records;
- both entity modules and both entity managers;
- the three generations of the response protocol;
- the request handlers of the local processor and of both daemon servers;
- the memoised Rust resolver.

Task bodies, callables and JSON decoding are uninterpreted. Sockets, the
filesystem and module scanning are replaced by the values they produce.

## Files

| file | module | models |
|---|---|---|
| values.dfy | `Wrappers`, `Values` | `Option`/`Result`, dynamic values, contexts, the exceptions that are raised, `dict.update` |
| ordered_maps.dfy | `OrderedMaps` | insertion-ordered dictionaries (a key sequence plus a map) |
| actions.dfy | `Actions` | `ActionDataclassMixin` (dizzy/utils.py) |
| tasks.dfy | `Tasks` | the `Task` record (dizzy/task.py) and the binding of requested actions |
| services.dfy | `Services` | `Service` records, `get_task`, and the `_load_tasks` filter (dizzy/service/__main__.py, dizzy/service.py) |
| service_manager.dfy | `ServiceManagers` | both `ServiceManager`s: find, resolve, and the two runners |
| resolver.dfy | `Memo` | `Resolver` of depres/manic/src/main.rs |
| entities.dfy | `Entities` | `Entity.get_service_files` and `Entity.run_workflow` of both entity modules, and the binding loop of `load_from_yaml` |
| entity_manager.dfy | `EntityManagers` | `EntityManager` of dizzy/entity/manager.py and the older one of dizzy/entity.py |
| protocol.dfy | `Protocols` | requests and responses of abstract_protocol.py, daemon/protocol.py and default_data/protocol.py |
| daemon.dfy | `Daemons` | the handlers of dizzy/daemon/less/__main__.py and dizzy/daemon/server/__main__.py |
| legacy_server.dfy | `LegacyDaemons` | the request loop and handlers of dizzy/daemon/server.py |

## How the model is built

- **Ordered dictionaries.** A Python dict whose order can be observed is an `OMap`: a key sequence without repeats, plus a map over exactly those keys. This covers the registries, the service and entity tables, the loaded tasks and the entity workflows. The `errors` and `info` multimaps are plain maps, because only their contents matter.
- **Task bodies and actions.** A task body is a function from the dictionary it is given to a pair: its result or the exception it raises, and what that dictionary holds afterwards, writes made before an exception included. An action returns a value or raises. Every runner propagates a task's exception, and every handler sees it as the source does.
- **Argument dictionaries.** The legacy runner gives every task the one shared context, so all its writes are kept. The current runner builds each task its own argument dictionary, with `dict.update`, a shallow copy. The model keeps none of the writes made to that dictionary. That is exact for writes to its own keys, but not for writes into a dictionary value it shares with the caller (see "Aliasing" under Left out).
- **Termination.** Resolution is proved to terminate under a ghost *rank* function that drops along every dependency edge (`Ranked`, `Acyclic`). The source has no cycle check beyond skipping a self-dependency. On a cycle the Python resolvers stop with a RecursionError once the interpreter's recursion limit is reached, and the Rust resolver overflows its stack and aborts the process. The rank precondition rules out that error path; it is not divergence.
- **Loops.** Where the source loops and updates state, so does the model: a `method` with a `while` loop is proved against a function on values. Examples are the stack runner, the shared runner, the binding loops, `load_entities`, the workflow stage loop, the server's frame loop and the memoised resolver.
- **Mutable objects.** These are classes whose methods state their whole new state: the registry, the service manager, both entity managers, the response objects, the ROUTER server with its client records, and the legacy REP server with its replies sent.
- **Handlers and the manager.** A handler sees the entity manager through a ghost function-valued parameter such as `runs` or `tasks`. A predicate ties that parameter to the manager's own specification: `RunsOf`, `TasksOf`, `LegacyRunsOf` or `SharedOf`. `RunsOf` takes a flag. Set, it is `RunsAsWritten`: `run_workflow` as dizzy/entity/manager.py writes it, which raises a TypeError whenever it picks an entity. Clear, it is `RunsCorrected`: the corrected `run_workflow`. The handler methods are proved for both. The lemmas about answered workflows are stated for each half separately.
- **Crashes.** Where the source crashes, the model returns the crash as an error outcome and does not prove success. The crashes are:
  - `from_request(None)` in the local processor;
  - the ValidationError that `from_request(this_client, status="error")` raises in the ROUTER server's decode-error branches, before the `request = None` dereference is reached, and the uncaught ValidationError of `model_validate_json` on a payload that is not a valid request;
  - the unbound `ctx` after a KeyError in server.py;
  - the unbound `request` when server.py's first frame is not JSON.
- **Which classes each server is run against.** The `LegacyDaemons` module models dizzy/daemon/server.py with its manager taken as dizzy/entity.py and dizzy/service.py define it: legacy workflow runs and the shared-context `run_task`. Package directories of the same names (dizzy/entity/, dizzy/service/) sit beside those files. Which of the two `from dizzy import EntityManager` reaches at run time is left open here. The local processor imports dizzy/entity/manager.py explicitly (dizzy/daemon/less/__main__.py:8) and subclasses that class. dizzy/daemon/server/__main__.py uses the same open `from dizzy import EntityManager` (:9), but its `DaemonEntityManager` calls `load(common_services, default_entities)` (:31), reads `common_service_manager` (:177, :185, :192) and calls a three-argument `run_workflow` (:158). Only the class in dizzy/entity/manager.py defines these, so the `Daemons` module models the ROUTER server against that class.

## Model

| member | source | states |
|---|---|---|
| Values.Update | dizzy/daemon/abstract_protocol.py:111-112 | `dict.update`: the keys are the union, the argument's entries win, and the other old entries stay |
| Actions.GetAction | dizzy/utils.py:47-48 | an unregistered name gives `(None, None)`; a registered one gives its stored `(argstr, action)` pair |
| Actions.Register | dizzy/utils.py:33-44 | a non-callable is a TypeError "Action name is not callable"; otherwise `get_action` then returns the new pair, every other name is unchanged, re-registering keeps the key order, and a new name is appended |
| Actions.TryRunAction | dizzy/utils.py:50-58 | a registered callable's outcome on the arguments, its exception included; otherwise the sentinel string naming the action and `possible_actions`, with no exception |
| Actions.ActionRegistry.constructor | dizzy/utils.py:19-27 | the registry starts empty |
| Actions.ActionRegistry.RegisterAction | dizzy/utils.py:33-44 | on a TypeError the table is unchanged and the error is returned; otherwise the table is the one `Register` describes |
| Tasks.Construct | dizzy/task.py:10-20 | `name` None takes the class name and `description` None takes the class docstring; explicit values are kept; `dependencies` and `requested_actions` default to empty lists; the action table starts empty |
| Tasks.ConstructKeepsExplicit | dizzy/task.py:15-20 | rebuilding a task from its own fields gives the same task back |
| Tasks.BoundActionsSpec | dizzy/service/__main__.py:57-61 | after binding, each requested name that the offering registry holds maps to the offered pair; every other name keeps its entry; the existing keys stay in front |
| Tasks.BoundActionsKeys | dizzy/service/__main__.py:57-61 | binding only adds names: the names the task's registry already had stay in front, in their order |
| Tasks.BindRequestedActions | dizzy/service/manager.py:25-30 | the binding loop gives the task the table `BoundActions` describes |
| Services.GetTask | dizzy/service/__main__.py:87-93 | succeeds exactly for loaded names, with that instance; a declared but unloaded name is a ValueError; any other name is a KeyError naming the service |
| Services.TasksAligned | dizzy/service/__main__.py:95-99 | `get_tasks` and `get_task_names` have equal length and are aligned by position with `get_task`; names do not repeat |
| Services.Instantiate | dizzy/service/__main__.py:39-61 | a loaded instance has the class name and docstring, copies of the class's `dependencies` and `requested_actions`, and the service's callable actions bound |
| Services.LastSelected | dizzy/service/__main__.py:63 | the last selected candidate with a given name, or none exists |
| Services.LoadedTasksSpec | dizzy/service/__main__.py:28-63 | with the filter as intended, each name maps to the instance of the last selected class of that name, or else to what was loaded before |
| Services.WildcardLoadFails | dizzy/service/__main__.py:32-37 | as written, under `["*"]` the module's leading `__name__` string passes the filter, so loading fails; the intended filter skips it |
| Services.AsWrittenAgreesWithoutWildcard | dizzy/service/__main__.py:32-37 | without the wildcard, the filter as written and the intended filter load the same table |
| Services.LoadTasks | dizzy/service/__main__.py:28-63 | the load loop stores the table `LoadedTasks` describes |
| ServiceManagers.OwnerFrom | dizzy/service/manager.py:47-51 | the first position from `i` on whose service declares the task, or none |
| ServiceManagers.FindOwnerService | dizzy/service/manager.py:47-51 | the first service in insertion order that declares the task, and None exactly when none does |
| ServiceManagers.GetService | dizzy/service/manager.py:53-56 | the stored service, and None exactly for unknown names |
| ServiceManagers.FindTask | dizzy/service/manager.py:74-78 | None exactly when no service declares the name; otherwise the owner's `get_task` answer, either its task or its ValueError |
| ServiceManagers.ResolveUnknown | dizzy/service/manager.py:82-85 | a name that no service declares resolves to `[]`; in the legacy version it is a ValueError "Task name not found" |
| ServiceManagers.ResolveFound | dizzy/service/manager.py:89-102 | a found task without dependencies resolves to `[t]`; with dependencies the list is what the loop builds, followed by `t` |
| ServiceManagers.ChainsIsReference | dizzy/service/manager.py:96-102 | the prepend loop gives `resolve(dn) ++ … ++ resolve(d1)` with nothing de-duplicated; self-dependencies are skipped in the current version only; the first failure in declaration order propagates |
| ServiceManagers.ChainsAcc | dizzy/service/manager.py:96-100 | whatever the loop starts from ends up behind everything it prepends |
| ServiceManagers.ThenAssoc | dizzy/service/manager.py:99-100 | appending in two steps is appending the concatenation |
| ServiceManagers.ChainsSnoc | dizzy/service/manager.py:96-100 | one more dependency at the end puts its chain in front |
| ServiceManagers.LegacyMissingDependencyFails | dizzy/service.py:141-157 | legacy resolution is a ValueError when a dependency anywhere on a path below is declared nowhere |
| ServiceManagers.ChainsFailsOn | dizzy/service.py:153-155 | one failing dependency makes the whole legacy loop fail |
| ServiceManagers.PopArgsSpec | dizzy/service/manager.py:112-114 | popping succeeds when each stack holds at least as many values as its name is listed; the stack loses exactly that many from the top; each listed name gets the deepest value popped for it; other arguments are kept |
| ServiceManagers.PopArgsStacks | dizzy/service/manager.py:112 | the stack half of `PopArgsSpec` |
| ServiceManagers.PopArgsValues | dizzy/service/manager.py:112 | the argument half of `PopArgsSpec` |
| ServiceManagers.PopArgsSucceeds | dizzy/service/manager.py:112 | popping never fails when every stack is deep enough |
| ServiceManagers.PopArgsCongruent | dizzy/service/manager.py:112 | a missing stack and an empty one make popping succeed or fail alike, and leave the same stacks |
| ServiceManagers.PopArgsAccIndependent | dizzy/service/manager.py:112 | the stacks left, and whether popping fails, do not depend on the arguments gathered so far |
| ServiceManagers.RunStepsAppend | dizzy/service/manager.py:111-119 | running `a + b` is running `a`, then `b` on the stacks `a` left |
| ServiceManagers.FinalPopTakesLastPush | dizzy/service/manager.py:119-124 | the final pop takes back exactly the value the last task pushed on its own stack |
| ServiceManagers.RunTasklistReturnsLast | dizzy/service/manager.py:119-124 | an empty list returns None and leaves the stacks alone; when no task raises, the runner returns the last task's result on its popped arguments |
| ServiceManagers.RaisingTaskStops | dizzy/service/manager.py:111-117 | a task that raises ends the run with its exception: no later task runs, nothing is pushed for it, and the pops already made stay made |
| ServiceManagers.RunStepsLast | dizzy/service/manager.py:111-119 | the steps of `pre + [t]` end with `t`'s step on the stacks `pre` left |
| ServiceManagers.PopAfterPush | dizzy/service/manager.py:112-119 | popping the value just pushed, then the rest, restores what popping the rest restored before the push |
| ServiceManagers.StepAfterRestore | dizzy/service/manager.py:112-119 | a task that returns, and whose dependencies pop back to `s`, pushes exactly its own result on top of `s` |
| ServiceManagers.ChainRunsClean | dizzy/service/manager.py:111-119 | on an acyclic, fully resolvable catalog whose tasks return, running a found task's chain never pops a missing or empty stack, and its net effect is one value pushed on that task's stack |
| ServiceManagers.ChainsCons | dizzy/service/manager.py:96-100 | the first dependency's chain ends up behind the chains of the later ones |
| ServiceManagers.DepChainsRunClean | dizzy/service/manager.py:111-119 | running the chains of a dependency list, then popping that list, leaves the stacks as they were |
| ServiceManagers.FinalPopEmpties | dizzy/service/manager.py:121-128 | after such a clean run the final pop leaves every stack empty |
| ServiceManagers.ResolvedRunLeavesStacksEmpty | dizzy/service/manager.py:128 | when no task raises, running a resolved chain in a fresh context succeeds and leaves every stack empty, as the comment promises |
| ServiceManagers.PopArguments | dizzy/service/manager.py:112 | the comprehension loop computes `PopArgs` |
| ServiceManagers.RunTasklist | dizzy/service/manager.py:104-129 | the run, its result or the first exception a task raised, is `RunTasklistSpec` on `ctx or {}`; the caller sees the stacks change only when it passed a non-empty context |
| ServiceManagers.RunTask | dizzy/service/manager.py:131-136 | a resolution error propagates with the caller's context untouched; otherwise it runs the resolved list, and a task's exception propagates |
| ServiceManagers.SharedResultsAppend | dizzy/service.py:163-166 | one result per task when none raises, fewer when one does, and the shared context threads through a concatenation |
| ServiceManagers.SharedRunReturnsLast | dizzy/service.py:159-169 | the legacy runner's outcome is the last task's outcome on the context the earlier tasks left: its result, or its exception |
| ServiceManagers.SharedRaiseSticks | dizzy/service.py:163-166 | once a task has raised, no later task runs and nothing changes |
| ServiceManagers.RunSharedLoop | dizzy/service.py:163-166 | the loop gathers the results and threads the shared context as `SharedResults`, stopping at the first exception |
| ServiceManagers.RunTasklistShared | dizzy/service.py:159-169 | returns the last result, or None for an empty list, or the exception a task raised, together with the shared context the tasks left |
| ServiceManagers.RunTaskShared | dizzy/service.py:171-176 | `run_task == run_tasklist(resolve(name), ctx)`: a resolution error propagates and leaves the context alone, and a task's exception propagates |
| ServiceManagers.UnoFound | dizzy/default_data/common_services/uno/tasks/moreofthem.py:1-27 | in the `uno` fixture, A, B, C and D are found with their declared dependencies |
| ServiceManagers.UnoRanked | dizzy/default_data/common_services/uno/tasks/moreofthem.py:4-7 | the fixture is acyclic under C > B > A |
| ServiceManagers.UnoResolves | tests/test_service.py:22-30 | `resolve("C") == [A, B, C]` and `resolve("D") == [D]` |
| ServiceManagers.UnoResolvesD | tests/test_service.py:22-23 | `resolve("D") == [D]` |
| ServiceManagers.UnoResolvesB | dizzy/default_data/common_services/uno/tasks/sometasks.py:12-18 | B's chain is `[A, B]` |
| ServiceManagers.UnoStepBAsWritten | dizzy/default_data/common_services/uno/tasks/sometasks.py:16-18 | as written, B's parameter `A` receives the whole argument dictionary `{"A": "A"}`, so B pushes "{'A': 'A'}B" |
| ServiceManagers.UnoStepB | tests/test_service.py:32-35 | with B reading A's result as the test expects, B pops A's "A" and pushes "AB" |
| ServiceManagers.UnoStepC | dizzy/default_data/common_services/uno/tasks/moreofthem.py:9-12 | C pops B's "AB", writes "C" into its own argument dictionary and pushes "ABC" |
| ServiceManagers.UnoRunAsWrittenRaises | dizzy/default_data/common_services/uno/tasks/sometasks.py:7-9 | as written, `run_tasklist(resolve("C"))` raises the TypeError of calling the argument-less `A.run` with one argument, before anything is pushed |
| ServiceManagers.UnoRunGivesABC | tests/test_service.py:32-35 | with A and B as the test expects them, running `[A, B, C]` in a fresh context returns "ABC" |
| ServiceManagers.UnoStepsABC | tests/test_service.py:32-35 | with the expected bodies, A, B and C each pop their dependency and push their own result, leaving only C's "ABC" on the stacks |
| ServiceManagers.LastFile | dizzy/service/manager.py:33-39 | the last present file holding a service of a given name, or none exists |
| ServiceManagers.LoadedServicesSpec | dizzy/service/manager.py:32-45 | missing files are skipped; each name maps to the last service of that name, with every task's requested actions bound against the manager's registry |
| ServiceManagers.RebindTasks | dizzy/service/manager.py:42-43 | the loop rebinds every loaded task in load order, and the result equals `RebindService` |
| ServiceManagers.ReboundOne | dizzy/service/manager.py:42-43 | one turn of the loop keeps "the first j tasks are rebound and the rest untouched" |
| ServiceManagers.ReboundAll | dizzy/service/manager.py:42-43 | after the loop every task is rebound, and the key order is kept |
| ServiceManagers.ServiceManager.constructor | dizzy/service/manager.py:13-23 | a fresh manager has no services, and its registry holds exactly `["service_info"]` |
| ServiceManagers.ServiceManager.LoadServices | dizzy/service/manager.py:32-45 | the catalog becomes `LoadedServices` of the old one |
| Memo.Index | depres/manic/src/main.rs:36-42 | every given service's name is indexed, and only those names are |
| Memo.IndexLastWins | depres/manic/src/main.rs:37 | a name is indexed to the last service of that name |
| Memo.Lookup | depres/manic/src/main.rs:55-58 | the cached results of the dependencies, in declared order |
| Memo.Resolver.constructor | depres/manic/src/main.rs:36-42 | the services are indexed by name, the cache is empty, and nothing has run |
| Memo.Resolver.Resolve | depres/manic/src/main.rs:44-65 | a cached name returns its cached string and runs nothing; an unknown name panics; cache entries are never overwritten; on success the cache maps the name to the result; on context-free services the result is the uncached reference `Eval` |
| Memo.Resolver.ResolveFresh | depres/manic/src/main.rs:49-64 | an uncached known name: its dependencies, then one execution, then the cache insert |
| Memo.Resolver.ResolveDependencies | depres/manic/src/main.rs:55-58 | the dependencies are resolved in declared order, and their results are passed in that order |
| Memo.Resolver.CollectDependencies | depres/manic/src/main.rs:55-58 | the loop's j-th collected result is the cached result of the j-th declared dependency, and for services that do not read the context it panics exactly when the reference evaluation does |
| Memo.Resolver.ResolveNext | depres/manic/src/main.rs:57 | one dependency is resolved and ends up cached with its result |
| Memo.CachedStayCached | depres/manic/src/main.rs:55-58 | while the cache only grows, the dependencies already resolved keep their values |
| Memo.EvalFromStep | depres/manic/src/main.rs:55-58 | one step of the reference evaluation: the next dependency's value is appended, or its failure ends the evaluation |
| Memo.OccursOnce | depres/manic/src/main.rs:60-64 | a name occurs once in a list without repetitions |
| Memo.ExampleIndexed | depres/manic/src/main.rs:69-87 | the example graph indexes A, B and C with their dependencies |
| Memo.ExampleWellFormed | depres/manic/src/main.rs:69-87 | the example graph is acyclic and context-free |
| Memo.ExampleEvalB | depres/manic/src/main.rs:75-79 | B denotes "Result B (Result A)" |
| Memo.ExampleDependenciesOfC | depres/manic/src/main.rs:81-85 | C's dependencies evaluate to A's and B's results, in declared order |
| Memo.ExampleEvalC | depres/manic/src/main.rs:81-85 | C runs on its dependencies' results |
| Memo.ExampleTextC | depres/manic/src/main.rs:83 | C's text from those results is "Result C (Result A, Result B (Result A))" |
| Memo.ExampleEval | depres/manic/src/main.rs:87-89 | resolving C denotes "Result C (Result A, Result B (Result A))" |
| Memo.ExampleMain | depres/manic/src/main.rs:68-91 | `main` gets "Result C (Result A, Result B (Result A))", and ServiceA runs exactly once |
| Entities.FilterFiles | dizzy/entity/__main__.py:72-76 | a file is kept, as often as it was found, exactly when its directory is listed or the wildcard holds |
| Entities.ServiceFiles | dizzy/entity/__main__.py:67-82 | no services root is a ValueError; otherwise a file is kept iff its parent is in `services` or `services == ["*"]` |
| Entities.LegacyServiceFiles | dizzy/entity.py:57-68 | the same without the wildcard |
| Entities.FilterFilesAppend | dizzy/entity/__main__.py:72-76 | filtering a concatenation filters each part, so kept files stay in the order they were found |
| Entities.FilterFilesOne | dizzy/entity/__main__.py:72-76 | one file is kept exactly when its directory is listed or the wildcard holds |
| Entities.ServiceFilesAppend | dizzy/entity/__main__.py:67-82 | both `get_service_files` versions keep the found files in their found order |
| Entities.RemoveSpaces | dizzy/entity/__main__.py:91 | no space is left, and every other character is kept with its count |
| Entities.RemoveSpacesAppend | dizzy/entity/__main__.py:91 | removing spaces distributes over concatenation, so the other characters keep their order |
| Entities.RemoveSpacesOne | dizzy/entity/__main__.py:91 | a single character is dropped exactly when it is a space |
| Entities.SplitArrow | dizzy/entity/__main__.py:91 | never empty; no piece holds an arrow; the first piece is a prefix of the input |
| Entities.JoinSplit | dizzy/entity/__main__.py:91 | joining the pieces with "->" gives the input back |
| Entities.JoinAfterArrow | dizzy/entity/__main__.py:91 | a leading arrow makes an empty first piece |
| Entities.JoinAfterChar | dizzy/entity/__main__.py:91 | any other leading character goes in front of the first piece |
| Entities.SplitPiece | dizzy/entity/__main__.py:91 | a piece without an arrow splits to itself |
| Entities.SplitAfterPiece | dizzy/entity/__main__.py:91 | splitting `p + "->" + rest` gives `p`, then the pieces of `rest` |
| Entities.SplitJoin | dizzy/entity/__main__.py:91 | splitting a join of arrow-free pieces gives the pieces back |
| Entities.PartOfWorkflowCtx | dizzy/entity/__main__.py:88 | the initial context's `input` and `result` read back as given |
| Entities.WithPartOfWorkflowCtx | dizzy/entity/__main__.py:95-97 | writing `input` or `result` keeps the shape `{"workflow": {...}}` |
| Entities.ErrSticks | dizzy/entity/__main__.py:93-97 | a failing stage ends the run with its error, and no later stage runs |
| Entities.FeedShaped | dizzy/entity/__main__.py:94-95 | `input[stage_i]` becomes `result[stage_{i-1}]` only when that key exists; at i = 0 the previous stage is the last stage |
| Entities.StoreShaped | dizzy/entity/__main__.py:97 | a stage's value is stored at `result[stage]`, overwriting an earlier entry |
| Entities.ResultOfSpec | dizzy/entity/__main__.py:97 | `result` holds exactly the stage names run, each mapped to the value of its latest run |
| Entities.ResultOfKeys | dizzy/entity/__main__.py:97 | the key half of `ResultOfSpec` |
| Entities.ResultOfValues | dizzy/entity/__main__.py:97 | the value half of `ResultOfSpec` |
| Entities.InputOfSpec | dizzy/entity/__main__.py:94-95 | the first stage gets no input; each later stage is fed the value of the stage before it, and a repeated name keeps its latest feed |
| Entities.InputOfKeys | dizzy/entity/__main__.py:94-95 | the key half of `InputOfSpec` |
| Entities.InputOfValues | dizzy/entity/__main__.py:94-95 | the value half of `InputOfSpec` |
| Entities.WorkflowShape | dizzy/entity/__main__.py:88-99 | with the current manager the context keeps exactly the shape `{"workflow": {"input": InputOf, "result": ResultOf}}` |
| Entities.ShapeStep | dizzy/entity/__main__.py:93-97 | one stage with the current manager keeps that shape |
| Entities.StepOnShape | dizzy/entity/__main__.py:93-97 | one stage on a context of that shape feeds, runs and stores as `InputOf`/`ResultOf` say |
| Entities.AppendShape | dizzy/entity/__main__.py:94-97 | recording a stage's value extends both dictionaries the way `InputOf` and `ResultOf` say |
| Entities.PreviousResult | dizzy/entity/__main__.py:94 | before a stage runs, the previous stage's result is there to feed, except before the first stage |
| Entities.ResultOfAppend | dizzy/entity/__main__.py:97 | a later result does not disturb the dictionary of the earlier stages |
| Entities.InputOfAppend | dizzy/entity/__main__.py:94-95 | a later result does not disturb the input of the earlier stages |
| Entities.ResultOfPrefix | dizzy/entity/__main__.py:97 | `result` depends only on the values of the stages run so far |
| Entities.InputOfPrefix | dizzy/entity/__main__.py:94-95 | `input` depends only on the values of the stages run so far |
| Entities.RunStageStep | dizzy/entity/__main__.py:94-97 | one pass of the loop body with the current manager is one step of the specification |
| Entities.RunStageStepLegacy | dizzy/entity.py:80-83 | one pass with the legacy manager, where the tasks run on the context itself |
| Entities.NextStage | dizzy/entity/__main__.py:93-97 | a stage's error ends the run, and its success extends the run by its value |
| Entities.StepFails | dizzy/entity/__main__.py:93-97 | a failing stage decides the outcome of the whole run |
| Entities.RunNextStage | dizzy/entity/__main__.py:93-97 | the loop body either ends with the run's error or goes on with one more stage's value |
| Entities.RunStages | dizzy/entity/__main__.py:88-99 | the stage loop returns the context after all stages, or the first stage error |
| Entities.RunWorkflow | dizzy/entity/__main__.py:84-99 | an unknown workflow is a KeyError before any stage runs; otherwise the stages of the space-stripped, arrow-split chain run in order on one context that is returned, and the first exception a stage's tasks raise ends the run with that exception |
| Entities.RunWorkflowLegacy | dizzy/entity.py:70-85 | the same loop with the legacy manager, whose tasks write the context itself |
| Entities.RebindCatalogSpec | dizzy/entity/__main__.py:39-45 | after binding, every loaded task has exactly the requested actions the registry holds as callables bound to its pairs, and keeps its other actions, with names and order unchanged |
| Entities.BindOne | dizzy/entity/__main__.py:39-45 | one turn of the loop keeps "the first j services are rebound" |
| Entities.BindAll | dizzy/entity/__main__.py:39-45 | after the loop every service is rebound |
| Entities.RebindCatalogExt | dizzy/entity/__main__.py:39-45 | a catalog with the same names in the same order and each service rebound is the rebound catalog |
| Entities.BindCatalog | dizzy/entity/manager.py:45-51 | the nested loop over services and tasks gives `RebindCatalog` |
| Entities.BindEntityActions | dizzy/entity/__main__.py:38-45 | each task is offered the entity's own registry |
| EntityManagers.CopiedIntoSpec | dizzy/entity/manager.py:55-61 | a listed name that the common manager holds maps to the common service; every other name keeps the entity's own service |
| EntityManagers.CopiedIntoKeys | dizzy/entity/manager.py:55-61 | copying only appends names, so the entity's own names keep their positions |
| EntityManagers.LoadedEntityCatalog | dizzy/entity/manager.py:72-78 | a loaded entity keeps its name and workflows; under each name it holds the common service if listed and held, else its own, bound to the entity's actions when rebinding |
| EntityManagers.LastNamed | dizzy/entity/manager.py:75 | the last entity with a given name, or none exists |
| EntityManagers.LoadedEntitiesSpec | dizzy/entity.py:101-112 | each name maps to the last loaded entity of that name, after copying, or to what the table held before |
| EntityManagers.NamedPut | dizzy/entity/manager.py:75 | storing under the entity's own name keeps every entity under its own name |
| EntityManagers.LoadedEntitiesNamed | dizzy/entity/manager.py:72-78 | loading keeps every entity under its own name |
| EntityManagers.LoadedStep | dizzy/entity/manager.py:73-78 | one turn of the loop stores the next entity, and the rest remain |
| EntityManagers.CopyServices | dizzy/entity.py:107-112 | the copying loop computes `CopiedInto` |
| EntityManagers.PairsSpec | dizzy/entity/manager.py:85-86 | one entity's pairs are its name with each of its workflows |
| EntityManagers.PairsBeforeSpec | dizzy/entity/manager.py:84-86 | the pairs of the first i entities are exactly their (name, workflow) combinations |
| EntityManagers.PrefixStep | dizzy/entity/manager.py:84 | membership in a prefix grows by one element per step |
| EntityManagers.WorkflowPairsSpec | dizzy/entity/manager.py:82-88 | a pair is listed exactly when the entity of that name declares the workflow |
| EntityManagers.FirstWhere | dizzy/entity/manager.py:110-113 | the first matching entity among the first i entities, or none exists |
| EntityManagers.FindOwnerEntity | dizzy/entity/manager.py:126-133 | the first entity, in load order, some service of which declares the task, and None exactly when none does |
| EntityManagers.FindTask | dizzy/entity/manager.py:109-116 | None when no entity declares the task; otherwise the owner entity's declaring service's `get_task` answer |
| EntityManagers.FindService | dizzy/entity/manager.py:118-124 | the service of that name in the first entity holding one, and None exactly when none does |
| EntityManagers.FindOwnerServiceAsWritten | dizzy/entity/manager.py:135-142 | as written, every found owner ends in a TypeError, because the Service object is used as a dict key; otherwise None |
| EntityManagers.FindOwnerServiceOf | dizzy/entity/manager.py:135-142 | as intended: the first declaring service of the first declaring entity, which declares the task |
| EntityManagers.OwnerServiceDiscrepancy | dizzy/entity/manager.py:139 | the as-written lookup fails exactly where the intended one finds a service, and agrees (None) elsewhere |
| EntityManagers.FindTaskThroughOwner | dizzy/entity/manager.py:109-116 | `find_task` returns the task held by the intended owner service |
| EntityManagers.GetEntity | dizzy/entity/manager.py:102-107 | the stored entity, and None exactly for unknown names; the entity carries the name it is stored under |
| EntityManagers.EntitiesAligned | dizzy/entity.py:121-128 | `get_entities`, `get_entity_names` and `get_entity_items` have one entry per entity and are aligned with `get_entity`; names do not repeat; the items pair each name with its services |
| EntityManagers.Target | dizzy/entity/manager.py:93-99 | a loaded named entity is chosen; otherwise the entity of the first `get_workflows` pair with that workflow, which declares it; None when there is none |
| EntityManagers.FirstPairForSpec | dizzy/entity/manager.py:97-99 | the scan finds a pair listed with the workflow, and finds none only when no pair names it |
| EntityManagers.FindWorkflowEntity | dizzy/entity/manager.py:97-99 | the loop over the pairs computes `FirstPairFor` |
| EntityManagers.EntityManager.constructor | dizzy/entity/manager.py:13-24 | a given service manager is shared; otherwise a fresh empty one is made; the registry holds exactly `["entity_info"]` |
| EntityManagers.EntityManager.ResetAsWritten | dizzy/entity/manager.py:37-39 | as written, the table is emptied and then the call to the missing `ServiceManager.reset` raises AttributeError |
| EntityManagers.EntityManager.Reset | dizzy/entity/manager.py:37-39 | as intended, both the entity table and the common service table are emptied |
| EntityManagers.EntityManager.CopyCommonServices | dizzy/entity/manager.py:55-61 | the entity's catalog becomes `CopiedInto` of the common services |
| EntityManagers.EntityManager.LoadEntity | dizzy/entity/manager.py:77-78 | copy, then bind the entity's actions |
| EntityManagers.EntityManager.StoreEntity | dizzy/entity/manager.py:74-78 | one entity is stored under its name, copied and bound |
| EntityManagers.EntityManager.LoadEntities | dizzy/entity/manager.py:72-80 | the table becomes `LoadedEntities` of the old one |
| EntityManagers.EntityManager.Load | dizzy/entity/manager.py:41-53 | the common services are loaded, then rebound against this manager's registry, then the entities are loaded against them |
| EntityManagers.EntityManager.GetWorkflows | dizzy/entity/manager.py:82-88 | the loop returns `WorkflowPairs`: entities in load order, workflows in declaration order |
| EntityManagers.EntityManager.RunWorkflowAsWritten | dizzy/entity/manager.py:90-100 | as written, a TypeError whenever an entity is chosen; None when none is |
| EntityManagers.EntityManager.RunWorkflow | dizzy/entity/manager.py:90-100 | as intended, the chosen entity's workflow runs and its final context is returned; None when there is no target |
| EntityManagers.LegacyEntityManager.constructor | dizzy/entity.py:89-92 | a given service manager is shared, otherwise a fresh empty one; no entities |
| EntityManagers.LegacyEntityManager.LoadEntities | dizzy/entity.py:101-114 | the table becomes `LoadedEntities` without rebinding |
| Protocols.SetOptionWritesOneKey | dizzy/daemon/abstract_protocol.py:30-31 | `set_option` writes exactly one key of `step_options`, and nothing else changes |
| Protocols.NewDaemonRequest | dizzy/daemon/protocol.py:27-32 | an empty or missing entity, then an empty or missing workflow, is a ValueError; otherwise the fields are as given |
| Protocols.Add | dizzy/daemon/abstract_protocol.py:48-58 | a new key gets `[v]`, a known key gets `v` appended, and other keys are unchanged |
| Protocols.AddAllSpec | dizzy/daemon/abstract_protocol.py:48-52 | after any sequence of additions, each key's list is its old list followed by exactly the values added under it, in order |
| Protocols.SetResultOn | dizzy/daemon/abstract_protocol.py:60-63 | refused with the RuntimeError text exactly on "complete" or "error", and the result is left alone; otherwise only the result changes |
| Protocols.StatusGuardsResult | tests/test_protocol.py:74-86 | `set_status` is unconditional, and a later `set_result` succeeds exactly when the last status is neither "complete" nor "error"; "completed" after "error" re-opens the result |
| Protocols.Response.FromRequest | dizzy/daemon/abstract_protocol.py:68-71 | only `request` and `status` are set; id and requester are None, result is None, and the multimaps and ctx are empty |
| Protocols.Response.Blank | dizzy/daemon/protocol.py:38-47 | a fresh id, status "incomplete", everything else empty |
| Protocols.Response.FromRequestCopying | dizzy/daemon/protocol.py:73-88 | the requester, the request, its id and its ctx are copied in, and the status is set |
| Protocols.Response.AddError | dizzy/default_data/protocol.py:24-28 | the errors become `Add(errors, error, message)`, and nothing else changes |
| Protocols.Response.AddInfo | dizzy/default_data/protocol.py:30-34 | the info becomes `Add(info, key, value)`, and nothing else changes |
| Protocols.Response.SetResult | dizzy/default_data/protocol.py:36-39 | the state becomes `SetResultOn`'s; a refusal changes nothing and returns the RuntimeError |
| Protocols.Response.SetStatus | dizzy/default_data/protocol.py:41-42 | only the status changes |
| Protocols.Response.UpdateCtx | dizzy/default_data/protocol.py:44-45 | ctx becomes `Update(ctx, other)`: the argument wins |
| Daemons.Settle | dizzy/daemon/less/__main__.py:82 | a refused `set_result` leaves the state and raises its error; an accepted one returns the new state |
| Daemons.WorkflowResult | dizzy/daemon/server.py:88 | `ctx["workflow"]["result"]`: a KeyError without "workflow", and on success the stored entry |
| Daemons.GuardedResult | dizzy/daemon/less/__main__.py:82 | None without "workflow"; otherwise the same read |
| Daemons.ResultOfWorkflowCtx | dizzy/entity/__main__.py:88 | on the workflow shape both readers find the result dictionary |
| Daemons.CompletedWorkflowResult | dizzy/daemon/less/__main__.py:82 | a workflow that the current manager completes leaves its result dictionary where the handlers read it |
| Daemons.CallRunWorkflow | dizzy/daemon/less/__main__.py:75 | the call returns the manager's `run_workflow` answer, as written or as corrected |
| Daemons.RunsAsWrittenFail | dizzy/entity/manager.py:93-94 | as written, naming a loaded entity makes `run_workflow` raise the TypeError, whatever the workflow |
| Daemons.RunsDelegate | dizzy/entity/manager.py:93-94 | with the corrected manager and a loaded entity named, the workflow runs on that entity |
| Daemons.HandleEntityWorkflow | dizzy/daemon/server/__main__.py:144-166 | the response and escaping exception are `Handled`: the early exits, KeyError recorded with result None, other errors escaping, ctx echoed, result set |
| Daemons.WriteResult | dizzy/daemon/server/__main__.py:157-166 | the rest of the handler after the run, as `AfterRun` |
| Daemons.RouteRequest | dizzy/daemon/server/__main__.py:119-125 | only the entity route is dispatched; "BadRequest" otherwise |
| Daemons.Finish | dizzy/daemon/server/__main__.py:127-129 | only the status changes; it is "completed" iff no error was recorded, else "finished_with_errors" |
| Daemons.Respond | dizzy/daemon/less/__main__.py:42-56 | builds, routes and finishes the response as `Answered` |
| Daemons.AnsweredStatus | dizzy/daemon/less/__main__.py:54-56 | every answered request ends "completed" exactly when it collected no error, else "finished_with_errors", and carries its request |
| Daemons.AnsweredEarlyExits | dizzy/daemon/less/__main__.py:49-72 | no entity gives "BadRequest"; then no workflow gives "BadWorkflow"; then an unloaded entity gives "EntityNotFound"; each adds one error, runs nothing and finishes "finished_with_errors" |
| Daemons.AnsweredRun | dizzy/daemon/less/__main__.py:74-82 | a KeyError gives a "KeyError" entry with the quoted key, result None and the request's ctx; other exceptions escape; a workflow-shaped context is answered "completed" with its result dictionary |
| Daemons.HandleLocalRequest | dizzy/daemon/less/__main__.py:36-57 | the dumped response or the escaping exception, as `LocalRequestSpec` |
| Daemons.LocalInvalid | dizzy/daemon/less/__main__.py:40-47 | a payload that fails validation gets no answer, because `from_request(None)` is refused |
| Daemons.LocalAsWrittenRaises | dizzy/daemon/less/__main__.py:74-79 | as written, a request naming a loaded entity and a workflow gets no answer: the TypeError escapes the handler, which catches only KeyError |
| Daemons.LocalAsWrittenNeverCompletes | dizzy/daemon/less/__main__.py:49-79 | as written, every answer is one of the early exits, with one error and status "finished_with_errors" |
| Daemons.LocalCompleted | dizzy/daemon/less/__main__.py:74-82 | with the corrected manager, a workflow that the named entity completes is answered "completed", with no error, the result dictionary as result and the request's ctx echoed |
| Daemons.AnsweredCompleted | dizzy/daemon/less/__main__.py:81-82 | a run whose context carries a result dictionary is answered "completed" with it |
| Daemons.LocalFailed | dizzy/daemon/less/__main__.py:74-79 | with the corrected manager, a KeyError from the run is answered under "KeyError" with result None; any other failure escapes |
| Daemons.LocalUnknownWorkflow | dizzy/daemon/less/__main__.py:74-79 | with the corrected manager, a workflow the entity does not define is reported under "KeyError" with its quoted name |
| Daemons.RequestServer.constructor | dizzy/daemon/server/__main__.py:54-56 | no clients and no replies |
| Daemons.RequestServer.HandleRequest | dizzy/daemon/server/__main__.py:89-142 | the new clients, replies and escaping exception are `ServeSpec` of the old state |
| Daemons.RequestServer.HandleServiceTask | dizzy/daemon/server/__main__.py:168-197 | the response becomes `ServiceTaskSpec` on the common services |
| Daemons.Strs | dizzy/daemon/server/__main__.py:185-187 | the task names as a list value, position by position |
| Daemons.CallRunTask | dizzy/daemon/server/__main__.py:192-194 | the call returns the common manager's `run_task` answer |
| Daemons.ServiceTaskEarly | dizzy/daemon/server/__main__.py:173-179 | a missing task adds "BadTask" and an unknown service adds "ServiceNotFound", each alone; status, request and id are unchanged |
| Daemons.ServiceTaskRun | dizzy/daemon/server/__main__.py:181-197 | "available_services" grows by the name and task names before the run; then either result and ctx are set with no new error, or one "FinalError" is added |
| Daemons.ServeClients | dizzy/daemon/server/__main__.py:91-97 | the frame's identity has a record afterwards, with the fresh uuid if it was new; no other identity's record changes |
| Daemons.ServeLogs | dizzy/daemon/server/__main__.py:99-117 | a validated frame appends exactly one (request, response) pair and its fresh id, with the request stamped with the client uuid; a failed validation appends nothing |
| Daemons.ServeReply | dizzy/daemon/server/__main__.py:127-142 | an answered frame gets exactly one reply, to its own identity: the logged response, finished "completed" iff it has no errors |
| LegacyDaemons.LegacyResponse.constructor | dizzy/daemon/server.py:38-44 | status "incomplete", empty error and info lists, result and ctx None |
| LegacyDaemons.LegacyResponse.AddError | dizzy/daemon/server.py:49 | one message is appended to the errors, and nothing else changes |
| LegacyDaemons.CallLegacyRun | dizzy/daemon/server.py:76 | the call returns the loaded entity's legacy `run_workflow` answer |
| LegacyDaemons.CallSharedRun | dizzy/daemon/server.py:110 | the call returns the legacy `run_task` answer and the context it left |
| LegacyDaemons.LegacyRequestServer.constructor | dizzy/daemon/server.py:24-30 | nothing sent yet |
| LegacyDaemons.LegacyRequestServer.HandleEntityWorkflow | dizzy/daemon/server.py:62-88 | the response and escaping exception are `EntityWorkflowSpec` of the old response |
| LegacyDaemons.LegacyRequestServer.FinishEntityWorkflow | dizzy/daemon/server.py:77-88 | the part after the run, as `AfterLegacyRun` |
| LegacyDaemons.LegacyRequestServer.HandleServiceTask | dizzy/daemon/server.py:90-114 | the response is `ServiceTaskSpec` on the main services, and the request is `AfterService` |
| LegacyDaemons.LegacyRequestServer.Route | dizzy/daemon/server.py:51-56 | routes as `RouteSpec` |
| LegacyDaemons.LegacyRequestServer.ServeFrame | dizzy/daemon/server.py:38-60 | one frame, as `FrameSpec` |
| LegacyDaemons.LegacyRequestServer.Run | dizzy/daemon/server.py:34-60 | the replies sent are `RunSpec` of the frames, and the first escaping exception ends the loop |
| LegacyDaemons.RoutingOrder | dizzy/daemon/server.py:51-56 | entity first, then service; a request naming neither records "Invalid JSON" and nothing else |
| LegacyDaemons.EntityEarlyExits | dizzy/daemon/server.py:66-72 | a missing workflow appends "Invalid JSON, no workflow" and an unknown entity appends "Entity not found", each alone and nothing raised |
| LegacyDaemons.EntityKeyErrorCrashes | dizzy/daemon/server.py:75-88 | an undefined workflow records "No such workflow: 'name'" and status "finished_with_errors", then raises UnboundLocalError reading `ctx` |
| LegacyDaemons.EntityCompleted | dizzy/daemon/server.py:74-88 | a run that returns echoes entity, workflow and the request's ctx; the status is "completed" iff nothing was recorded; the result is the workflow result, and the handler raises exactly when that is unreadable |
| LegacyDaemons.StoreKeepsResult | dizzy/entity.py:83 | after a stage's result is stored, `ctx["workflow"]["result"]` is readable |
| LegacyDaemons.StepKeepsResult | dizzy/entity.py:80-83 | the same after any completed legacy stage |
| LegacyDaemons.LegacyRunHasResult | dizzy/entity.py:74-85 | a completed legacy workflow leaves a readable result, however its tasks reshaped the shared context |
| LegacyDaemons.AfterStagesKeepResult | dizzy/entity.py:79-83 | after at least one completed legacy stage the result is readable |
| LegacyDaemons.NextKeepsResult | dizzy/entity.py:79-83 | one more completed legacy stage leaves the result readable |
| LegacyDaemons.LegacyWorkflowAnswered | dizzy/daemon/server.py:74-88 | a loaded entity whose workflow completes is answered without an exception |
| LegacyDaemons.ServiceEarlyExits | dizzy/daemon/server.py:94-100 | a missing task appends "Invalid JSON, no task" and an unknown service appends "Service not found", each alone; the request is untouched |
| LegacyDaemons.ServiceRan | dizzy/daemon/server.py:102-114 | a known service never raises: `available_services` is set to the service and its task names, then either the result and ctx come from the run, or one "Error running task: …" is appended |
| LegacyDaemons.ServiceCtxWrittenBack | dizzy/daemon/server.py:107-112 | the tasks' writes reach the request only when it carried a ctx, including writes made before a task raised |
| LegacyDaemons.FirstFrameInvalid | dizzy/daemon/server.py:46-51 | a first frame that is not JSON crashes the loop before any reply |
| LegacyDaemons.StaleRequestReused | dizzy/daemon/server.py:46-56 | a later frame that is not JSON is answered as the previous request again, with "Invalid JSON" already recorded |
| LegacyDaemons.SessionLength | dizzy/daemon/server.py:34-60 | at most one reply per frame, and exactly one per frame when nothing escapes |

## Left out

- Transport. The ZeroMQ sockets, the `run`/`stop` loops of the ROUTER server and socket setup are not modelled. A frame is an input value, and a reply is appended to a sequence. For dizzy/daemon/server.py the `while True` loop is modelled over a finite sequence of frames.
- Loading from disk. YAML loading and saving, globbing, `load_module`, `BaseProtocol.load` and the settings manager are not modelled. Services, entities, found files and scanned module attributes are given as values. `DaemonEntityManager` and `LocalEntityManager` loading from settings is a call to `Load` with those values.
- JSON and pydantic. Decoding and validation are an abstract outcome (`Decoded`, `Message`), and dumping is the response state itself. A decode failure other than a JSONDecodeError is not modelled. The same goes for a legacy JSON value that is not an object, entity or service values that are not strings, and a ctx that is not a dictionary. The server's `TypeError` branch and the serialization-error fallback are left out too, because dumping never fails here.
- Error texts. Exceptions raised inside libraries carry abbreviated texts: the validation error for `from_request(None)`, the unhashable-type TypeError, the positional-argument TypeError, the "object is not subscriptable" TypeError of `WorkflowResult` (Python's text depends on the type: "list indices must be integers or slices, not str", "string indices must be integers…", "'NoneType' object is not subscriptable"), and the "workflow context is not a dictionary" TypeError of `Store` and `Part`, whose Python text likewise depends on the value met.
- Logging. It has no behaviour.
- Aliasing. A service object shared between the common manager and several entities is a value here, so binding an action through one alias is not seen through the others. A task's registry is part of the task value.
- ServiceManagers.RunTasklist, ServiceManagers.RunTask, Entities.RunStage, Entities.RunWorkflow: the argument dictionary that `dict.update` builds for a task is a shallow copy, so a task that writes into a nested dictionary it was given, such as `ctx["workflow"]["result"]` when the current entity manager passes a workflow context, changes the caller's dictionary. The model drops every write to the argument dictionary, the nested ones included.
- Services.Selected: a candidate class is taken to be concrete. The abstract `Task` base that every task module imports is itself a Task class, so under the wildcard the intended filter still selects it, and instantiating it raises TypeError; that failure is not modelled.
- Values.Repr: the printed form of a value used by B's body does not escape quotes, and prints a dictionary with more than one entry in an arbitrary order; it is exact for the one-entry dictionary of the `uno` fixture.
- ServiceManagers.Resolve: in the legacy version a task's dependencies are read from its class whether declared there or inherited. The source tests `"dependencies" not in t.__dict__` on the task class, so a subclass that inherits a non-empty `dependencies` list without declaring one in its own body resolves to `[t]` alone. Every fixture declares its dependencies in its own class body.
- Task.__call__. It is the same as `run`, and the model keeps only `run`. Tasks are called only through `run` in the modelled code.
- Action arguments. Only positional arguments are modelled, and keyword arguments are left out.
- Termination. Resolution, workflow runs and the memoised resolver require a rank that drops along dependency edges, so a dependency cycle is outside the model. In Python a cycle ends in a RecursionError ("maximum recursion depth exceeded"), which the ROUTER server's `except Exception` records as "FinalError", the older server records as "Error running task: …", and which escapes the workflow handlers. In Rust a cycle overflows the stack and aborts the process. None of these error paths is modelled.
- Memo.Resolver.Resolve: an unknown service is returned as `Err(Panic)` instead of aborting the process.
- Memo.Resolver.Resolve: the result is tied to the uncached reference `Eval` only for services that do not read the context.
- The ROUTER server's `handle_service_task` is modelled, but `handle_request` never calls it, as in the source.
- The handlers pass the request's `step_options` to `RunWorkflowAsWritten`, which raises before using it. The corrected `EntityManager.RunWorkflow` drops it, because `Entity.run_workflow` takes none.
- dizzy/daemon/server.py mutates the request's `ctx` dictionary during a service task. The model returns that change as the updated request (`AfterService`), which is reused only when a later frame is not JSON.
- The older entity manager's main service manager is modelled with the current `ServiceManager` class. Only its `services` table and the legacy shared-context run are used, matching dizzy/service.py.
- The files with no behaviour of their own are not modelled, nor are the clients, the CLIs or the example task bodies that do I/O. The `uno` fixture bodies A, B and C appear as concrete examples, as written and as the test expects them; D's body prints and is left abstract.

## Findings

| source | as written | input that shows it | evidently intended | confidence | as-written member | corrected member |
|---|---|---|---|---|---|---|
| dizzy/entity/manager.py:94 | `run_workflow(workflow, step_options)` on the one-argument `Entity.run_workflow` | any call whose entity name is loaded, e.g. `("wf", None, "einz")`; every daemon request that reaches the manager then escapes (`Daemons.LocalAsWrittenRaises`) | run the workflow on the chosen entity; the handlers are proved against both, under `RunsAsWritten` and `RunsCorrected` | not executed | EntityManagers.EntityManager.RunWorkflowAsWritten | EntityManagers.EntityManager.RunWorkflow |
| dizzy/entity/manager.py:39 | `self.common_service_manager.reset()`, a method `ServiceManager` does not define | any call of `reset()` | empty both the entities and the common services | not executed | EntityManagers.EntityManager.ResetAsWritten | EntityManagers.EntityManager.Reset |
| dizzy/service/__main__.py:32-37 | `a and b and name in tasks or tasks == ["*"]` selects every module attribute under the wildcard | a service with `tasks == ["*"]` and any task module: its `__name__` string is selected, then `obj.__name__` fails | only Task subclasses, and all of them under the wildcard; the intended filter must also skip the imported abstract `Task` base (dizzy/task.py:9, 22-24), whose instantiation raises TypeError, and `Selected` assumes that the candidate classes are concrete | not executed | Services.WildcardLoadFails | Services.LoadedTasksSpec |
| dizzy/entity/manager.py:139 | `get_service(service)` given the Service object, which a dataclass with `eq` makes unhashable | any task that some entity's service declares | return the declaring service | not executed | EntityManagers.FindOwnerServiceAsWritten | EntityManagers.FindOwnerServiceOf |
| dizzy/default_data/common_services/uno/tasks/sometasks.py:7-18 | `A.run()` takes no argument and `B.run(A)` receives the whole argument dictionary, while `run_tasklist` calls `task.run(this_tasks_args)` | `run_tasklist(resolve_task_dependencies("C"))`, as in tests/test_service.py:32-35: A's call raises TypeError; were it to return "A", B would return "{'A': 'A'}B" | A returns "A" and B reads its argument's "A" entry, so the list returns "ABC" | not executed | ServiceManagers.UnoRunAsWrittenRaises | ServiceManagers.UnoRunGivesABC |
