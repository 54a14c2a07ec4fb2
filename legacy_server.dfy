/**
 * The older request server of dizzy/daemon/server.py.  Each frame gets a
 * fresh response dictionary; the decoded request is routed to the entity
 * handler when it names an entity, else to the service handler when it
 * names a service, else "Invalid JSON" is recorded.  The handlers speak to
 * the legacy entity manager (entity.py) and its legacy service manager
 * (service.py), whose tasks share and mutate one context dictionary.
 *
 * Two crash paths of the source are kept: a frame that is not JSON leaves
 * the variable `request` as the previous frame set it (unbound on the
 * first frame), and a workflow that raises a KeyError leaves `ctx` unbound
 * when the handler reads the result.
 */
module LegacyDaemons {
  import opened Wrappers
  import opened Values
  import ServiceManagers
  import Services
  import Entities
  import opened EntityManagers
  import Daemons

  // ----- requests and responses -----

  /** One key of the decoded JSON object: missing, `null`, or a string. */
  datatype Field = Absent | Null | Text(s: string)

  /** The decoded request object; `ctx` is None when the key is missing. */
  datatype JsonRequest = JsonRequest(entity: Field, workflow: Field, service: Field, task: Field, ctx: Option<Ctx>)

  /** What `json.loads` makes of a frame: a JSONDecodeError, or an object. */
  datatype Message = Invalid | Json(request: JsonRequest)

  /** `request.get(k, None)` is truthy. */
  predicate Filled(f: Field) {
    f.Text? && f.s != ""
  }

  /** `request.get("ctx", {})` */
  function CtxOrEmpty(req: JsonRequest): Ctx {
    if req.ctx.Some? then req.ctx.value else map[]
  }

  /**
   * The response dictionary: the five keys every frame starts with, then
   * the three a handler may add (None while not added).
   */
  datatype Reply = Reply(
    status: string,
    errors: seq<string>,
    info: seq<Value>,
    result: Value,
    ctx: Value,
    entity: Option<string>,
    workflow: Option<string>,
    availableServices: Option<(string, seq<string>)>)

  const FreshReply := Reply("incomplete", [], [], VNone, VNone, None, None, None)

  function WithError(d: Reply, message: string): Reply {
    d.(errors := d.errors + [message])
  }

  /** The status the entity handler writes once the workflow has been tried. */
  function StatusFor(errors: seq<string>): string {
    if errors == [] then "completed" else "finished_with_errors"
  }

  const UnboundCtx := "cannot access local variable 'ctx' where it is not associated with a value"
  const UnboundRequest := "cannot access local variable 'request' where it is not associated with a value"

  /** A handler's effect: the response as it leaves the handler, and the exception that escapes it, if any. */
  datatype Handled = Handled(reply: Reply, raised: Option<PyError>)

  // ----- handle_entity_workflow -----

  /**
   * `handle_entity_workflow`, given what the entity's `run_workflow`
   * returns when it is called.  A missing "entity" key raises at once; an
   * empty workflow or an entity that is not loaded adds one error.  A
   * KeyError from the run is recorded, the context, workflow and status are
   * still written, and reading the unbound `ctx` then raises; any other
   * exception escapes.  A completed run stores `ctx["workflow"]["result"]`.
   */
  function EntityWorkflowSpec(es: EntityTable, req: JsonRequest, d: Reply, run: Result<Ctx>): Handled {
    if req.entity.Absent? then Handled(d, Some(KeyError("entity")))
    else if !Filled(req.workflow) then Handled(WithError(d, "Invalid JSON, no workflow"), None)
    else if req.entity.Null? || req.entity.s !in es.entries then Handled(WithError(d, "Entity not found"), None)
    else AfterLegacyRun(req, d.(entity := Some(req.entity.s)), run)
  }

  /**
   * Lines 77-88, once the run has returned or raised: a KeyError is
   * recorded, the request's context, the workflow and the status are
   * written either way, and then `ctx["workflow"]["result"]` is read.
   */
  function AfterLegacyRun(req: JsonRequest, d: Reply, run: Result<Ctx>): Handled
    requires req.workflow.Text?
  {
    if run.Err? && !run.error.KeyError? then Handled(d, Some(run.error))
    else
      var d1 := if run.Err? then WithError(d, "No such workflow: " + ErrorText(run.error)) else d;
      var d2 := d1.(ctx := VDict(CtxOrEmpty(req)), workflow := Some(req.workflow.s), status := StatusFor(d1.errors));
      if run.Err? then Handled(d2, Some(UnboundLocalError(UnboundCtx)))
      else
        match Daemons.WorkflowResult(run.value)
        case Ok(v) => Handled(d2.(result := v), None)
        case Err(e) => Handled(d2, Some(e))
  }

  /** `get_entity(entity).run_workflow(workflow)` on the legacy manager, as a function of entity and workflow. */
  type LegacyRunner = (string, string) -> Result<Ctx>

  /** Every loaded entity's services resolve at its rank. */
  ghost predicate AllRankedLegacy(es: EntityTable, ranks: string -> string -> nat) {
    forall n :: n in es.entries ==> ServiceManagers.Ranked(es.entries[n].catalog, ranks(n), true)
  }

  /** The legacy run of workflow `w` on the loaded entity `n`. */
  ghost function LegacyRun(es: EntityTable, ranks: string -> string -> nat, n: string, w: string): Result<Ctx>
    requires n in es.entries && AllRankedLegacy(es, ranks)
  {
    Entities.WorkflowSpec(es.entries[n], w, true, ranks(n))
  }

  /** `runs` is the legacy `run_workflow` of the entities in `es`. */
  ghost predicate LegacyRunsOf(es: EntityTable, ranks: string -> string -> nat, runs: LegacyRunner) {
    AllRankedLegacy(es, ranks) &&
    forall n, w {:trigger LegacyRun(es, ranks, n, w)} :: n in es.entries ==> runs(n, w) == LegacyRun(es, ranks, n, w)
  }

  /** The run the handler works with; a request that never reaches the call gets a placeholder. */
  function RunFor(runs: LegacyRunner, req: JsonRequest): Result<Ctx> {
    if req.entity.Text? && req.workflow.Text? then runs(req.entity.s, req.workflow.s) else Ok(map[])
  }

  /** The call `self.entity_manager.get_entity(entity).run_workflow(workflow)`. */
  method CallLegacyRun(em: LegacyEntityManager, n: string, w: string,
                       ghost ranks: string -> string -> nat, ghost runs: LegacyRunner) returns (r: Result<Ctx>)
    requires n in em.entities.entries && LegacyRunsOf(em.entities, ranks, runs)
    ensures r == runs(n, w)
  {
    r := Entities.RunWorkflowLegacy(em.entities.entries[n], w, ranks(n));
    assert r == LegacyRun(em.entities, ranks, n, w);
  }

  // ----- handle_service_task -----

  /**
   * `handle_service_task`, given what the service manager's `run_task`
   * returns together with the context dictionary it leaves.  A missing
   * "service" key raises at once; an empty task or an unknown service adds
   * one error.  Otherwise the service and its task names are recorded
   * before the run; a run that returns stores its result and the context,
   * and any exception is recorded as one error.
   */
  function ServiceTaskSpec(c: ServiceManagers.Catalog, req: JsonRequest, d: Reply, run: (Result<Value>, Ctx)): Handled {
    if req.service.Absent? then Handled(d, Some(KeyError("service")))
    else if !Filled(req.task) then Handled(WithError(d, "Invalid JSON, no task"), None)
    else if req.service.Null? || req.service.s !in c.entries then Handled(WithError(d, "Service not found"), None)
    else
      var d1 := d.(availableServices := Some((req.service.s, Services.GetTaskNames(c.entries[req.service.s]))));
      match run.0
      case Ok(v) => Handled(d1.(result := v, ctx := VDict(run.1)), None)
      case Err(e) => Handled(WithError(d1, "Error running task: " + ErrorText(e)), None)
  }

  /**
   * The request as the server holds it after the service handler: when the
   * request carried a context, the tasks wrote into that very dictionary.
   */
  function AfterService(c: ServiceManagers.Catalog, req: JsonRequest, run: (Result<Value>, Ctx)): JsonRequest {
    if req.service.Text? && Filled(req.task) && req.service.s in c.entries && req.ctx.Some?
    then req.(ctx := Some(run.1))
    else req
  }

  /** `run_task(task, ctx)` of the legacy service manager: its result and the context it leaves. */
  type SharedRunner = (string, Ctx) -> (Result<Value>, Ctx)

  /** The legacy `run_task`: resolve the task list, then run it on the shared context. */
  ghost function SharedRun(c: ServiceManagers.Catalog, rank: string -> nat, name: string, ctx: Ctx): (Result<Value>, Ctx)
    requires ServiceManagers.Ranked(c, rank, true)
  {
    match ServiceManagers.Resolve(c, name, true, rank)
    case Err(e) => (Err(e), ctx)
    case Ok(ts) =>
      var out := ServiceManagers.SharedResults(ctx, ts);
      (ServiceManagers.SharedFinal(out), out.ctx)
  }

  /** `tasks` is the legacy `run_task` of the services in `c`. */
  ghost predicate SharedOf(c: ServiceManagers.Catalog, rank: string -> nat, tasks: SharedRunner) {
    ServiceManagers.Ranked(c, rank, true) &&
    forall n, x {:trigger SharedRun(c, rank, n, x)} :: tasks(n, x) == SharedRun(c, rank, n, x)
  }

  /** The run the handler works with; a request without a task never reaches the call. */
  function TaskFor(tasks: SharedRunner, req: JsonRequest): (Result<Value>, Ctx) {
    if req.task.Text? then tasks(req.task.s, CtxOrEmpty(req)) else (Ok(VNone), CtxOrEmpty(req))
  }

  /** The call `self.entity_manager.service_manager.run_task(task, ctx)`. */
  method CallSharedRun(c: ServiceManagers.Catalog, name: string, ctx: Ctx,
                       ghost rank: string -> nat, ghost tasks: SharedRunner) returns (r: Result<Value>, after: Ctx)
    requires SharedOf(c, rank, tasks)
    ensures (r, after) == tasks(name, ctx)
  {
    r, after := ServiceManagers.RunTaskShared(c, name, ctx, rank);
    assert (r, after) == SharedRun(c, rank, name, ctx);
  }

  // ----- routing and the frame loop -----

  /**
   * The routing of lines 51-56: an entity that is set and not None wins,
   * then a service; otherwise "Invalid JSON" is recorded.  The second
   * component is the request as it stands afterwards.
   */
  function RouteSpec(es: EntityTable, c: ServiceManagers.Catalog, runs: LegacyRunner, tasks: SharedRunner,
                     req: JsonRequest, d: Reply): (Handled, JsonRequest) {
    if req.entity.Text? then (EntityWorkflowSpec(es, req, d, RunFor(runs, req)), req)
    else if req.service.Text? then
      var run := TaskFor(tasks, req);
      (ServiceTaskSpec(c, req, d, run), AfterService(c, req, run))
    else (Handled(WithError(d, "Invalid JSON"), None), req)
  }

  /** What one frame does: the server crashes, or it sends a reply and keeps a request for the next frame. */
  datatype Step = Crash(error: PyError) | Answer(reply: Reply, next: JsonRequest)

  /**
   * One pass of the loop body: a frame that is not JSON records "Invalid
   * JSON" and falls back on the request of an earlier frame, which is a
   * crash when there is none.
   */
  function FrameSpec(es: EntityTable, c: ServiceManagers.Catalog, runs: LegacyRunner, tasks: SharedRunner,
                     m: Message, last: Option<JsonRequest>): Step {
    var d := if m.Invalid? then WithError(FreshReply, "Invalid JSON") else FreshReply;
    var req := if m.Json? then Some(m.request) else last;
    if req.None? then Crash(UnboundLocalError(UnboundRequest))
    else
      var (h, next) := RouteSpec(es, c, runs, tasks, req.value, d);
      if h.raised.Some? then Crash(h.raised.value) else Answer(h.reply, next)
  }

  /** The replies sent for a sequence of frames, and the exception that ends the loop, if one does. */
  datatype Session = Session(replies: seq<Reply>, raised: Option<PyError>)

  function RunSpec(es: EntityTable, c: ServiceManagers.Catalog, runs: LegacyRunner, tasks: SharedRunner,
                   ms: seq<Message>, last: Option<JsonRequest>): Session
    decreases |ms|
  {
    if ms == [] then Session([], None)
    else
      match FrameSpec(es, c, runs, tasks, ms[0], last)
      case Crash(e) => Session([], Some(e))
      case Answer(reply, next) =>
        var rest := RunSpec(es, c, runs, tasks, ms[1..], Some(next));
        Session([reply] + rest.replies, rest.raised)
  }

  /** The response dictionary of one frame. */
  class LegacyResponse {
    var status: string
    var errors: seq<string>
    var info: seq<Value>
    var result: Value
    var ctx: Value
    var entity: Option<string>
    var workflow: Option<string>
    var availableServices: Option<(string, seq<string>)>

    function State(): Reply
      reads this
    {
      Reply(status, errors, info, result, ctx, entity, workflow, availableServices)
    }

    /** The dictionary literal of lines 38-44. */
    constructor ()
      ensures State() == FreshReply
    {
      status := "incomplete";
      errors := [];
      info := [];
      result := VNone;
      ctx := VNone;
      entity := None;
      workflow := None;
      availableServices := None;
    }

    /** `response["errors"].append(message)` */
    method AddError(message: string)
      modifies this
      ensures State() == WithError(old(State()), message)
    {
      errors := errors + [message];
    }
  }

  /** `SimpleRequestServer` of dizzy/daemon/server.py; `sent` is every reply it has sent. */
  class LegacyRequestServer {
    const em: LegacyEntityManager
    var sent: seq<Reply>

    constructor (em: LegacyEntityManager)
      ensures this.em == em && sent == []
    {
      this.em := em;
      sent := [];
    }

    method HandleEntityWorkflow(request: JsonRequest, response: LegacyResponse,
                                ghost ranks: string -> string -> nat, ghost runs: LegacyRunner) returns (raised: Option<PyError>)
      requires LegacyRunsOf(em.entities, ranks, runs)
      modifies response
      ensures Handled(response.State(), raised) == EntityWorkflowSpec(em.entities, request, old(response.State()), RunFor(runs, request))
    {
      if request.entity.Absent? {
        return Some(KeyError("entity"));
      }
      if !Filled(request.workflow) {
        response.AddError("Invalid JSON, no workflow");
        return None;
      }
      if request.entity.Null? || request.entity.s !in em.entities.entries {
        response.AddError("Entity not found");
        return None;
      }
      response.entity := Some(request.entity.s);
      var run := CallLegacyRun(em, request.entity.s, request.workflow.s, ranks, runs);
      raised := FinishEntityWorkflow(request, response, run);
    }

    /** Lines 77-88. */
    static method FinishEntityWorkflow(request: JsonRequest, response: LegacyResponse, run: Result<Ctx>) returns (raised: Option<PyError>)
      requires request.workflow.Text?
      modifies response
      ensures Handled(response.State(), raised) == AfterLegacyRun(request, old(response.State()), run)
    {
      if run.Err? {
        if !run.error.KeyError? {
          return Some(run.error);
        }
        response.AddError("No such workflow: " + ErrorText(run.error));
      }
      response.ctx := VDict(CtxOrEmpty(request));
      response.workflow := Some(request.workflow.s);
      response.status := StatusFor(response.errors);
      if run.Err? {
        return Some(UnboundLocalError(UnboundCtx));
      }
      var result := Daemons.WorkflowResult(run.value);
      if result.Err? {
        return Some(result.error);
      }
      response.result := result.value;
      raised := None;
    }

    method HandleServiceTask(request: JsonRequest, response: LegacyResponse,
                             ghost rank: string -> nat, ghost tasks: SharedRunner) returns (raised: Option<PyError>, after: JsonRequest)
      requires SharedOf(em.main.services, rank, tasks)
      modifies response
      ensures Handled(response.State(), raised) == ServiceTaskSpec(em.main.services, request, old(response.State()), TaskFor(tasks, request))
      ensures after == AfterService(em.main.services, request, TaskFor(tasks, request))
    {
      after := request;
      if request.service.Absent? {
        return Some(KeyError("service")), after;
      }
      if !Filled(request.task) {
        response.AddError("Invalid JSON, no task");
        return None, after;
      }
      var c := em.main.services;
      if request.service.Null? || request.service.s !in c.entries {
        response.AddError("Service not found");
        return None, after;
      }
      response.availableServices := Some((request.service.s, Services.GetTaskNames(c.entries[request.service.s])));
      var ctx := CtxOrEmpty(request);
      var r, ctxAfter := CallSharedRun(c, request.task.s, ctx, rank, tasks);
      if request.ctx.Some? {
        after := request.(ctx := Some(ctxAfter));
      }
      if r.Ok? {
        response.result := r.value;
        response.ctx := VDict(ctxAfter);
      } else {
        response.AddError("Error running task: " + ErrorText(r.error));
      }
      raised := None;
    }

    /** Lines 51-56. */
    method Route(request: JsonRequest, response: LegacyResponse,
                 ghost ranks: string -> string -> nat, ghost runs: LegacyRunner,
                 ghost rank: string -> nat, ghost tasks: SharedRunner) returns (raised: Option<PyError>, after: JsonRequest)
      requires LegacyRunsOf(em.entities, ranks, runs) && SharedOf(em.main.services, rank, tasks)
      modifies response
      ensures (Handled(response.State(), raised), after) == RouteSpec(em.entities, em.main.services, runs, tasks, request, old(response.State()))
    {
      if request.entity.Text? {
        raised := HandleEntityWorkflow(request, response, ranks, runs);
        after := request;
      } else if request.service.Text? {
        raised, after := HandleServiceTask(request, response, rank, tasks);
      } else {
        response.AddError("Invalid JSON");
        raised, after := None, request;
      }
    }

    /** The body of the `while True` loop for one frame, `last` being what `request` holds from earlier frames. */
    method ServeFrame(m: Message, last: Option<JsonRequest>,
                      ghost ranks: string -> string -> nat, ghost runs: LegacyRunner,
                      ghost rank: string -> nat, ghost tasks: SharedRunner) returns (step: Step)
      requires LegacyRunsOf(em.entities, ranks, runs) && SharedOf(em.main.services, rank, tasks)
      ensures step == FrameSpec(em.entities, em.main.services, runs, tasks, m, last)
    {
      var response := new LegacyResponse();
      var request := last;
      match m {
        case Invalid => response.AddError("Invalid JSON");
        case Json(r) => request := Some(r);
      }
      if request.None? {
        return Crash(UnboundLocalError(UnboundRequest));
      }
      var raised, after := Route(request.value, response, ranks, runs, rank, tasks);
      if raised.Some? {
        return Crash(raised.value);
      }
      step := Answer(response.State(), after);
    }

    /**
     * The `while True` loop over the frames `ms`: each reply is sent in
     * turn, and the first exception that escapes ends the loop.
     */
    method Run(ms: seq<Message>, ghost ranks: string -> string -> nat, ghost runs: LegacyRunner,
               ghost rank: string -> nat, ghost tasks: SharedRunner) returns (raised: Option<PyError>)
      requires LegacyRunsOf(em.entities, ranks, runs) && SharedOf(em.main.services, rank, tasks)
      modifies this
      ensures sent == old(sent) + RunSpec(em.entities, em.main.services, runs, tasks, ms, None).replies
      ensures raised == RunSpec(em.entities, em.main.services, runs, tasks, ms, None).raised
    {
      ghost var whole := RunSpec(em.entities, em.main.services, runs, tasks, ms, None);
      ghost var done: seq<Reply> := [];
      var request: Option<JsonRequest> := None;
      var i := 0;
      while i < |ms|
        invariant i <= |ms|
        invariant sent == old(sent) + done
        invariant whole.replies == done + RunSpec(em.entities, em.main.services, runs, tasks, ms[i..], request).replies
        invariant whole.raised == RunSpec(em.entities, em.main.services, runs, tasks, ms[i..], request).raised
      {
        var step := ServeFrame(ms[i], request, ranks, runs, rank, tasks);
        assert ms[i..][0] == ms[i] && ms[i..][1..] == ms[i + 1..];
        if step.Crash? {
          return Some(step.error);
        }
        sent := sent + [step.reply];
        done := done + [step.reply];
        request := Some(step.next);
        i := i + 1;
      }
      raised := None;
    }
  }

  // ----- properties -----

  /** Entity first, then service; a request naming neither records "Invalid JSON" and nothing else. */
  lemma RoutingOrder(es: EntityTable, c: ServiceManagers.Catalog, runs: LegacyRunner, tasks: SharedRunner, req: JsonRequest, d: Reply)
    ensures req.entity.Text? ==> RouteSpec(es, c, runs, tasks, req, d).0 == EntityWorkflowSpec(es, req, d, RunFor(runs, req))
    ensures !req.entity.Text? && req.service.Text? ==> RouteSpec(es, c, runs, tasks, req, d).0 == ServiceTaskSpec(c, req, d, TaskFor(tasks, req))
    ensures !req.entity.Text? && !req.service.Text? ==>
      RouteSpec(es, c, runs, tasks, req, d) == (Handled(d.(errors := d.errors + ["Invalid JSON"]), None), req)
  {
  }

  /** A missing workflow or an unknown entity adds exactly one error and returns normally. */
  lemma EntityEarlyExits(es: EntityTable, req: JsonRequest, d: Reply, run: Result<Ctx>)
    requires req.entity.Text?
    ensures !Filled(req.workflow) ==> EntityWorkflowSpec(es, req, d, run) == Handled(d.(errors := d.errors + ["Invalid JSON, no workflow"]), None)
    ensures Filled(req.workflow) && req.entity.s !in es.entries ==>
      EntityWorkflowSpec(es, req, d, run) == Handled(d.(errors := d.errors + ["Entity not found"]), None)
  {
  }

  /**
   * A workflow the entity does not define is recorded as "No such
   * workflow: 'name'", the status becomes "finished_with_errors", and the
   * read of the unbound `ctx` then raises.
   */
  lemma EntityKeyErrorCrashes(es: EntityTable, req: JsonRequest, d: Reply, k: string)
    requires req.entity.Text? && req.entity.s in es.entries && Filled(req.workflow)
    ensures EntityWorkflowSpec(es, req, d, Err(KeyError(k))).raised == Some(UnboundLocalError(UnboundCtx))
    ensures EntityWorkflowSpec(es, req, d, Err(KeyError(k))).reply.errors == d.errors + ["No such workflow: '" + k + "'"]
    ensures EntityWorkflowSpec(es, req, d, Err(KeyError(k))).reply.status == "finished_with_errors"
  {
    assert "No such workflow: " + ErrorText(KeyError(k)) == "No such workflow: '" + k + "'";
  }

  /**
   * A run that returns echoes the entity, the workflow and the request's
   * context; the status is "completed" exactly when nothing was recorded
   * before; the response's result is the context's workflow result, and
   * the handler raises exactly when that cannot be read.
   */
  lemma EntityCompleted(es: EntityTable, req: JsonRequest, d: Reply, ctx: Ctx)
    requires req.entity.Text? && req.entity.s in es.entries && Filled(req.workflow)
    ensures var h := EntityWorkflowSpec(es, req, d, Ok(ctx));
      h.reply.entity == Some(req.entity.s) && h.reply.workflow == Some(req.workflow.s) &&
      h.reply.ctx == VDict(CtxOrEmpty(req)) && h.reply.errors == d.errors &&
      (h.reply.status == "completed" <==> d.errors == []) &&
      (h.raised.None? <==> Daemons.WorkflowResult(ctx).Ok?) &&
      (h.raised.None? ==> h.reply.result == Daemons.WorkflowResult(ctx).value)
  {
  }

  /** A stage that completes has just stored its result, so the workflow result can be read. */
  lemma StoreKeepsResult(ctx: Ctx, stage: string, v: Value)
    requires Entities.Store(ctx, stage, v).Ok?
    ensures Daemons.WorkflowResult(Entities.Store(ctx, stage, v).value).Ok?
  {
    var result := Entities.Part(ctx, "result").value;
    assert Entities.Store(ctx, stage, v).value == Entities.WithPart(ctx, "result", result[stage := v]);
  }

  lemma {:induction false} StepKeepsResult(c: ServiceManagers.Catalog, rank: string -> nat, stages: seq<string>, i: nat, ctx: Ctx)
    requires ServiceManagers.Ranked(c, rank, true) && i < |stages|
    requires Entities.StepStage(c, true, rank, stages, i, ctx).Ok?
    ensures Daemons.WorkflowResult(Entities.StepStage(c, true, rank, stages, i, ctx).value.0).Ok?
  {
    var ctx1 := Entities.Feed(ctx, stages, i).value;
    var (r, ctx2) := Entities.RunStage(c, true, rank, stages[i], ctx1);
    StoreKeepsResult(ctx2, stages[i], r.value);
  }

  /**
   * A legacy workflow that completes leaves a readable result, however its
   * tasks reshaped the shared context: the read at line 88 fails only
   * after a KeyError.
   */
  lemma LegacyRunHasResult(e: Entities.Entity, w: string, rank: string -> nat)
    requires ServiceManagers.Ranked(e.catalog, rank, true)
    requires Entities.WorkflowSpec(e, w, true, rank).Ok?
    ensures Daemons.WorkflowResult(Entities.WorkflowSpec(e, w, true, rank).value).Ok?
  {
    var stages := Entities.Stages(e.workflows.entries[w]);
    if |stages| == 0 {
      Daemons.ResultOfWorkflowCtx(map[], map[]);
    } else {
      AfterStagesKeepResult(e.catalog, rank, stages, |stages| - 1);
    }
  }

  lemma AfterStagesKeepResult(c: ServiceManagers.Catalog, rank: string -> nat, stages: seq<string>, i: nat)
    requires ServiceManagers.Ranked(c, rank, true) && i < |stages|
    ensures Entities.AfterStages(c, true, rank, stages, i + 1).Ok? ==>
      Daemons.WorkflowResult(Entities.AfterStages(c, true, rank, stages, i + 1).value.0).Ok?
  {
    var prev := Entities.AfterStages(c, true, rank, stages, i);
    if prev.Ok? {
      NextKeepsResult(c, rank, stages, i, prev.value.0, prev.value.1);
    } else {
      Entities.ErrSticks(c, true, rank, stages, i, i + 1, prev.error);
    }
  }

  lemma NextKeepsResult(c: ServiceManagers.Catalog, rank: string -> nat, stages: seq<string>, i: nat, ctx: Ctx, outs: seq<Value>)
    requires ServiceManagers.Ranked(c, rank, true) && i < |stages|
    requires Entities.AfterStages(c, true, rank, stages, i) == Ok((ctx, outs))
    ensures Entities.AfterStages(c, true, rank, stages, i + 1).Ok? ==>
      Daemons.WorkflowResult(Entities.AfterStages(c, true, rank, stages, i + 1).value.0).Ok?
  {
    Entities.NextStage(c, true, rank, stages, i, ctx, outs);
    if Entities.StepStage(c, true, rank, stages, i, ctx).Ok? {
      StepKeepsResult(c, rank, stages, i, ctx);
    }
  }

  /** So a loaded entity whose workflow completes is answered without an exception. */
  lemma LegacyWorkflowAnswered(es: EntityTable, ranks: string -> string -> nat, runs: LegacyRunner, req: JsonRequest, d: Reply)
    requires LegacyRunsOf(es, ranks, runs)
    requires req.entity.Text? && req.entity.s in es.entries && Filled(req.workflow)
    requires RunFor(runs, req).Ok?
    ensures EntityWorkflowSpec(es, req, d, RunFor(runs, req)).raised.None?
  {
    var n, w := req.entity.s, req.workflow.s;
    assert RunFor(runs, req) == LegacyRun(es, ranks, n, w);
    LegacyRunHasResult(es.entries[n], w, ranks(n));
    EntityCompleted(es, req, d, RunFor(runs, req).value);
  }

  /** A missing task or an unknown service adds exactly one error; nothing is run. */
  lemma ServiceEarlyExits(c: ServiceManagers.Catalog, req: JsonRequest, d: Reply, run: (Result<Value>, Ctx))
    requires req.service.Text?
    ensures !Filled(req.task) ==> ServiceTaskSpec(c, req, d, run) == Handled(d.(errors := d.errors + ["Invalid JSON, no task"]), None)
    ensures Filled(req.task) && req.service.s !in c.entries ==>
      ServiceTaskSpec(c, req, d, run) == Handled(d.(errors := d.errors + ["Service not found"]), None)
    ensures AfterService(c, req, run) != req ==> Filled(req.task) && req.service.s in c.entries
  {
  }

  /**
   * A known service with a task never raises: the service's task names are
   * recorded, then either the result and the context left by the tasks are
   * stored, or one "Error running task" is recorded and the result stays.
   */
  lemma ServiceRan(c: ServiceManagers.Catalog, req: JsonRequest, d: Reply, run: (Result<Value>, Ctx))
    requires req.service.Text? && Filled(req.task) && req.service.s in c.entries
    ensures var h := ServiceTaskSpec(c, req, d, run);
      h.raised.None? &&
      h.reply.availableServices == Some((req.service.s, Services.GetTaskNames(c.entries[req.service.s]))) &&
      (run.0.Ok? ==> h.reply.result == run.0.value && h.reply.ctx == VDict(run.1) && h.reply.errors == d.errors) &&
      (run.0.Err? ==> h.reply.result == d.result && h.reply.ctx == d.ctx &&
                      h.reply.errors == d.errors + ["Error running task: " + ErrorText(run.0.error)])
  {
  }

  /**
   * The tasks' writes reach the request itself only when it carried a
   * context -- including the writes made before a task raised.
   */
  lemma ServiceCtxWrittenBack(c: ServiceManagers.Catalog, req: JsonRequest, run: (Result<Value>, Ctx))
    requires req.service.Text? && Filled(req.task) && req.service.s in c.entries
    ensures req.ctx.Some? ==> AfterService(c, req, run) == req.(ctx := Some(run.1))
    ensures req.ctx.None? ==> AfterService(c, req, run) == req
  {
  }

  /** A first frame that is not JSON crashes the server before any reply. */
  lemma FirstFrameInvalid(es: EntityTable, c: ServiceManagers.Catalog, runs: LegacyRunner, tasks: SharedRunner, ms: seq<Message>)
    requires ms != [] && ms[0].Invalid?
    ensures RunSpec(es, c, runs, tasks, ms, None) == Session([], Some(UnboundLocalError(UnboundRequest)))
  {
  }

  /**
   * A later frame that is not JSON is answered as the previous request
   * again, with "Invalid JSON" already recorded -- so a workflow request
   * replayed that way finishes "finished_with_errors".
   */
  lemma StaleRequestReused(es: EntityTable, c: ServiceManagers.Catalog, runs: LegacyRunner, tasks: SharedRunner, last: JsonRequest)
    ensures var (h, next) := RouteSpec(es, c, runs, tasks, last, FreshReply.(errors := ["Invalid JSON"]));
      FrameSpec(es, c, runs, tasks, Invalid, Some(last)) == (if h.raised.Some? then Crash(h.raised.value) else Answer(h.reply, next))
    ensures last.entity.Text? && last.entity.s in es.entries && Filled(last.workflow) && RunFor(runs, last).Ok? &&
            FrameSpec(es, c, runs, tasks, Invalid, Some(last)).Answer? ==>
      FrameSpec(es, c, runs, tasks, Invalid, Some(last)).reply.status == "finished_with_errors"
  {
  }

  /** At most one reply per frame; exactly one per frame when nothing escapes. */
  lemma {:induction false} SessionLength(es: EntityTable, c: ServiceManagers.Catalog, runs: LegacyRunner, tasks: SharedRunner,
                                         ms: seq<Message>, last: Option<JsonRequest>)
    ensures |RunSpec(es, c, runs, tasks, ms, last).replies| <= |ms|
    ensures RunSpec(es, c, runs, tasks, ms, last).raised.None? <==> |RunSpec(es, c, runs, tasks, ms, last).replies| == |ms|
    decreases |ms|
  {
    if ms != [] {
      match FrameSpec(es, c, runs, tasks, ms[0], last)
      case Crash(_) =>
      case Answer(_, next) => SessionLength(es, c, runs, tasks, ms[1..], Some(next));
    }
  }
}
