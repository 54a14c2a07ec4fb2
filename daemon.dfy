/**
 * Request routing of the local JSON processor (dizzy/daemon/less) and of
 * the ROUTER server (dizzy/daemon/server), without the transport.  Both
 * use the default protocol and the same `handle_entity_workflow`; the
 * server also keeps a transaction log per client identity.
 */
module Daemons {
  import opened Wrappers
  import opened Values
  import ServiceManagers
  import opened Services
  import opened Entities
  import opened EntityManagers
  import opened Protocols

  /** A response state a handler reached, and the exception escaping it, if any. */
  datatype Outcome = Outcome(state: ResponseData, raised: Option<PyError>)

  /** A `set_result` call as the last step of a handler. */
  function Settle(d: ResponseData, r: Result<ResponseData>): (o: Outcome)
    ensures r.Ok? ==> o == Outcome(r.value, None)
    ensures r.Err? ==> o == Outcome(d, Some(r.error))
  {
    match r
    case Ok(d1) => Outcome(d1, None)
    case Err(e) => Outcome(d, Some(e))
  }

  /** The default response refuses anything but a request (abbreviated validation message). */
  const NoRequest := "request: Input should be a valid dictionary or instance of DefaultRequest"
  const NotSubscriptable := "object is not subscriptable"
  const NoneNotIterable := "argument of type 'NoneType' is not iterable"

  /** `ctx["workflow"]["result"]`, failing as Python would. */
  function WorkflowResult(ctx: Ctx): (r: Result<Value>)
    ensures "workflow" !in ctx ==> r == Err(KeyError("workflow"))
    ensures r.Ok? ==> ctx["workflow"].VDict? && "result" in ctx["workflow"].entries && r.value == ctx["workflow"].entries["result"]
  {
    if "workflow" !in ctx then Err(KeyError("workflow"))
    else
      match ctx["workflow"]
      case VDict(w) => if "result" in w then Ok(w["result"]) else Err(KeyError("result"))
      case _ => Err(TypeError(NotSubscriptable))
  }

  /** `ctx["workflow"]["result"] if "workflow" in ctx else None` */
  function GuardedResult(ctx: Ctx): (r: Result<Value>)
    ensures "workflow" !in ctx ==> r == Ok(VNone)
    ensures "workflow" in ctx ==> r == WorkflowResult(ctx)
  {
    if "workflow" in ctx then WorkflowResult(ctx) else Ok(VNone)
  }

  /** On a context of the workflow shape both readers find the result dictionary. */
  lemma ResultOfWorkflowCtx(input: Ctx, result: Ctx)
    ensures WorkflowResult(WorkflowCtx(input, result)) == Ok(VDict(result))
    ensures GuardedResult(WorkflowCtx(input, result)) == Ok(VDict(result))
  {
  }

  /** The result dictionary a workflow run by the current manager leaves behind. */
  ghost function FinalResult(e: Entity, workflow: string, rank: string -> nat): Ctx
    requires ServiceManagers.Ranked(e.catalog, rank, false)
  {
    if workflow !in e.workflows.entries then map[]
    else
      var stages := Stages(e.workflows.entries[workflow]);
      var run := AfterStages(e.catalog, false, rank, stages, |stages|);
      if run.Ok? && |run.value.1| == |stages| then ResultOf(stages, run.value.1, |stages|) else map[]
  }

  /** A workflow the current manager completes leaves its result dictionary where the handlers read it. */
  lemma CompletedWorkflowResult(e: Entity, workflow: string, rank: string -> nat)
    requires ServiceManagers.Ranked(e.catalog, rank, false)
    requires WorkflowSpec(e, workflow, false, rank).Ok?
    ensures GuardedResult(WorkflowSpec(e, workflow, false, rank).value) == Ok(VDict(FinalResult(e, workflow, rank)))
  {
    var stages := Stages(e.workflows.entries[workflow]);
    WorkflowShape(e.catalog, rank, stages, |stages|);
    var (ctx, outs) := AfterStages(e.catalog, false, rank, stages, |stages|).value;
    ResultOfWorkflowCtx(InputOf(stages, outs, |stages|), ResultOf(stages, outs, |stages|));
  }

  // ----- handle_entity_workflow -----

  /** `run_workflow(workflow, step_options, entity)` of the entity manager, as a function of workflow and entity name. */
  type WorkflowRunner = (string, Option<string>) -> Result<Option<Ctx>>

  /** `runs` is `run_workflow` as written, of a manager holding `es`: a TypeError once an entity is chosen. */
  ghost predicate RunsAsWritten(es: EntityTable, runs: WorkflowRunner) {
    Named(es) &&
    forall w, e {:trigger Target(es, w, e)} :: runs(w, e) == if Target(es, w, e).Some? then Err(TypeError(ArityError)) else Ok(None)
  }

  /** `runs` is the corrected `run_workflow` of a manager holding `es`. */
  ghost predicate RunsCorrected(es: EntityTable, ranks: string -> string -> nat, runs: WorkflowRunner) {
    Named(es) && AllRanked(es, ranks) &&
    forall w, e {:trigger RunWorkflowSpec(es, w, e, ranks)} :: runs(w, e) == RunWorkflowSpec(es, w, e, ranks)
  }

  /** `runs` is `run_workflow` of a manager holding `es`: as written, or as corrected. */
  ghost predicate RunsOf(es: EntityTable, ranks: string -> string -> nat, asWritten: bool, runs: WorkflowRunner) {
    if asWritten then RunsAsWritten(es, runs) else RunsCorrected(es, ranks, runs)
  }

  /** The manager's answer the handler works with; a request without a workflow never reaches the call. */
  function RunFor(runs: WorkflowRunner, req: Request): Result<Option<Ctx>> {
    if req.workflow.Some? then runs(req.workflow.value, req.entity) else Ok(None)
  }

  /** The call `run_workflow(workflow, step_options, entity)` into the entity manager, as written or as corrected. */
  method CallRunWorkflow(em: EntityManager, workflow: string, stepOptions: Ctx, entity: Option<string>, asWritten: bool,
                         ghost ranks: string -> string -> nat, ghost runs: WorkflowRunner) returns (r: Result<Option<Ctx>>)
    requires em.Valid() && RunsOf(em.entities, ranks, asWritten, runs)
    ensures r == runs(workflow, entity)
  {
    if asWritten {
      r := em.RunWorkflowAsWritten(workflow, Some(stepOptions), entity);
    } else {
      r := em.RunWorkflow(workflow, entity, ranks);
    }
  }

  /** As written, the manager's call on a loaded entity raises the TypeError, whatever the workflow. */
  lemma RunsAsWrittenFail(es: EntityTable, runs: WorkflowRunner, req: Request)
    requires RunsAsWritten(es, runs)
    requires Given(req.workflow) && req.entity.Some? && req.entity.value in es.entries
    ensures RunFor(runs, req) == Err(TypeError(ArityError))
  {
    assert Target(es, req.workflow.value, req.entity) == req.entity;
  }

  /** With the corrected manager and a loaded entity named, the workflow runs on that entity. */
  lemma RunsDelegate(es: EntityTable, ranks: string -> string -> nat, runs: WorkflowRunner, req: Request)
    requires RunsCorrected(es, ranks, runs)
    requires Given(req.workflow) && req.entity.Some? && req.entity.value in es.entries
    ensures RunFor(runs, req) == Lift(WorkflowSpec(es.entries[req.entity.value], req.workflow.value, false, ranks(req.entity.value)))
  {
    assert runs(req.workflow.value, req.entity) == RunWorkflowSpec(es, req.workflow.value, req.entity, ranks);
  }

  /**
   * `handle_entity_workflow`, given what `run_workflow` returns: an empty
   * workflow or an entity that is not loaded adds one error and runs
   * nothing; a KeyError from the run is recorded with the quoted key and
   * the result becomes None; any other exception escapes.  Otherwise the
   * request's context is echoed and the workflow's result is stored with
   * `set_result`.
   */
  function Handled(es: EntityTable, req: Request, d: ResponseData, run: Result<Option<Ctx>>): Outcome {
    if !Given(req.workflow) then Outcome(WithError(d, "BadWorkflow", "Invalid JSON, no workflow"), None)
    else if req.entity.None? || req.entity.value !in es.entries then Outcome(WithError(d, "EntityNotFound", "Entity not found"), None)
    else AfterRun(req, d, run)
  }

  /**
   * The rest of `handle_entity_workflow` once `run_workflow` has returned or
   * raised: a KeyError is recorded and stands for an empty context, any
   * other exception escapes, and the request's context and the workflow's
   * result are written. A run that returns None has the request's context
   * written before the `"workflow" in ctx` test raises on it.
   */
  function AfterRun(req: Request, d: ResponseData, run: Result<Option<Ctx>>): Outcome {
    match run
    case Err(KeyError(k)) =>
      var d1 := WithError(d, "KeyError", ErrorText(KeyError(k))).(ctx := req.ctx);
      Settle(d1, SetResultOn(d1, VNone))
    case Err(e) => Outcome(d, Some(e))
    case Ok(None) => Outcome(d.(ctx := req.ctx), Some(TypeError(NoneNotIterable)))
    case Ok(Some(ctx)) =>
      var d1 := d.(ctx := req.ctx);
      match GuardedResult(ctx)
      case Err(e) => Outcome(d1, Some(e))
      case Ok(v) => Settle(d1, SetResultOn(d1, v))
  }

  method HandleEntityWorkflow(em: EntityManager, request: Request, response: Response, asWritten: bool,
                              ghost ranks: string -> string -> nat, ghost runs: WorkflowRunner)
    returns (raised: Option<PyError>)
    requires em.Valid() && RunsOf(em.entities, ranks, asWritten, runs)
    modifies response
    ensures Outcome(response.State(), raised) == Handled(em.entities, request, old(response.State()), RunFor(runs, request))
  {
    if !Given(request.workflow) {
      response.AddError("BadWorkflow", "Invalid JSON, no workflow");
      return None;
    }
    if request.entity.None? || request.entity.value !in em.entities.entries {
      response.AddError("EntityNotFound", "Entity not found");
      return None;
    }
    var run := CallRunWorkflow(em, request.workflow.value, request.stepOptions, request.entity, asWritten, ranks, runs);
    raised := WriteResult(request, response, run);
  }

  /** The part of `handle_entity_workflow` after the call into the manager. */
  method WriteResult(request: Request, response: Response, run: Result<Option<Ctx>>) returns (raised: Option<PyError>)
    modifies response
    ensures Outcome(response.State(), raised) == AfterRun(request, old(response.State()), run)
  {
    var ctx: Ctx;
    match run {
      case Err(KeyError(k)) =>
        response.AddError("KeyError", ErrorText(KeyError(k)));
        ctx := map[];
        assert GuardedResult(ctx) == Ok(VNone);
      case Err(e) =>
        return Some(e);
      case Ok(None) =>
        response.ctx := request.ctx;
        return Some(TypeError(NoneNotIterable));
      case Ok(Some(c)) =>
        ctx := c;
    }
    response.ctx := request.ctx;
    var v := GuardedResult(ctx);
    if v.Err? {
      return Some(v.error);
    }
    var outcome := response.SetResult(v.value);
    raised := if outcome.Err? then Some(outcome.error) else None;
  }

  /** Only the entity route is dispatched; anything else is a bad request. */
  function Routed(es: EntityTable, req: Request, d: ResponseData, run: Result<Option<Ctx>>): Outcome {
    if req.entity.Some? then Handled(es, req, d, run)
    else Outcome(WithError(d, "BadRequest", "Invalid JSON, no entity or service"), None)
  }

  method RouteRequest(em: EntityManager, request: Request, response: Response, asWritten: bool,
                      ghost ranks: string -> string -> nat, ghost runs: WorkflowRunner)
    returns (raised: Option<PyError>)
    requires em.Valid() && RunsOf(em.entities, ranks, asWritten, runs)
    modifies response
    ensures Outcome(response.State(), raised) == Routed(em.entities, request, old(response.State()), RunFor(runs, request))
  {
    if request.entity.Some? {
      raised := HandleEntityWorkflow(em, request, response, asWritten, ranks, runs);
    } else {
      response.AddError("BadRequest", "Invalid JSON, no entity or service");
      raised := None;
    }
  }

  /** The final status: "completed" iff no error was recorded, else "finished_with_errors". */
  function Finish(d: ResponseData): (r: ResponseData)
    ensures r.(status := d.status) == d
    ensures r.status == Completed <==> d.errors == map[]
    ensures r.status != Completed ==> r.status == FinishedWithErrors
  {
    d.(status := if d.errors == map[] then Completed else FinishedWithErrors)
  }

  /** `from_request(request)` of the default protocol: status "pending", nothing else set. */
  function Started(req: Request): ResponseData {
    ResponseData(None, Some(req), None, Pending, map[], map[], VNone, map[])
  }

  /** The response a request ends with -- built, routed and given its final status -- and the exception escaping, if any. */
  function Answered(es: EntityTable, req: Request, run: Result<Option<Ctx>>): Outcome {
    var o := Routed(es, req, Started(req), run);
    if o.raised.None? then Outcome(Finish(o.state), None) else o
  }

  /** Builds, routes and finishes the response to a request. */
  method Respond(em: EntityManager, request: Request, asWritten: bool, ghost ranks: string -> string -> nat, ghost runs: WorkflowRunner)
    returns (o: Outcome)
    requires em.Valid() && RunsOf(em.entities, ranks, asWritten, runs)
    ensures o == Answered(em.entities, request, RunFor(runs, request))
  {
    var response := new Response.FromRequest(request, Pending);
    var raised := RouteRequest(em, request, response, asWritten, ranks, runs);
    if raised.None? {
      response.SetStatus(if response.errors == map[] then Completed else FinishedWithErrors);
    }
    o := Outcome(response.State(), raised);
  }

  /** Every answered request ends "completed" exactly when it collected no error, and "finished_with_errors" otherwise. */
  lemma AnsweredStatus(es: EntityTable, req: Request, run: Result<Option<Ctx>>)
    ensures var o := Answered(es, req, run);
      o.raised.None? ==> (o.state.status == Completed <==> o.state.errors == map[]) &&
                         (o.state.status == Completed || o.state.status == FinishedWithErrors)
    ensures Answered(es, req, run).state.request == Some(req)
  {
  }

  /** The reply to a request that stopped at one error, with nothing run. */
  function Refused(req: Request, error: string, message: string): ResponseData {
    ResponseData(None, Some(req), None, FinishedWithErrors, map[error := [message]], map[], VNone, map[])
  }

  /** The three early exits, whatever the manager would return: no entity, then no workflow, then an entity that is not loaded. */
  lemma AnsweredEarlyExits(es: EntityTable, req: Request, run: Result<Option<Ctx>>)
    ensures req.entity.None? ==>
      Answered(es, req, run) == Outcome(Refused(req, "BadRequest", "Invalid JSON, no entity or service"), None)
    ensures req.entity.Some? && !Given(req.workflow) ==>
      Answered(es, req, run) == Outcome(Refused(req, "BadWorkflow", "Invalid JSON, no workflow"), None)
    ensures req.entity.Some? && Given(req.workflow) && req.entity.value !in es.entries ==>
      Answered(es, req, run) == Outcome(Refused(req, "EntityNotFound", "Entity not found"), None)
  {
  }

  /**
   * Past the early exits: a KeyError is answered with a "KeyError" entry
   * holding the quoted key, result None and the request's context; a
   * context holding a result dictionary is answered "completed" with that
   * dictionary as the result and the request's context; any other
   * exception escapes.
   */
  lemma AnsweredRun(es: EntityTable, req: Request, run: Result<Option<Ctx>>)
    requires req.entity.Some? && req.entity.value in es.entries && Given(req.workflow)
    ensures run.Err? && run.error.KeyError? ==>
      Answered(es, req, run) == Outcome(ResponseData(None, Some(req), None, FinishedWithErrors,
                                                     map["KeyError" := [ErrorText(run.error)]], map[], VNone, req.ctx), None)
    ensures run.Err? && !run.error.KeyError? ==> Answered(es, req, run).raised == Some(run.error)
    ensures forall input, result :: run == Ok(Some(WorkflowCtx(input, result))) ==>
      Answered(es, req, run) == Outcome(ResponseData(None, Some(req), None, Completed, map[], map[], VDict(result), req.ctx), None)
  {
    forall input, result | run == Ok(Some(WorkflowCtx(input, result)))
      ensures Answered(es, req, run) == Outcome(ResponseData(None, Some(req), None, Completed, map[], map[], VDict(result), req.ctx), None)
    {
      ResultOfWorkflowCtx(input, result);
    }
  }

  // ----- the local processor -----

  /** What validation made of a payload: a request, undecodable bytes, or a rejection with its reason. */
  datatype Decoded = Parsed(request: Request) | NotText | Rejected(reason: string)

  /**
   * `handle_request` of the local processor: the dumped response, or the
   * exception that escapes.  A payload that fails validation is never
   * answered, because the error branch's `from_request(None)` is itself
   * refused by the response model.
   */
  function LocalRequestSpec(es: EntityTable, runs: WorkflowRunner, decoded: Decoded): Result<ResponseData> {
    match decoded
    case Parsed(req) =>
      var o := Answered(es, req, RunFor(runs, req));
      if o.raised.Some? then Err(o.raised.value) else Ok(o.state)
    case _ => Err(ValidationError(NoRequest))
  }

  method HandleLocalRequest(em: EntityManager, decoded: Decoded, asWritten: bool,
                            ghost ranks: string -> string -> nat, ghost runs: WorkflowRunner)
    returns (out: Result<ResponseData>)
    requires em.Valid() && RunsOf(em.entities, ranks, asWritten, runs)
    ensures out == LocalRequestSpec(em.entities, runs, decoded)
  {
    if !decoded.Parsed? {
      return Err(ValidationError(NoRequest));
    }
    var o := Respond(em, decoded.request, asWritten, ranks, runs);
    out := if o.raised.Some? then Err(o.raised.value) else Ok(o.state);
  }

  /** A payload that fails validation gets no answer. */
  lemma LocalInvalid(es: EntityTable, runs: WorkflowRunner, decoded: Decoded)
    requires !decoded.Parsed?
    ensures LocalRequestSpec(es, runs, decoded) == Err(ValidationError(NoRequest))
  {
  }

  /**
   * As written, a request that reaches the manager is never answered: the
   * TypeError escapes the handler, which only catches KeyError.
   */
  lemma LocalAsWrittenRaises(es: EntityTable, runs: WorkflowRunner, req: Request)
    requires RunsAsWritten(es, runs)
    requires req.entity.Some? && req.entity.value in es.entries && Given(req.workflow)
    ensures LocalRequestSpec(es, runs, Parsed(req)) == Err(TypeError(ArityError))
  {
    RunsAsWrittenFail(es, runs, req);
    AnsweredRun(es, req, RunFor(runs, req));
  }

  /**
   * As written, no request is ever answered "completed": every answer is
   * one of the three early exits, with status "finished_with_errors".
   */
  lemma LocalAsWrittenNeverCompletes(es: EntityTable, runs: WorkflowRunner, decoded: Decoded)
    requires RunsAsWritten(es, runs)
    ensures var out := LocalRequestSpec(es, runs, decoded);
      out.Ok? ==> out.value.status == FinishedWithErrors && |out.value.errors| == 1
  {
    if decoded.Parsed? {
      var req := decoded.request;
      AnsweredEarlyExits(es, req, RunFor(runs, req));
      if req.entity.Some? && Given(req.workflow) && req.entity.value in es.entries {
        LocalAsWrittenRaises(es, runs, req);
      }
    }
  }

  /**
   * With the corrected manager, a workflow the named entity completes: no
   * error, status "completed", the workflow's result dictionary as the
   * result, the request's context echoed.
   */
  lemma LocalCompleted(es: EntityTable, ranks: string -> string -> nat, runs: WorkflowRunner, req: Request)
    requires RunsCorrected(es, ranks, runs)
    requires req.entity.Some? && req.entity.value in es.entries && Given(req.workflow)
    requires WorkflowSpec(es.entries[req.entity.value], req.workflow.value, false, ranks(req.entity.value)).Ok?
    ensures LocalRequestSpec(es, runs, Parsed(req)) ==
      Ok(ResponseData(None, Some(req), None, Completed, map[], map[],
                      VDict(FinalResult(es.entries[req.entity.value], req.workflow.value, ranks(req.entity.value))), req.ctx))
  {
    var e := es.entries[req.entity.value];
    var rank := ranks(req.entity.value);
    RunsDelegate(es, ranks, runs, req);
    CompletedWorkflowResult(e, req.workflow.value, rank);
    AnsweredCompleted(es, req, WorkflowSpec(e, req.workflow.value, false, rank).value, FinalResult(e, req.workflow.value, rank));
  }

  /** A run whose context carries a result dictionary is answered "completed" with that dictionary. */
  lemma AnsweredCompleted(es: EntityTable, req: Request, ctx: Ctx, result: Ctx)
    requires req.entity.Some? && req.entity.value in es.entries && Given(req.workflow)
    requires GuardedResult(ctx) == Ok(VDict(result))
    ensures Answered(es, req, Ok(Some(ctx))) ==
      Outcome(ResponseData(None, Some(req), None, Completed, map[], map[], VDict(result), req.ctx), None)
  {
  }

  /**
   * With the corrected manager, a run that fails with a KeyError -- an
   * unknown workflow, or a stage task that raised one -- is answered with a
   * "KeyError" entry holding the quoted key, result None and the request's
   * context; any other failure escapes.
   */
  lemma LocalFailed(es: EntityTable, ranks: string -> string -> nat, runs: WorkflowRunner, req: Request)
    requires RunsCorrected(es, ranks, runs)
    requires req.entity.Some? && req.entity.value in es.entries && Given(req.workflow)
    requires WorkflowSpec(es.entries[req.entity.value], req.workflow.value, false, ranks(req.entity.value)).Err?
    ensures var e := WorkflowSpec(es.entries[req.entity.value], req.workflow.value, false, ranks(req.entity.value)).error;
      LocalRequestSpec(es, runs, Parsed(req)) ==
        if e.KeyError? then Ok(ResponseData(None, Some(req), None, FinishedWithErrors, map["KeyError" := [ErrorText(e)]], map[], VNone, req.ctx))
        else Err(e)
  {
    RunsDelegate(es, ranks, runs, req);
    AnsweredRun(es, req, RunFor(runs, req));
  }

  /** In particular, with the corrected manager, a workflow the entity does not define is reported under "KeyError" with its quoted name. */
  lemma LocalUnknownWorkflow(es: EntityTable, ranks: string -> string -> nat, runs: WorkflowRunner, req: Request)
    requires RunsCorrected(es, ranks, runs)
    requires req.entity.Some? && req.entity.value in es.entries && Given(req.workflow)
    requires req.workflow.value !in es.entries[req.entity.value].workflows.entries
    ensures LocalRequestSpec(es, runs, Parsed(req)) ==
      Ok(ResponseData(None, Some(req), None, FinishedWithErrors, map["KeyError" := ["'" + req.workflow.value + "'"]], map[], VNone, req.ctx))
  {
    LocalFailed(es, ranks, runs, req);
  }

  // ----- the ROUTER server -----

  /** A client record: its uuid and its logs of (request, response) pairs and of request ids. */
  datatype Client = Client(uuid: string, transactions: seq<(Option<Request>, ResponseData)>, transactionIds: seq<Option<string>>)

  /** The server's observable state: the client records and the replies sent, each to an identity. */
  datatype ServerState = ServerState(clients: map<string, Client>, replies: seq<(string, ResponseData)>)

  datatype Served = Served(state: ServerState, raised: Option<PyError>)

  /** The record a frame from `identity` is logged under: the known one, or a new one with the fresh uuid. */
  function RecordFor(clients: map<string, Client>, identity: string, clientId: string): Client {
    if identity in clients then clients[identity] else Client(clientId, [], [])
  }

  /** The validated request with the server's fresh id and the client's uuid as requester. */
  function Stamped(req: Request, requestId: string, uuid: string): Request {
    req.(id := Some(requestId), requester := Some(uuid))
  }

  /** A client record with one more transaction logged. */
  function Logged(client: Client, req: Request, final: ResponseData): Client {
    client.(transactions := client.transactions + [(Some(req), final)],
            transactionIds := client.transactionIds + [req.id])
  }

  /**
   * `handle_request` of the ROUTER server for one frame, given what the
   * manager's `run_workflow` returns.  The client record is created first;
   * a payload that fails validation then escapes (the decode error either
   * is not caught or is caught by a branch whose `from_request` is
   * refused), so nothing is logged and nothing is sent.  A validated
   * request is stamped, logged once with the response object's final state
   * -- the log holds the object itself, so later changes show -- routed,
   * given its final status, and answered to the same identity.
   */
  function ServeSpec(s: ServerState, es: EntityTable, runs: WorkflowRunner, identity: string, message: Decoded,
                     clientId: string, requestId: string): Served
  {
    var client := RecordFor(s.clients, identity, clientId);
    var clients := s.clients[identity := client];
    match message
    case NotText => Served(ServerState(clients, s.replies), Some(ValidationError(NoRequest)))
    case Rejected(reason) => Served(ServerState(clients, s.replies), Some(ValidationError(reason)))
    case Parsed(req0) =>
      var req := Stamped(req0, requestId, client.uuid);
      var o := Answered(es, req, RunFor(runs, req));
      Served(ServerState(clients[identity := Logged(client, req, o.state)],
                         if o.raised.None? then s.replies + [(identity, o.state)] else s.replies),
             o.raised)
  }

  class RequestServer {
    var clients: map<string, Client>
    var replies: seq<(string, ResponseData)>
    const em: EntityManager

    function State(): ServerState
      reads this
    {
      ServerState(clients, replies)
    }

    constructor (em: EntityManager)
      ensures State() == ServerState(map[], []) && this.em == em
    {
      this.clients := map[];
      this.replies := [];
      this.em := em;
    }

    method HandleRequest(identity: string, message: Decoded, clientId: string, requestId: string, asWritten: bool,
                         ghost ranks: string -> string -> nat, ghost runs: WorkflowRunner)
      returns (raised: Option<PyError>)
      requires em.Valid() && RunsOf(em.entities, ranks, asWritten, runs)
      modifies this
      ensures Served(State(), raised) == ServeSpec(old(State()), em.entities, runs, identity, message, clientId, requestId)
    {
      var client := RecordFor(clients, identity, clientId);
      clients := clients[identity := client];
      match message
      case NotText =>
        raised := Some(ValidationError(NoRequest));
      case Rejected(reason) =>
        raised := Some(ValidationError(reason));
      case Parsed(req0) =>
        var request := Stamped(req0, requestId, client.uuid);
        var o := Respond(em, request, asWritten, ranks, runs);
        clients := clients[identity := Logged(client, request, o.state)];
        if o.raised.None? {
          replies := replies + [(identity, o.state)];
        }
        raised := o.raised;
    }

    /**
     * `handle_service_task`, which `handle_request` never dispatches: a
     * missing task or an unknown common service adds one error; otherwise
     * the service's task names are recorded as info before the task runs
     * with the request's context as its arguments, and any failure is
     * recorded as a "FinalError".
     */
    method HandleServiceTask(request: Request, response: Response, ghost rank: string -> nat, ghost tasks: TaskRunner)
      requires TasksOf(em.common.services, rank, tasks)
      modifies response
      ensures response.State() == ServiceTaskSpec(em.common.services, request, old(response.State()), RunTaskFor(tasks, request))
    {
      if !Given(request.task) {
        response.AddError("BadTask", "Invalid JSON, no task");
        return;
      }
      if request.service.None? || request.service.value !in em.common.services.entries {
        response.AddError("ServiceNotFound", "Service not found");
        return;
      }
      var service := em.common.services.entries[request.service.value];
      response.AddInfo("available_services", VList([VStr(request.service.value), VList(Strs(GetTaskNames(service)))]));
      var r := CallRunTask(em.common.services, request.task.value, request.ctx, rank, tasks);
      if r.Ok? {
        response.result := r.value;
        response.ctx := request.ctx;
      } else {
        response.AddError("FinalError", "Error running task: " + ErrorText(r.error));
      }
    }
  }

  /** Names as a list value. */
  function Strs(names: seq<string>): (r: seq<Value>)
    ensures |r| == |names| && forall i :: 0 <= i < |r| ==> r[i] == VStr(names[i])
  {
    if names == [] then [] else [VStr(names[0])] + Strs(names[1..])
  }

  /** `run_task(task, ctx)` of the current manager: the context lands in `args`, the stacks start empty. */
  ghost function TaskRun(c: ServiceManagers.Catalog, name: string, args: Ctx, rank: string -> nat): Result<Value>
    requires ServiceManagers.Ranked(c, rank, false)
  {
    match ServiceManagers.Resolve(c, name, false, rank)
    case Err(e) => Err(e)
    case Ok(tasks) => ServiceManagers.RunTasklistSpec(map[], tasks, Some(args)).0
  }

  /** `run_task` of the common service manager, as a function of task name and arguments. */
  type TaskRunner = (string, Ctx) -> Result<Value>

  /** `tasks` is `run_task` of a manager holding `c`. */
  ghost predicate TasksOf(c: ServiceManagers.Catalog, rank: string -> nat, tasks: TaskRunner) {
    ServiceManagers.Ranked(c, rank, false) &&
    forall n, a {:trigger TaskRun(c, n, a, rank)} :: tasks(n, a) == TaskRun(c, n, a, rank)
  }

  /** The manager's answer the handler works with; a request without a task never reaches the call. */
  function RunTaskFor(tasks: TaskRunner, req: Request): Result<Value> {
    if req.task.Some? then tasks(req.task.value, req.ctx) else Ok(VNone)
  }

  /** The call into the common service manager. */
  method CallRunTask(c: ServiceManagers.Catalog, name: string, args: Ctx, ghost rank: string -> nat, ghost tasks: TaskRunner)
    returns (r: Result<Value>)
    requires TasksOf(c, rank, tasks)
    ensures r == tasks(name, args)
  {
    var callerCtx;
    r, callerCtx := ServiceManagers.RunTask(c, name, Some(args), None, rank);
    assert r == TaskRun(c, name, args, rank);
  }

  /** `handle_service_task`, given what `run_task` returns when it is called. */
  function ServiceTaskSpec(c: ServiceManagers.Catalog, req: Request, d: ResponseData, run: Result<Value>): ResponseData {
    if !Given(req.task) then WithError(d, "BadTask", "Invalid JSON, no task")
    else if req.service.None? || req.service.value !in c.entries then WithError(d, "ServiceNotFound", "Service not found")
    else
      var names := GetTaskNames(c.entries[req.service.value]);
      var d1 := WithInfo(d, "available_services", VList([VStr(req.service.value), VList(Strs(names))]));
      match run
      case Ok(v) => d1.(result := v, ctx := req.ctx)
      case Err(e) => WithError(d1, "FinalError", "Error running task: " + ErrorText(e))
  }

  /** The service route never raises and leaves status, request and id alone; the early exits add exactly one error. */
  lemma ServiceTaskEarly(c: ServiceManagers.Catalog, req: Request, d: ResponseData, run: Result<Value>)
    ensures var out := ServiceTaskSpec(c, req, d, run);
      out.status == d.status && out.request == d.request && out.id == d.id
    ensures !Given(req.task) ==> ServiceTaskSpec(c, req, d, run) == WithError(d, "BadTask", "Invalid JSON, no task")
    ensures Given(req.task) && (req.service.None? || req.service.value !in c.entries) ==>
      ServiceTaskSpec(c, req, d, run) == WithError(d, "ServiceNotFound", "Service not found")
  {
  }

  /**
   * Past the early exits the info list under "available_services" grows by
   * the service's name and task names; then either the result and context
   * are set with no new error, or exactly one "FinalError" is added and
   * result and context are left alone.
   */
  lemma ServiceTaskRun(c: ServiceManagers.Catalog, req: Request, d: ResponseData, run: Result<Value>)
    requires Given(req.task) && req.service.Some? && req.service.value in c.entries
    ensures var out := ServiceTaskSpec(c, req, d, run);
      var entry := VList([VStr(req.service.value), VList(Strs(GetTaskNames(c.entries[req.service.value])))]);
      out.info == Add(d.info, "available_services", entry) &&
      (run.Ok? ==> out.errors == d.errors && out.result == run.value && out.ctx == req.ctx) &&
      (run.Err? ==> out.errors == Add(d.errors, "FinalError", "Error running task: " + ErrorText(run.error)) &&
                    out.result == d.result && out.ctx == d.ctx)
  {
  }

  /**
   * One frame: its identity's record exists afterwards, with the fresh uuid
   * if it was new; no other identity's record changes.
   */
  lemma ServeClients(s: ServerState, es: EntityTable, runs: WorkflowRunner, identity: string, message: Decoded,
                     clientId: string, requestId: string)
    ensures var out := ServeSpec(s, es, runs, identity, message, clientId, requestId).state;
      out.clients.Keys == s.clients.Keys + {identity} &&
      out.clients[identity].uuid == RecordFor(s.clients, identity, clientId).uuid &&
      (identity !in s.clients ==> out.clients[identity].uuid == clientId) &&
      forall other :: other in s.clients && other != identity ==> out.clients[other] == s.clients[other]
  {
  }

  /**
   * A validated frame appends exactly one (request, response) pair and one
   * id -- the fresh request id -- to its identity's logs, the request
   * stamped with the client's uuid; a frame that fails validation appends
   * nothing and is not answered.
   */
  lemma ServeLogs(s: ServerState, es: EntityTable, runs: WorkflowRunner, identity: string, message: Decoded,
                  clientId: string, requestId: string)
    ensures var before := RecordFor(s.clients, identity, clientId);
      var out := ServeSpec(s, es, runs, identity, message, clientId, requestId);
      var after := out.state.clients[identity];
      if message.Parsed? then
        |after.transactions| == |before.transactions| + 1 &&
        after.transactions[..|before.transactions|] == before.transactions &&
        after.transactions[|before.transactions|].0 == Some(Stamped(message.request, requestId, before.uuid)) &&
        after.transactionIds == before.transactionIds + [Some(requestId)]
      else
        after == before && out.state.replies == s.replies && out.raised.Some?
  {
    if message.Parsed? {
      var before := RecordFor(s.clients, identity, clientId);
      var after := ServeSpec(s, es, runs, identity, message, clientId, requestId).state.clients[identity];
      assert after.transactions[..|before.transactions|] == before.transactions;
    }
  }

  /**
   * An answered frame gets exactly one reply, to its own identity, and that
   * reply is the response just logged: it carries the stamped request and
   * ends "completed" iff it collected no error, else "finished_with_errors".
   */
  lemma ServeReply(s: ServerState, es: EntityTable, runs: WorkflowRunner, identity: string, message: Decoded,
                   clientId: string, requestId: string)
    ensures var out := ServeSpec(s, es, runs, identity, message, clientId, requestId);
      out.raised.None? ==>
        message.Parsed? &&
        |out.state.replies| == |s.replies| + 1 && out.state.replies[..|s.replies|] == s.replies &&
        var (to, reply) := out.state.replies[|s.replies|];
        var log := out.state.clients[identity].transactions;
        to == identity && log != [] && log[|log| - 1] == (reply.request, reply) &&
        reply.request == Some(Stamped(message.request, requestId, RecordFor(s.clients, identity, clientId).uuid)) &&
        (reply.status == Completed <==> reply.errors == map[]) &&
        (reply.status == Completed || reply.status == FinishedWithErrors)
    ensures var out := ServeSpec(s, es, runs, identity, message, clientId, requestId);
      out.raised.Some? ==> out.state.replies == s.replies
  {
    var out := ServeSpec(s, es, runs, identity, message, clientId, requestId);
    if out.raised.None? {
      assert out.state.replies[..|s.replies|] == s.replies;
    }
  }
}
