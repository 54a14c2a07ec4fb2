/**
 * The daemon's request/response protocol.  Three generations share one
 * response behaviour: errors and info are append-only multimaps, the
 * result may not be replaced once the status is "complete" or "error",
 * the status itself may always be overwritten, and a context update lets
 * the argument win.  They differ in their defaults and in what
 * `from_request` copies.
 */
module Protocols {
  import opened Wrappers
  import opened Values

  /**
   * The status literals, plus "completed", which the servers write although
   * the literal type does not list it (nothing validates an assignment).
   */
  datatype Status = Created | Pending | Incomplete | Complete | Error | FinishedWithErrors | Cancelled | Stopped | Completed

  function StatusText(s: Status): string {
    match s
    case Created => "created"
    case Pending => "pending"
    case Incomplete => "incomplete"
    case Complete => "complete"
    case Error => "error"
    case FinishedWithErrors => "finished_with_errors"
    case Cancelled => "cancelled"
    case Stopped => "stopped"
    case Completed => "completed"
  }

  /**
   * A request of any of the protocols; a field one protocol lacks stays
   * empty.  `requester` is the extra attribute the router sets.
   */
  datatype Request = Request(
    id: Option<string>,
    requester: Option<string>,
    entity: Option<string>,
    workflow: Option<string>,
    task: Option<string>,
    service: Option<string>,
    ctx: Ctx,
    stepOptions: Ctx,
    args: Ctx,
    options: Ctx)

  /** `set_option`: `step_options[key] = value`. */
  function SetOption(r: Request, key: string, value: Value): Request {
    r.(stepOptions := r.stepOptions[key := value])
  }

  /** `set_option` writes exactly one key of the step options and nothing else. */
  lemma SetOptionWritesOneKey(r: Request, key: string, value: Value)
    ensures SetOption(r, key, value).stepOptions.Keys == r.stepOptions.Keys + {key}
    ensures SetOption(r, key, value).stepOptions[key] == value
    ensures forall k :: k in r.stepOptions && k != key ==> SetOption(r, key, value).stepOptions[k] == r.stepOptions[k]
    ensures SetOption(r, key, value).(stepOptions := r.stepOptions) == r
  {
  }

  /**
   * Constructing a request of dizzy/daemon/protocol.py: `id` defaults to a
   * fresh uuid (a parameter here); an empty or missing entity, then an empty
   * or missing workflow, is a ValueError.
   */
  function NewDaemonRequest(id: string, entity: Option<string>, workflow: Option<string>, args: Ctx, ctx: Ctx, options: Ctx): (r: Result<Request>)
    ensures r.Err? <==> !Given(entity) || !Given(workflow)
    ensures !Given(entity) ==> r == Err(ValueError("Request must have an entity."))
    ensures Given(entity) && !Given(workflow) ==> r == Err(ValueError("Request must have a workflow."))
    ensures r.Ok? ==> r.value.id == Some(id) && r.value.entity == entity && r.value.workflow == workflow &&
                      r.value.args == args && r.value.ctx == ctx && r.value.options == options
  {
    if !Given(entity) then Err(ValueError("Request must have an entity."))
    else if !Given(workflow) then Err(ValueError("Request must have a workflow."))
    else Ok(Request(Some(id), None, entity, workflow, None, None, ctx, map[], args, options))
  }

  // ----- append-only multimaps -----

  type Multimap<V> = map<string, seq<V>>

  /** `add_error` / `add_info`: a new key gets `[v]`, a known key gets `v` appended. */
  function Add<V>(m: Multimap<V>, key: string, v: V): (r: Multimap<V>)
    ensures r.Keys == m.Keys + {key}
    ensures key !in m ==> r[key] == [v]
    ensures key in m ==> r[key] == m[key] + [v]
    ensures forall k :: k in m && k != key ==> r[k] == m[k]
  {
    m[key := (if key in m then m[key] else []) + [v]]
  }

  /** A sequence of additions, in order. */
  function AddAll<V>(m: Multimap<V>, adds: seq<(string, V)>): Multimap<V>
    decreases |adds|
  {
    if adds == [] then m else AddAll(Add(m, adds[0].0, adds[0].1), adds[1..])
  }

  /** The values added under `k`, in the order they were added. */
  function Under<V>(adds: seq<(string, V)>, k: string): seq<V>
    decreases |adds|
  {
    if adds == [] then []
    else (if adds[0].0 == k then [adds[0].1] else []) + Under(adds[1..], k)
  }

  /**
   * After any sequence of additions, a key is present iff it was present or
   * was added to, and its list is the old list followed by exactly the
   * values added under it, in order: nothing is lost, reordered or moved.
   */
  lemma {:induction false} AddAllSpec<V>(m: Multimap<V>, adds: seq<(string, V)>, k: string)
    ensures k in AddAll(m, adds) <==> k in m || Under(adds, k) != []
    ensures k in AddAll(m, adds) ==> AddAll(m, adds)[k] == (if k in m then m[k] else []) + Under(adds, k)
    decreases |adds|
  {
    if adds != [] {
      var next := Add(m, adds[0].0, adds[0].1);
      AddAllSpec(next, adds[1..], k);
      if k == adds[0].0 {
        assert (if k in m then m[k] else []) + Under(adds, k) == next[k] + Under(adds[1..], k);
      }
    }
  }

  // ----- responses -----

  /** Every field of a response, as one value. */
  datatype ResponseData = ResponseData(
    id: Option<string>,
    request: Option<Request>,
    requester: Option<string>,
    status: Status,
    errors: Multimap<string>,
    info: Multimap<Value>,
    result: Value,
    ctx: Ctx)

  function WithError(d: ResponseData, error: string, message: string): ResponseData {
    d.(errors := Add(d.errors, error, message))
  }

  function WithInfo(d: ResponseData, key: string, info: Value): ResponseData {
    d.(info := Add(d.info, key, info))
  }

  function CannotSetResult(s: Status): string {
    "Cannot set result for self.status='" + StatusText(s) + "' packet."
  }

  /**
   * `set_result`: refused with a RuntimeError, leaving the result alone,
   * when the status is "complete" or "error"; any other status (including
   * "completed" and "pending") accepts the new result.
   */
  function SetResultOn(d: ResponseData, v: Value): (r: Result<ResponseData>)
    ensures r.Err? <==> d.status == Complete || d.status == Error
    ensures r.Err? ==> r.error == RuntimeError(CannotSetResult(d.status))
    ensures r.Ok? ==> r.value.result == v && r.value.(result := d.result) == d
  {
    if d.status == Complete || d.status == Error then Err(RuntimeError(CannotSetResult(d.status)))
    else Ok(d.(result := v))
  }

  /**
   * The status guard as a state machine: `set_status` always succeeds, and
   * a later `set_result` succeeds exactly when the last status written is
   * neither "complete" nor "error" -- so writing another status re-opens
   * the result.
   */
  lemma StatusGuardsResult(d: ResponseData, s: Status, v: Value)
    ensures SetResultOn(d.(status := s), v).Ok? <==> s != Complete && s != Error
    ensures s == Error ==> SetResultOn(d.(status := s), v) == Err(RuntimeError("Cannot set result for self.status='error' packet."))
    ensures SetResultOn(d.(status := Error).(status := Completed), v) == Ok(d.(status := Completed).(result := v))
  {
  }

  /** A response object; every protocol's methods behave alike. */
  class Response {
    var id: Option<string>
    var request: Option<Request>
    var requester: Option<string>
    var status: Status
    var errors: Multimap<string>
    var info: Multimap<Value>
    var result: Value
    var ctx: Ctx

    function State(): ResponseData
      reads this
    {
      ResponseData(id, request, requester, status, errors, info, result, ctx)
    }

    /**
     * `DefaultResponse.from_request(request, status)` (abstract_protocol.py):
     * only `request` and `status` are set; the id and requester stay None
     * and the context starts empty.
     */
    constructor FromRequest(request: Request, status: Status)
      ensures State() == ResponseData(None, Some(request), None, status, map[], map[], VNone, map[])
    {
      this.id := None;
      this.request := Some(request);
      this.requester := None;
      this.status := status;
      this.errors := map[];
      this.info := map[];
      this.result := VNone;
      this.ctx := map[];
    }

    /** `Response()` of dizzy/daemon/protocol.py: a fresh uuid, status "incomplete", everything else empty. */
    constructor Blank(freshId: string)
      ensures State() == ResponseData(Some(freshId), None, None, Incomplete, map[], map[], VNone, map[])
    {
      this.id := Some(freshId);
      this.request := None;
      this.requester := None;
      this.status := Incomplete;
      this.errors := map[];
      this.info := map[];
      this.result := VNone;
      this.ctx := map[];
    }

    /**
     * `from_request(requester, request, status)` of dizzy/daemon/protocol.py
     * and dizzy/default_data/protocol.py: the requester, the request, the
     * request's id and its context are copied in, then the status is set.
     */
    constructor FromRequestCopying(requester: string, request: Request, status: Status)
      ensures State() == ResponseData(request.id, Some(request), Some(requester), status, map[], map[], VNone, request.ctx)
    {
      this.id := request.id;
      this.request := Some(request);
      this.requester := Some(requester);
      this.status := status;
      this.errors := map[];
      this.info := map[];
      this.result := VNone;
      this.ctx := request.ctx;
    }

    /** `add_error` */
    method AddError(error: string, message: string)
      modifies this
      ensures State() == WithError(old(State()), error, message)
    {
      errors := Add(errors, error, message);
    }

    /** `add_info` */
    method AddInfo(key: string, value: Value)
      modifies this
      ensures State() == WithInfo(old(State()), key, value)
    {
      info := Add(info, key, value);
    }

    /** `set_result` */
    method SetResult(v: Value) returns (outcome: Result<()>)
      modifies this
      ensures SetResultOn(old(State()), v).Ok? ==> State() == SetResultOn(old(State()), v).value && outcome == Ok(())
      ensures SetResultOn(old(State()), v).Err? ==> State() == old(State()) && outcome == Err(SetResultOn(old(State()), v).error)
    {
      if status == Complete || status == Error {
        return Err(RuntimeError(CannotSetResult(status)));
      }
      result := v;
      outcome := Ok(());
    }

    /** `set_status`: unconditional. */
    method SetStatus(s: Status)
      modifies this
      ensures State() == old(State()).(status := s)
    {
      status := s;
    }

    /** `update_ctx`: `ctx.update(other)`, the argument's entries winning. */
    method UpdateCtx(other: Ctx)
      modifies this
      ensures State() == old(State()).(ctx := Update(old(ctx), other))
    {
      ctx := Update(ctx, other);
    }
  }
}
