/**
 * The create-task request handler: method gate, validation chain, tenant
 * lookup, insert, broadcast and response mapping. `Step` is the whole
 * handler as a function of the store, the applications table, the request
 * and the collaborators' outcomes; `TaskService.Handle` performs the same
 * pass call by call on the client state and is proved equal to it.
 */
module CreateTask {
  import opened Wrappers
  import opened Validation
  import opened TaskStore

  /** The request body: a JSON object, or text that JSON parsing rejects with a message. */
  datatype Body = Json(fields: Payload) | Unparsable(reason: string)

  datatype Request = Request(httpMethod: string, body: Body)

  datatype ResponseBody =
    | PlainText(text: string)     // the preflight's "ok"
    | ErrorJson(error: string)    // {error}
    | SuccessJson(taskId: nat)    // {success: true, task_id}

  datatype Response = Response(status: int, body: ResponseBody)

  /** A response, or none: the handler waits on a subscription callback with no timeout. */
  datatype Outcome = Responded(response: Response) | NoResponse

  /** What the database does with the insert: store the row, or fail with an error message. */
  datatype InsertResult = Stored | Failed(message: string)

  /**
   * What the realtime channel does: throw while the channel is created or
   * subscribed to, before any callback runs; never report `SUBSCRIBED`;
   * report it and then have `send` throw; or report it and have `send` return
   * (its result is never read, so this says nothing about delivery).
   */
  datatype ChannelOutcome = SetupThrows(message: string) | NeverSubscribed | SendThrows | SendCompleted

  /** The handler's collaborators: the clock, the date parser, the database and the channel. */
  datatype World = World(now: int, parse: string -> Option<int>, insert: InsertResult, channel: ChannelOutcome)

  datatype Reply = Reply(outcome: Outcome, store: Store)

  const MethodNotAllowedMessage: string := "Method not allowed"
  const NotFoundMessage: string := "Application (related_id) not found"
  const InternalErrorMessage: string := "Internal server error"

  function ErrorResponse(status: int, message: string): Response
  {
    Response(status, ErrorJson(message))
  }

  /** The catch block's error text: the thrown error's message, or a fixed fallback when that is empty. */
  function CaughtMessage(message: string): string
  {
    if message != "" then message else InternalErrorMessage
  }

  /** How many of the three channel calls (subscribe, send, removeChannel) took effect. */
  function ChannelCalls(c: ChannelOutcome): (k: nat)
  {
    match c
    case SetupThrows(_) => 0
    case NeverSubscribed => 1
    case SendThrows => 2
    case SendCompleted => 3
  }

  /** The row inserted for a validated request: the tenant is the looked-up one, the status open. */
  function NewTask(id: nat, v: TaskRequest, tenantId: string): Task
  {
    Task(id, v.relatedId, TypeName(v.taskType), v.dueAt, tenantId, Open)
  }

  /** The request gets as far as a stored row. */
  predicate Accepted(applications: map<string, string>, req: Request, w: World)
  {
    && req.httpMethod == "POST"
    && req.body.Json?
    && var v := Validate(req.body.fields, w.now, w.parse);
    && v.Success?
    && v.value.relatedId in applications
    && w.insert.Stored?
  }

  /** The handler, one request at a time. */
  function Step(s: Store, applications: map<string, string>, req: Request, w: World): (r: Reply)
    // nothing is written unless the request passes every check and the insert succeeds
    ensures r.store != s <==> Accepted(applications, req, w)
    // a request that is accepted appends exactly one row, with the next id and the application's tenant
    ensures Accepted(applications, req, w) ==>
      var v := Validate(req.body.fields, w.now, w.parse).value;
      var t := NewTask(s.nextId, v, applications[v.relatedId]);
      r.store == Created(s, t, ChannelCalls(w.channel))
    // success is reported only after the send has returned, and names the stored row
    ensures r.outcome.Responded? && r.outcome.response.body.SuccessJson? <==>
      Accepted(applications, req, w) && w.channel == SendCompleted
    ensures r.outcome.Responded? && r.outcome.response.body.SuccessJson? ==>
      r.outcome.response == Response(200, SuccessJson(s.nextId))
      && r.store.tasks[|s.tasks|].id == s.nextId
    // the handler fails to answer only when it waits on the channel after a stored row
    ensures r.outcome.NoResponse? <==>
      Accepted(applications, req, w) && (w.channel.NeverSubscribed? || w.channel.SendThrows?)
    // a throw while setting up the channel is caught after the row is stored
    ensures Accepted(applications, req, w) && w.channel.SetupThrows? ==>
      r.outcome == Responded(ErrorResponse(500, CaughtMessage(w.channel.message)))
  {
    if req.httpMethod == "OPTIONS" then Reply(Responded(Response(200, PlainText("ok"))), s)
    else if req.httpMethod != "POST" then Reply(Responded(ErrorResponse(405, MethodNotAllowedMessage)), s)
    else match req.body
      case Unparsable(reason) => Reply(Responded(ErrorResponse(500, CaughtMessage(reason))), s)
      case Json(p) =>
        match Validate(p, w.now, w.parse)
        case Failure(e) => Reply(Responded(ErrorResponse(400, ErrorText(e))), s)
        case Success(v) =>
          if v.relatedId !in applications then Reply(Responded(ErrorResponse(404, NotFoundMessage)), s)
          else match w.insert
            case Failed(m) => Reply(Responded(ErrorResponse(500, CaughtMessage(m))), s)
            case Stored =>
              var t := NewTask(s.nextId, v, applications[v.relatedId]);
              var s' := Created(s, t, ChannelCalls(w.channel));
              assert |s'.tasks| == |s.tasks| + 1;
              match w.channel
              case SetupThrows(m) => Reply(Responded(ErrorResponse(500, CaughtMessage(m))), s')
              case SendCompleted => Reply(Responded(Response(200, SuccessJson(t.id))), s')
              case _ => Reply(NoResponse, s')
  }

  /** Every error response, whichever stage produced it, carries a non-empty message. */
  lemma ErrorTextNeverEmpty(s: Store, applications: map<string, string>, req: Request, w: World)
    ensures var r := Step(s, applications, req, w);
      r.outcome.Responded? && r.outcome.response.body.ErrorJson? ==> r.outcome.response.body.error != ""
  {
    InvalidTaskTypeText();
  }

  /** The preflight is answered with "ok" before anything else is looked at. */
  lemma OptionsAnsweredFirst(s: Store, applications: map<string, string>, body: Body, w: World)
    ensures Step(s, applications, Request("OPTIONS", body), w) == Reply(Responded(Response(200, PlainText("ok"))), s)
  {
  }

  /** Any other method except POST gets 405, whatever its body. */
  lemma OtherMethodsRejected(s: Store, applications: map<string, string>, req: Request, w: World)
    requires req.httpMethod != "OPTIONS" && req.httpMethod != "POST"
    ensures Step(s, applications, req, w) == Reply(Responded(ErrorResponse(405, "Method not allowed")), s)
  {
  }

  /** A body that is not JSON is caught and answered with 500 and its message. */
  lemma UnparsableBodyCaught(s: Store, applications: map<string, string>, reason: string, w: World)
    ensures Step(s, applications, Request("POST", Unparsable(reason)), w)
      == Reply(Responded(ErrorResponse(500, CaughtMessage(reason))), s)
  {
  }

  /** A missing or empty related_id is reported before the other fields are looked at. */
  lemma RelatedIdCheckedFirst(s: Store, applications: map<string, string>, p: Payload, w: World)
    requires Falsy(Field(p, "related_id"))
    ensures Step(s, applications, Request("POST", Json(p)), w)
      == Reply(Responded(ErrorResponse(400, "related_id is required")), s)
  {
  }

  /** A present related_id with a missing, empty or unknown task_type is reported with the list of types. */
  lemma TaskTypeChecked(s: Store, applications: map<string, string>, p: Payload, w: World)
    requires !Falsy(Field(p, "related_id"))
    requires "task_type" !in p || p["task_type"] !in ["call", "email", "review"]
    ensures Step(s, applications, Request("POST", Json(p)), w)
      == Reply(Responded(ErrorResponse(400, "Invalid task_type. Must be one of: call, email, review")), s)
  {
    InvalidTaskTypeText();
  }

  /**
   * With related_id and task_type valid, due_at must be present, parse, and
   * lie strictly after now; each failure has its own 400.
   */
  lemma DueAtChecked(s: Store, applications: map<string, string>, p: Payload, w: World)
    requires !Falsy(Field(p, "related_id"))
    requires "task_type" in p && p["task_type"] in ["call", "email", "review"]
    ensures var r := Step(s, applications, Request("POST", Json(p)), w);
      && (Falsy(Field(p, "due_at")) ==>
            r == Reply(Responded(ErrorResponse(400, "due_at is required")), s))
      && (!Falsy(Field(p, "due_at")) && w.parse(p["due_at"]).None? ==>
            r == Reply(Responded(ErrorResponse(400, "due_at must be a valid ISO date string")), s))
      && (!Falsy(Field(p, "due_at")) && w.parse(p["due_at"]).Some? && w.parse(p["due_at"]).value <= w.now ==>
            r == Reply(Responded(ErrorResponse(400, "due_at must be a future date")), s))
  {
  }

  /** Every validation failure is a 400 carrying that rule's message, and writes nothing. */
  lemma ValidationFailureWritesNothing(s: Store, applications: map<string, string>, p: Payload, w: World)
    requires Validate(p, w.now, w.parse).Failure?
    ensures Step(s, applications, Request("POST", Json(p)), w)
      == Reply(Responded(ErrorResponse(400, ErrorText(Validate(p, w.now, w.parse).error))), s)
  {
  }

  /** A valid request whose related_id names no application is a 404 and writes nothing. */
  lemma UnresolvedApplication(s: Store, applications: map<string, string>, p: Payload, w: World)
    requires Validate(p, w.now, w.parse).Success?
    requires p["related_id"] !in applications
    ensures Step(s, applications, Request("POST", Json(p)), w)
      == Reply(Responded(ErrorResponse(404, "Application (related_id) not found")), s)
  {
  }

  /** A failed insert is a 500 with the database's message; no channel is touched. */
  lemma InsertFailure(s: Store, applications: map<string, string>, p: Payload, w: World)
    requires Validate(p, w.now, w.parse).Success?
    requires p["related_id"] in applications
    requires w.insert.Failed?
    ensures Step(s, applications, Request("POST", Json(p)), w)
      == Reply(Responded(ErrorResponse(500, CaughtMessage(w.insert.message))), s)
  {
  }

  /**
   * An accepted request appends one row built from the request's own fields,
   * the looked-up tenant and status open; the log gains the insert, followed
   * by the subscription to the tasks channel unless the channel setup threw.
   */
  lemma SuccessfulInsert(s: Store, applications: map<string, string>, p: Payload, w: World)
    requires Accepted(applications, Request("POST", Json(p)), w)
    ensures var s' := Step(s, applications, Request("POST", Json(p)), w).store;
      && |s'.tasks| == |s.tasks| + 1
      && s'.tasks[..|s.tasks|] == s.tasks
      && s'.tasks[|s.tasks|] == Task(s.nextId, p["related_id"], p["task_type"], p["due_at"],
                                     applications[p["related_id"]], Open)
      && |s'.log| > |s.log|
      && s'.log[..|s.log| + 1] == s.log + [Inserted(s'.tasks[|s.tasks|])]
      && (!w.channel.SetupThrows? ==> |s'.log| > |s.log| + 1 && s'.log[|s.log| + 1] == Subscribed("tasks"))
  {
  }

  /**
   * If creating or subscribing to the channel throws, the catch block answers
   * 500 with the thrown message, although the row is already stored; no
   * subscription is recorded and nothing is sent.
   */
  lemma ChannelSetupFailure(s: Store, applications: map<string, string>, p: Payload, w: World)
    requires Accepted(applications, Request("POST", Json(p)), w)
    requires w.channel.SetupThrows?
    ensures var r := Step(s, applications, Request("POST", Json(p)), w);
      && r.outcome == Responded(ErrorResponse(500, CaughtMessage(w.channel.message)))
      && |r.store.tasks| == |s.tasks| + 1
      && r.store.log == s.log + [Inserted(r.store.tasks[|s.tasks|])]
  {
  }

  /**
   * Once the subscription is confirmed and the send completes, exactly one
   * task.created message announcing the new row is sent on "tasks", the
   * channel is removed after it, and the response is 200 with the row's id.
   */
  lemma BroadcastAndSuccess(s: Store, applications: map<string, string>, p: Payload, w: World)
    requires Accepted(applications, Request("POST", Json(p)), w)
    requires w.channel == SendCompleted
    ensures var r := Step(s, applications, Request("POST", Json(p)), w);
      var t := r.store.tasks[|s.tasks|];
      && r.outcome == Responded(Response(200, SuccessJson(t.id)))
      && r.store.log == s.log + [Inserted(t), Subscribed("tasks"),
                                 Sent("tasks", Message("broadcast", "task.created",
                                   TaskCreated(t.id, p["related_id"], p["task_type"], p["due_at"]))),
                                 ChannelRemoved("tasks")]
  {
  }

  /**
   * Without a confirmed subscription nothing is sent; if the send throws the
   * channel is never removed. Either way no response is produced and the row
   * stays stored.
   */
  lemma BroadcastNotCompleted(s: Store, applications: map<string, string>, p: Payload, w: World)
    requires Accepted(applications, Request("POST", Json(p)), w)
    requires w.channel.NeverSubscribed? || w.channel.SendThrows?
    ensures var r := Step(s, applications, Request("POST", Json(p)), w);
      var t := r.store.tasks[|s.tasks|];
      && r.outcome == NoResponse
      && |r.store.tasks| == |s.tasks| + 1
      && (w.channel == NeverSubscribed ==> r.store.log == s.log + [Inserted(t), Subscribed("tasks")])
      && (w.channel == SendThrows ==>
            r.store.log == s.log + [Inserted(t), Subscribed("tasks"), Sent("tasks", Announcement(t))])
  {
  }

  /**
   * The trust boundary: the handler reads only related_id, task_type and
   * due_at from the body, so anything else the caller sends (a tenant_id of
   * its choosing included) changes nothing.
   */
  lemma OnlyRequestFieldsMatter(s: Store, applications: map<string, string>, httpMethod: string, p: Payload, q: Payload, w: World)
    requires Field(p, "related_id") == Field(q, "related_id")
    requires Field(p, "task_type") == Field(q, "task_type")
    requires Field(p, "due_at") == Field(q, "due_at")
    ensures Step(s, applications, Request(httpMethod, Json(p)), w) == Step(s, applications, Request(httpMethod, Json(q)), w)
  {
  }

  /** In particular a caller-supplied tenant_id is ignored. */
  lemma CallerTenantIgnored(s: Store, applications: map<string, string>, p: Payload, tenantId: string, w: World)
    ensures Step(s, applications, Request("POST", Json(p["tenant_id" := tenantId])), w)
         == Step(s, applications, Request("POST", Json(p)), w)
  {
    OnlyRequestFieldsMatter(s, applications, "POST", p["tenant_id" := tenantId], p, w);
  }

  /** Every request keeps the store invariant, the tenant match among it. */
  lemma StepPreservesInv(s: Store, applications: map<string, string>, req: Request, w: World)
    requires Inv(applications, s)
    ensures Inv(applications, Step(s, applications, req, w).store)
  {
    if Accepted(applications, req, w) {
      var v := Validate(req.body.fields, w.now, w.parse).value;
      CreatedPreservesInv(applications, s, NewTask(s.nextId, v, applications[v.relatedId]), ChannelCalls(w.channel));
    }
  }

  /** One request handled, with the collaborators' outcomes for it. */
  datatype Invocation = Invocation(req: Request, world: World)

  /** The store after a sequence of requests, handled one after another. */
  function Serve(s: Store, applications: map<string, string>, calls: seq<Invocation>): Store
    decreases |calls|
  {
    if calls == [] then s
    else Serve(Step(s, applications, calls[0].req, calls[0].world).store, applications, calls[1..])
  }

  /** The invariant holds after any sequence of requests. */
  lemma {:induction false} ServePreservesInv(s: Store, applications: map<string, string>, calls: seq<Invocation>)
    requires Inv(applications, s)
    ensures Inv(applications, Serve(s, applications, calls))
    decreases |calls|
  {
    if calls != [] {
      StepPreservesInv(s, applications, calls[0].req, calls[0].world);
      ServePreservesInv(Step(s, applications, calls[0].req, calls[0].world).store, applications, calls[1..]);
    }
  }

  /** The same accepted request sent twice creates two rows with distinct ids: there is no deduplication. */
  lemma RepeatedRequestNotDeduplicated(s: Store, applications: map<string, string>, req: Request, w1: World, w2: World)
    requires Accepted(applications, req, w1) && Accepted(applications, req, w2)
    ensures var s2 := Step(Step(s, applications, req, w1).store, applications, req, w2).store;
      && |s2.tasks| == |s.tasks| + 2
      && s2.tasks[|s.tasks|].id != s2.tasks[|s.tasks| + 1].id
      && s2.tasks[|s.tasks|].(id := 0) == s2.tasks[|s.tasks| + 1].(id := 0)
  {
  }

  /**
   * The state the handler reaches through its database client: the
   * applications table it reads, the tasks table it inserts into and the log
   * of its calls with effects. `Valid()` is the handler's invariant, not the
   * client's: the client-call methods below take any arguments, as the
   * client does, and only `Handle`, which calls them in the handler's order,
   * keeps `Valid()`.
   */
  class TaskService {
    const applications: map<string, string>
    var tasks: seq<Task>
    var log: seq<Event>
    var nextId: nat

    function State(): Store
      reads this
    {
      Store(tasks, log, nextId)
    }

    ghost predicate Valid()
      reads this
    {
      Inv(applications, State())
    }

    constructor (applications: map<string, string>)
      ensures Valid()
      ensures this.applications == applications && State() == Store([], [], 0)
    {
      this.applications := applications;
      tasks, log, nextId := [], [], 0;
    }

    /** The point lookup of the tenant of the application whose id is `relatedId`. */
    method SelectTenant(relatedId: string) returns (tenantId: Option<string>)
      ensures tenantId.Some? <==> relatedId in applications
      ensures tenantId.Some? ==> tenantId.value == applications[relatedId]
    {
      tenantId := if relatedId in applications then Some(applications[relatedId]) else None;
    }

    /** The insert into the tasks table: the store assigns the id and returns the stored row. */
    method Insert(relatedId: string, taskType: string, dueAt: string, tenantId: string, result: InsertResult)
      returns (r: Result<Task, string>)
      modifies this
      ensures result.Failed? ==> r == Failure(result.message) && State() == old(State())
      ensures result.Stored? ==>
        && r == Success(Task(old(nextId), relatedId, taskType, dueAt, tenantId, Open))
        && tasks == old(tasks) + [r.value]
        && log == old(log) + [Inserted(r.value)]
        && nextId == old(nextId) + 1
    {
      match result
      case Failed(message) =>
        r := Failure(message);
      case Stored =>
        var row := Task(nextId, relatedId, taskType, dueAt, tenantId, Open);
        tasks := tasks + [row];
        log := log + [Inserted(row)];
        nextId := nextId + 1;
        r := Success(row);
    }

    /** Subscribing to a realtime channel. */
    method Subscribe(channel: string)
      modifies this
      ensures State() == old(State()).(log := old(log) + [Subscribed(channel)])
    {
      log := log + [Subscribed(channel)];
    }

    /** Sending a message on a realtime channel. */
    method Send(channel: string, message: Message)
      modifies this
      ensures State() == old(State()).(log := old(log) + [Sent(channel, message)])
    {
      log := log + [Sent(channel, message)];
    }

    /** Removing a realtime channel from the client. */
    method RemoveChannel(channel: string)
      modifies this
      ensures State() == old(State()).(log := old(log) + [ChannelRemoved(channel)])
    {
      log := log + [ChannelRemoved(channel)];
    }

    /**
     * The request handler: gate on the method, validate, look the tenant up,
     * insert, subscribe, send once subscribed, remove the channel, answer.
     */
    method Handle(req: Request, w: World) returns (out: Outcome)
      requires Valid()
      modifies this
      ensures Valid()
      ensures Reply(out, State()) == Step(old(State()), applications, req, w)
    {
      ghost var s0 := State();
      StepPreservesInv(s0, applications, req, w);
      if req.httpMethod == "OPTIONS" {
        return Responded(Response(200, PlainText("ok")));
      }
      if req.httpMethod != "POST" {
        return Responded(ErrorResponse(405, MethodNotAllowedMessage));
      }
      if req.body.Unparsable? {
        return Responded(ErrorResponse(500, CaughtMessage(req.body.reason)));
      }
      var validated := Validate(req.body.fields, w.now, w.parse);
      if validated.Failure? {
        return Responded(ErrorResponse(400, ErrorText(validated.error)));
      }
      var v := validated.value;
      var tenantId := SelectTenant(v.relatedId);
      if tenantId.None? {
        return Responded(ErrorResponse(404, NotFoundMessage));
      }
      var inserted := Insert(v.relatedId, TypeName(v.taskType), v.dueAt, tenantId.value, w.insert);
      if inserted.Failure? {
        return Responded(ErrorResponse(500, CaughtMessage(inserted.error)));
      }
      var row := inserted.value;
      if w.channel.SetupThrows? {
        assert State() == Created(s0, row, 0);
        return Responded(ErrorResponse(500, CaughtMessage(w.channel.message)));
      }
      Subscribe(TasksChannel);
      if w.channel == NeverSubscribed {
        assert State() == Created(s0, row, 1);
        return NoResponse;
      }
      Send(TasksChannel, Message("broadcast", "task.created", TaskCreated(row.id, v.relatedId, TypeName(v.taskType), v.dueAt)));
      if w.channel == SendThrows {
        assert State() == Created(s0, row, 2);
        return NoResponse;
      }
      RemoveChannel(TasksChannel);
      assert State() == Created(s0, row, 3);
      out := Responded(Response(200, SuccessJson(row.id)));
    }
  }
}
