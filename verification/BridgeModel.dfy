/** The bridge's messages, and what each uninterrupted stretch of client or server code (from
    one `await` to the next) does to that side's state. */
module BridgeModel {
  import opened Prelude

  type Id = int
  type Oid = int
  type Tool = string

  const METHOD_NOT_FOUND := -32601
  const INVALID_PARAMS := -32602
  const CANCELLED := -32002
  const SHUTDOWN := -32003

  datatype Call =
    | SendMessage
    | Cancel(target: Option<Id>)
    | Shutdown
    | Exit
    | Registered(name: string)
    | Unregistered(name: string)

  datatype Reply = Result(value: Json) | Error(code: int)

  /** One call of a promise's resolve or reject function. */
  datatype Settlement =
    | Resolved(value: Json)
    | RejectedCancelled
    | RejectedError(code: int)
    | Disconnected
    | WriteRejected

  /** The decision in a permission reply; Malformed is any other result, ClientError an error. */
  datatype Answer = Allow | AllowAlways | Deny | Malformed | ClientError

  datatype ToServer =
    | Request(id: Id, call: Call)
    | CancelNote(id: Id)
    | ExitNote
    | Answered(oid: Oid, answer: Answer)

  datatype ToClient =
    | Response(id: Id, reply: Reply)
    | StreamEvent(id: Id, event: Json)
    | Ask(oid: Oid, tool: Tool)
    | EndOfStream

  // ---- client -----------------------------------------------------------------------------

  /** `promises` lists the settlement calls made on each promise, `delivered` the events each
      send handle was given, `answering` the permission requests its handlers are working on. */
  datatype Client = Client(
    nextId: Id,
    pending: set<Id>,
    inflight: set<Id>,
    promises: map<Id, seq<Settlement>>,
    delivered: map<Id, seq<Json>>,
    answering: map<Oid, Tool>,
    reading: bool)

  const NEW_CLIENT := Client(1, {}, {}, map[], map[], map[], true)

  function Calls(c: Client, id: Id): seq<Settlement> {
    if id in c.promises then c.promises[id] else []
  }

  function Settle(c: Client, id: Id, how: Settlement): Client {
    c.(pending := c.pending - {id}, inflight := c.inflight - {id},
       promises := c.promises[id := Calls(c, id) + [how]])
  }

  function OpenRequest(c: Client): Client {
    c.(nextId := c.nextId + 1, pending := c.pending + {c.nextId}, promises := c.promises[c.nextId := []])
  }

  function OpenSend(c: Client): Client {
    OpenRequest(c).(inflight := c.inflight + {c.nextId}, delivered := c.delivered[c.nextId := []])
  }

  function RejectWrite(c: Client, id: Id): Client {
    if id in c.pending then Settle(c, id, WriteRejected) else c
  }

  function SettlementOf(reply: Reply): Settlement {
    match reply
    case Result(v) => Resolved(v)
    case Error(code) => if code == CANCELLED then RejectedCancelled else RejectedError(code)
  }

  function HandleResponse(c: Client, id: Id, reply: Reply): Client {
    if id in c.pending then Settle(c, id, SettlementOf(reply)) else c
  }

  function Emit(c: Client, id: Id, event: Json): Client {
    if id in c.inflight then
      var so_far := if id in c.delivered then c.delivered[id] else [];
      c.(delivered := c.delivered[id := so_far + [event]])
    else c
  }

  function FailAll(c: Client): Client {
    c.(pending := {}, inflight := {}, reading := false,
       promises := map id | id in c.promises.Keys + c.pending ::
                     if id in c.pending then Calls(c, id) + [Disconnected] else Calls(c, id))
  }

  /** One turn of the read loop. */
  function Dispatch(c: Client, m: ToClient): Client {
    match m
    case Response(id, reply) => HandleResponse(c, id, reply)
    case StreamEvent(id, event) => Emit(c, id, event)
    case Ask(oid, tool) => c.(answering := c.answering[oid := tool])
    case EndOfStream => FailAll(c)
  }

  // ---- server -----------------------------------------------------------------------------

  /** Where a dispatch task is: not yet run, inside the handler, waiting to write an event or
      its reply, or done writing but not yet unregistered. */
  datatype Phase =
    | Spawned
    | Handling
    | WritingEvent(event: Json)
    | Replying(reply: Reply)
    | Replied

  /** `registered`: listed in `_inflight_by_request_id`. `cancel`: `task.cancel()` was called. */
  datatype Task = Task(call: Call, phase: Phase, registered: bool, cancel: bool)

  /** A `send_request` of the permission resolver, from the allocation of its id on. */
  datatype Asking = Asking(tool: Tool, written: bool, answer: Option<Answer>)

  datatype Server = Server(
    shuttingDown: bool,
    exited: bool,
    reading: bool,
    closed: bool,
    tasks: map<Id, Task>,
    nextOut: Oid,
    pending: set<Oid>,
    asks: map<Oid, Asking>,
    alwaysAllow: set<Tool>)

  const NEW_SERVER := Server(false, false, true, false, map[], -1, {}, map[], {})

  function Spawn(v: Server, id: Id, call: Call): Server {
    v.(tasks := v.tasks[id := Task(call, Spawned, false, false)])
  }

  predicate Cancellable(v: Server, id: Id) {
    id in v.tasks && v.tasks[id].registered
  }

  function CancelTask(v: Server, id: Id): Server {
    if Cancellable(v, id) then v.(tasks := v.tasks[id := v.tasks[id].(cancel := true)]) else v
  }

  /** `_handle_inbound_response`: the future is taken out of the table before it is resolved. */
  function ResolveAsk(v: Server, oid: Oid, answer: Answer): Server {
    if oid !in v.pending then v
    else
      var w := v.(pending := v.pending - {oid});
      if oid in v.asks && v.asks[oid].answer == None
      then w.(asks := w.asks[oid := w.asks[oid].(answer := Some(answer))])
      else w
  }

  /** One turn of the `serve` loop. */
  function Receive(v: Server, m: ToServer): Server {
    match m
    case Request(id, call) => Spawn(v, id, call)
    case CancelNote(id) => CancelTask(v, id)
    case ExitNote => v.(exited := true)
    case Answered(oid, answer) => ResolveAsk(v, oid, answer)
  }

  function SetPhase(v: Server, id: Id, phase: Phase): Server
    requires id in v.tasks
  {
    v.(tasks := v.tasks[id := v.tasks[id].(phase := phase)])
  }

  /** The handler is over, having taken any cancel that reached it; the reply is next. */
  function BeginReply(v: Server, id: Id, reply: Reply): Server
    requires id in v.tasks
  {
    v.(tasks := v.tasks[id := v.tasks[id].(phase := Replying(reply), cancel := false)])
  }

  function Register(v: Server, id: Id): Server
    requires id in v.tasks
  {
    v.(tasks := v.tasks[id := Task(v.tasks[id].call, Handling, true, false)])
  }

  /** `_dispatch_request` up to its first suspension. The shutdown and cancel handlers never
      suspend, so they are over by then. */
  function Start(v: Server, id: Id): Server
    requires id in v.tasks
  {
    var call := v.tasks[id].call;
    if v.shuttingDown && call != Exit then BeginReply(v, id, Error(SHUTDOWN))
    else if call.Unregistered? || call.Exit? then BeginReply(v, id, Error(METHOD_NOT_FOUND))
    else
      var w := Register(v, id);
      if call.Shutdown? then BeginReply(w, id, Result("null")).(shuttingDown := true)
      else if call.Cancel? then StartCancel(w, id, call.target)
      else w
  }

  /** `session.cancel`: the reply says whether a task to cancel was found. */
  function StartCancel(w: Server, id: Id, target: Option<Id>): Server
    requires id in w.tasks
  {
    if target.None? then BeginReply(w, id, Error(INVALID_PARAMS))
    else
      var found := Cancellable(w, target.value);
      CancelTask(BeginReply(w, id, Result(if found then "true" else "false")), target.value)
  }

  function EndTask(v: Server, id: Id): Server {
    v.(tasks := v.tasks - {id})
  }

  /** `resolve` on a tool not yet always allowed, up to its write: a fresh negative id. */
  function OpenAsk(v: Server, tool: Tool): Server {
    v.(nextOut := v.nextOut - 1, pending := v.pending + {v.nextOut},
       asks := v.asks[v.nextOut := Asking(tool, false, None)])
  }

  function MarkWritten(v: Server, oid: Oid): Server
    requires oid in v.asks
  {
    v.(asks := v.asks[oid := v.asks[oid].(written := true)])
  }

  /** Cancelled before its write is done an ask leaves its table entry behind; cancelled while
      it waits, it takes the entry out. */
  function DropAsk(v: Server, oid: Oid): Server
    requires oid in v.asks
  {
    v.(asks := v.asks - {oid}, pending := if v.asks[oid].written then v.pending - {oid} else v.pending)
  }

  predicate Grants(answer: Answer) {
    answer == Allow || answer == AllowAlways
  }

  /** The rest of `resolve` once the future is done. */
  function FinishAsk(v: Server, oid: Oid): Server
    requires oid in v.asks && v.asks[oid].answer.Some?
  {
    var a := v.asks[oid];
    v.(asks := v.asks - {oid}, pending := v.pending - {oid},
       alwaysAllow := if a.answer.value == AllowAlways then v.alwaysAllow + {a.tool} else v.alwaysAllow)
  }
}
