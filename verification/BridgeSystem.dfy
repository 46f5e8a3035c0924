/** Client, server and the two channels between them as one transition system. */
module BridgeSystem {
  import opened Prelude
  import opened BridgeModel

  /** Why a tool was let run: this client answer, or a remembered allow_always. */
  datatype Grant = ByAnswer(tool: Tool, oid: Oid) | ByCache(tool: Tool)

  /** What has happened so far; nothing in the system reads it. `sent` holds the events put on
      the channel, `yielded` the events the runtime stream produced, `produced` the reply put
      on the channel, `unwritten` the requests whose write failed, `lost` those whose reply
      was never written, `cancelledLate` those a cancel reached while the reply was being
      written, `unencodable` those whose result could not be encoded. */
  datatype History = History(
    requested: map<Id, Call>,
    yielded: map<Id, seq<Json>>,
    sent: map<Id, seq<Json>>,
    produced: map<Id, Reply>,
    unwritten: set<Id>,
    lost: set<Id>,
    cancelledLate: set<Id>,
    unencodable: set<Id>,
    asked: map<Oid, Tool>,
    answers: map<Oid, Answer>,
    grants: seq<Grant>)

  datatype State = State(
    client: Client,
    server: Server,
    toServer: seq<ToServer>,
    toClient: seq<ToClient>,
    broken: bool,
    past: History)

  const INITIAL := State(NEW_CLIENT, NEW_SERVER, [], [], false,
                         History(map[], map[], map[], map[], {}, {}, {}, {}, map[], map[], []))

  datatype Step =
    // client
    | Send(call: Call, written: bool)
    | SendWriteFails(id: Id)
    | SendCancel(id: Id)
    | SendExit
    | ClientReads
    | ClientReadFails
    | Answers(oid: Oid, answer: Answer, written: bool, again: bool)
    // server read loop
    | ServerReceives
    | ServerStopsReading
    | ServerCloses
    // dispatch tasks
    | TaskStarts(id: Id)
    | StreamYields(id: Id, event: Json)
    | EventWritten(id: Id)
    | EventAbandoned(id: Id, code: int)
    | HandlerReturns(id: Id, reply: Reply)
    | ReplyWritten(id: Id)
    | ReplyLost(id: Id)
    | ReplyUnencodable(id: Id)
    | TaskEnds(id: Id)
    // permission resolver
    | ResolveCached(tool: Tool)
    | AskOpens(tool: Tool)
    | AskWritten(oid: Oid)
    | AskCancelled(oid: Oid)
    | AskFinishes(oid: Oid)
    // environment
    | TransportBreaks(keepToServer: nat, keepToClient: nat)

  predicate InPhase(s: State, id: Id, phase: Phase) {
    id in s.server.tasks && s.server.tasks[id].phase == phase
  }

  predicate Enabled(s: State, step: Step) {
    match step
    case Send(_, _) => true
    case SendWriteFails(id) => id in s.past.requested && s.past.requested[id] == SendMessage
    case SendCancel(_) => true
    case SendExit => true
    case ClientReads => s.client.reading && s.toClient != []
    case ClientReadFails => s.client.reading
    case Answers(oid, _, _, _) => oid in s.client.answering
    case ServerReceives => s.server.reading && !s.server.exited && s.toServer != []
    case ServerStopsReading => true
    case ServerCloses => !s.server.reading && s.server.tasks == map[] && !s.server.closed
    case TaskStarts(id) => InPhase(s, id, Spawned)
    case StreamYields(id, _) => InPhase(s, id, Handling) && s.server.tasks[id].call == SendMessage
    case EventWritten(id) => id in s.server.tasks && s.server.tasks[id].phase.WritingEvent?
    case EventAbandoned(id, _) => id in s.server.tasks && s.server.tasks[id].phase.WritingEvent?
    case HandlerReturns(id, _) => InPhase(s, id, Handling)
    case ReplyWritten(id) => id in s.server.tasks && s.server.tasks[id].phase.Replying?
    case ReplyLost(id) =>
      id in s.server.tasks && s.server.tasks[id].phase.Replying? && (s.server.tasks[id].cancel || s.broken)
    case ReplyUnencodable(id) =>
      id in s.server.tasks && s.server.tasks[id].phase.Replying? && s.server.tasks[id].phase.reply.Result?
    case TaskEnds(id) => InPhase(s, id, Replied)
    case ResolveCached(tool) => tool in s.server.alwaysAllow
    case AskOpens(tool) => tool !in s.server.alwaysAllow
    case AskWritten(oid) => oid in s.server.asks && !s.server.asks[oid].written && !s.server.closed
    case AskCancelled(oid) => oid in s.server.asks
    case AskFinishes(oid) => oid in s.server.asks && s.server.asks[oid].written && s.server.asks[oid].answer.Some?
    case TransportBreaks(i, j) => i <= |s.toServer| && j <= |s.toClient|
  }

  /** A frame written by the client; a broken transport swallows it. */
  function ClientPuts(s: State, m: ToServer): State {
    if s.broken then s else s.(toServer := s.toServer + [m])
  }

  function ServerPuts(s: State, m: ToClient): State {
    if s.broken then s else s.(toClient := s.toClient + [m])
  }

  function WithServer(s: State, v: Server): State {
    s.(server := v)
  }

  function EventsOf(log: map<Id, seq<Json>>, id: Id): seq<Json> {
    if id in log then log[id] else []
  }

  function AfterSend(s: State, call: Call, written: bool): State {
    var id := s.client.nextId;
    var t := s.(client := if call == SendMessage then OpenSend(s.client) else OpenRequest(s.client),
                past := s.past.(requested := s.past.requested[id := call],
                                yielded := s.past.yielded[id := []],
                                sent := s.past.sent[id := []]));
    if written && !s.broken then t.(toServer := t.toServer + [Request(id, call)])
    else t.(past := t.past.(unwritten := t.past.unwritten + {id}))
  }

  function AfterClientReads(s: State): State
    requires s.toClient != []
  {
    s.(toClient := s.toClient[1..], client := Dispatch(s.client, s.toClient[0]))
  }

  function AfterAnswers(s: State, oid: Oid, answer: Answer, written: bool, again: bool): State {
    var t := s.(client := s.client.(answering := s.client.answering - {oid}),
                past := s.past.(answers := s.past.answers[oid := answer]));
    var u := if written then ClientPuts(t, Answered(oid, answer)) else t;
    if again then ClientPuts(u, Answered(oid, ClientError)) else u
  }

  function AfterReceives(s: State): State
    requires s.toServer != []
  {
    var m := s.toServer[0];
    var t := s.(toServer := s.toServer[1..], server := Receive(s.server, m));
    if m.CancelNote? then NoteLateCancel(t, m.id) else t
  }

  /** A cancel that lands on a task already past its handler can cost the reply. */
  function NoteLateCancel(s: State, id: Id): State {
    if id in s.server.tasks && s.server.tasks[id].cancel && s.server.tasks[id].phase.Replying?
    then s.(past := s.past.(cancelledLate := s.past.cancelledLate + {id})) else s
  }

  function AfterStart(s: State, id: Id): State
    requires id in s.server.tasks
  {
    var t := WithServer(s, Start(s.server, id));
    var call := s.server.tasks[id].call;
    if call.Cancel? && call.target.Some? then NoteLateCancel(t, call.target.value) else t
  }

  function AfterYields(s: State, id: Id, event: Json): State
    requires id in s.server.tasks
  {
    WithServer(s, SetPhase(s.server, id, WritingEvent(event)))
      .(past := s.past.(yielded := s.past.yielded[id := EventsOf(s.past.yielded, id) + [event]]))
  }

  function AfterEventWritten(s: State, id: Id): State
    requires id in s.server.tasks && s.server.tasks[id].phase.WritingEvent?
  {
    var event := s.server.tasks[id].phase.event;
    var t := WithServer(s, SetPhase(s.server, id, Handling));
    if s.broken then t
    else t.(toClient := t.toClient + [StreamEvent(id, event)],
            past := t.past.(sent := t.past.sent[id := EventsOf(t.past.sent, id) + [event]]))
  }

  function AfterReplyWritten(s: State, id: Id): State
    requires id in s.server.tasks && s.server.tasks[id].phase.Replying?
  {
    var reply := s.server.tasks[id].phase.reply;
    var t := WithServer(s, SetPhase(s.server, id, Replied));
    if s.broken then t
    else t.(toClient := t.toClient + [Response(id, reply)],
            past := t.past.(produced := t.past.produced[id := reply]))
  }

  function AfterAskOpens(s: State, tool: Tool): State {
    WithServer(s, OpenAsk(s.server, tool)).(past := s.past.(asked := s.past.asked[s.server.nextOut := tool]))
  }

  function AfterAskFinishes(s: State, oid: Oid): State
    requires oid in s.server.asks && s.server.asks[oid].answer.Some?
  {
    var a := s.server.asks[oid];
    var t := WithServer(s, FinishAsk(s.server, oid));
    if Grants(a.answer.value) then t.(past := t.past.(grants := t.past.grants + [ByAnswer(a.tool, oid)])) else t
  }

  function Next(s: State, step: Step): State
    requires Enabled(s, step)
  {
    match step
    case Send(call, written) => AfterSend(s, call, written)
    case SendWriteFails(id) =>
      s.(client := RejectWrite(s.client, id), past := s.past.(unwritten := s.past.unwritten + {id}))
    case SendCancel(id) => ClientPuts(s, CancelNote(id))
    case SendExit => ClientPuts(s, ExitNote)
    case ClientReads => AfterClientReads(s)
    case ClientReadFails => s.(client := FailAll(s.client))
    case Answers(oid, answer, written, again) => AfterAnswers(s, oid, answer, written, again)
    case ServerReceives => AfterReceives(s)
    case ServerStopsReading => WithServer(s, s.server.(reading := false))
    case ServerCloses => ServerPuts(WithServer(s, s.server.(closed := true)), EndOfStream)
    case TaskStarts(id) => AfterStart(s, id)
    case StreamYields(id, event) => AfterYields(s, id, event)
    case EventWritten(id) => AfterEventWritten(s, id)
    case EventAbandoned(id, code) => WithServer(s, BeginReply(s.server, id, Error(code)))
    case HandlerReturns(id, reply) => WithServer(s, BeginReply(s.server, id, reply))
    case ReplyWritten(id) => AfterReplyWritten(s, id)
    case ReplyLost(id) =>
      WithServer(s, EndTask(s.server, id)).(past := s.past.(lost := s.past.lost + {id}))
    case ReplyUnencodable(id) =>
      WithServer(s, EndTask(s.server, id))
        .(past := s.past.(lost := s.past.lost + {id}, unencodable := s.past.unencodable + {id}))
    case TaskEnds(id) => WithServer(s, EndTask(s.server, id))
    case ResolveCached(tool) => s.(past := s.past.(grants := s.past.grants + [ByCache(tool)]))
    case AskOpens(tool) => AfterAskOpens(s, tool)
    case AskWritten(oid) => ServerPuts(WithServer(s, MarkWritten(s.server, oid)), Ask(oid, s.server.asks[oid].tool))
    case AskCancelled(oid) => WithServer(s, DropAsk(s.server, oid))
    case AskFinishes(oid) => AfterAskFinishes(s, oid)
    case TransportBreaks(i, j) =>
      s.(broken := true, toServer := s.toServer[..i], toClient := s.toClient[..j] + [EndOfStream])
  }

  /** A run of the system: every interleaving of the two sides is one. */
  ghost predicate IsRun(states: seq<State>, steps: seq<Step>) {
    && |states| == |steps| + 1
    && states[0] == INITIAL
    && forall i :: 0 <= i < |steps| ==> Enabled(states[i], steps[i]) && states[i + 1] == Next(states[i], steps[i])
  }
}
