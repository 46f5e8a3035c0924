/** What a send handle is given is what its own request's stream yielded, in order, whole when
    the request completes and complete before its promise settles. */
module BridgeStreams {
  import opened Prelude
  import opened BridgeModel
  import opened BridgeSystem
  import opened BridgeReplies

  function EventsIn(q: seq<ToClient>, id: Id): seq<Json> {
    if q == [] then []
    else (if q[0].StreamEvent? && q[0].id == id then [q[0].event] else []) + EventsIn(q[1..], id)
  }

  /** No event of the request follows its response. */
  predicate Quiet(q: seq<ToClient>, id: Id) {
    q == []
    || if q[0].Response? && q[0].id == id then EventsIn(q[1..], id) == [] else Quiet(q[1..], id)
  }

  lemma {:induction false} EventsPut(q: seq<ToClient>, m: ToClient, id: Id)
    ensures EventsIn(q + [m], id) == EventsIn(q, id) + if m.StreamEvent? && m.id == id then [m.event] else []
  {
    if q == [] {
      assert [m][1..] == [];
    } else {
      EventsPut(q[1..], m, id);
      assert (q + [m])[1..] == q[1..] + [m];
    }
  }

  lemma {:induction false} QuietPut(q: seq<ToClient>, m: ToClient, id: Id)
    requires Quiet(q, id)
    requires m.StreamEvent? && m.id == id ==> Responses(q, id) == 0
    ensures Quiet(q + [m], id)
  {
    if q == [] {
      assert [m][1..] == [];
    } else {
      assert (q + [m])[1..] == q[1..] + [m];
      if q[0].Response? && q[0].id == id {
        EventsPut(q[1..], m, id);
      } else {
        QuietPut(q[1..], m, id);
      }
    }
  }

  lemma {:induction false} EventsPrefix(q: seq<ToClient>, k: nat, id: Id)
    requires k <= |q|
    ensures EventsIn(q[..k], id) <= EventsIn(q, id)
  {
    if k > 0 {
      assert q[..k][1..] == q[1..][..k - 1];
      EventsPrefix(q[1..], k - 1, id);
    }
  }

  lemma {:induction false} QuietCut(q: seq<ToClient>, k: nat, id: Id)
    requires k <= |q| && Quiet(q, id)
    ensures Quiet(q[..k], id)
    ensures Responses(q[..k], id) > 0 ==> EventsIn(q[..k], id) == EventsIn(q, id)
  {
    if k > 0 {
      var r := q[1..];
      assert q[..k][0] == q[0] && q[..k][1..] == r[..k - 1];
      if q[0].Response? && q[0].id == id {
        EventsPrefix(r, k - 1, id);
        assert EventsIn(r[..k - 1], id) == [];
      } else {
        QuietCut(r, k - 1, id);
      }
    }
  }

  lemma {:induction false} NoEventsQuiet(q: seq<ToClient>, id: Id)
    ensures EventsIn(q, id) == [] ==> Quiet(q, id)
  {
    if q != [] {
      NoEventsQuiet(q[1..], id);
    }
  }

  // ---- the invariant -----------------------------------------------------------------------

  function Yielded(s: State, id: Id): seq<Json> { EventsOf(s.past.yielded, id) }
  function Sent(s: State, id: Id): seq<Json> { EventsOf(s.past.sent, id) }
  function Delivered(s: State, id: Id): seq<Json> { EventsOf(s.client.delivered, id) }

  predicate IsSend(s: State, id: Id) {
    id in s.past.requested && s.past.requested[id] == SendMessage
  }

  /** How far the handler's task has put on the channel what its stream yielded. */
  predicate TaskSent(s: State, id: Id) {
    id in s.server.tasks ==>
      var phase := s.server.tasks[id].phase;
      && (phase.Spawned? || phase.Handling? ==> Sent(s, id) == Yielded(s, id))
      && (phase.WritingEvent? ==> Sent(s, id) + [phase.event] == Yielded(s, id))
      && (phase.Replying? && phase.reply.Result? && IsSend(s, id) ==> Sent(s, id) == Yielded(s, id))
  }

  predicate StreamAt(s: State, id: Id) {
    && Quiet(s.toClient, id)
    && (EventsIn(s.toClient, id) != [] || Yielded(s, id) != [] || Sent(s, id) != [] || Delivered(s, id) != [] ==>
          id in s.past.requested)
    && Delivered(s, id) <= Sent(s, id) <= Yielded(s, id)
    && (Requests(s.toServer, id) > 0 ==> Yielded(s, id) == [])
    && (!s.broken ==> TaskSent(s, id))
    && (id in s.client.inflight <==> id in s.client.pending && IsSend(s, id))
    && (id in s.client.inflight ==> Delivered(s, id) + EventsIn(s.toClient, id) <= Sent(s, id))
    && (id in s.client.inflight && (!s.broken || Responses(s.toClient, id) > 0) ==>
          Delivered(s, id) + EventsIn(s.toClient, id) == Sent(s, id))
    && (id in s.past.produced && s.past.produced[id].Result? && IsSend(s, id) ==> Sent(s, id) == Yielded(s, id))
    && (IsSend(s, id) && Calls(s.client, id) != [] && Calls(s.client, id)[0].Resolved? ==>
          Delivered(s, id) == Yielded(s, id))
  }

  ghost predicate Streams(s: State) {
    forall id :: StreamAt(s, id)
  }

  // ---- every step keeps it ------------------------------------------------------------------

  lemma SendStream(s: State, call: Call, written: bool, id: Id)
    requires Replies(s) && Streams(s)
    ensures StreamAt(AfterSend(s, call, written), id)
  {
    assert At(s, id) && StreamAt(s, id);
    RequestsPut(s.toServer, Request(s.client.nextId, call), id);
    if id == s.client.nextId {
      NewSendStream(s, call, written);
    } else {
      OldSendStream(s, call, written, id);
    }
  }

  lemma NewSendStream(s: State, call: Call, written: bool)
    requires At(s, s.client.nextId) && StreamAt(s, s.client.nextId)
    ensures StreamAt(AfterSend(s, call, written), s.client.nextId)
  {
    var id := s.client.nextId;
    var t := AfterSend(s, call, written);
    assert id !in s.past.requested && id !in s.server.tasks && id !in s.past.produced && id !in s.client.promises;
    assert EventsIn(t.toClient, id) == [] && Quiet(t.toClient, id);
    NothingYetStream(t, id);
  }

  lemma NothingYetStream(t: State, id: Id)
    requires Quiet(t.toClient, id) && EventsIn(t.toClient, id) == []
    requires Yielded(t, id) == Sent(t, id) == Delivered(t, id) == []
    requires id !in t.server.tasks && id !in t.past.produced && Calls(t.client, id) == []
    requires id in t.client.inflight <==> id in t.client.pending && IsSend(t, id)
    ensures StreamAt(t, id)
  {
  }

  lemma OldSendStream(s: State, call: Call, written: bool, id: Id)
    requires At(s, id) && StreamAt(s, id) && id != s.client.nextId
    ensures StreamAt(AfterSend(s, call, written), id)
  {
    RequestsPut(s.toServer, Request(s.client.nextId, call), id);
    var t := AfterSend(s, call, written);
    assert Yielded(t, id) == Yielded(s, id) && Sent(t, id) == Sent(s, id) && Delivered(t, id) == Delivered(s, id);
    assert IsSend(t, id) == IsSend(s, id) && Calls(t.client, id) == Calls(s.client, id);
    assert Requests(t.toServer, id) == Requests(s.toServer, id);
  }

  lemma ServerPutsStream(s: State, m: ToClient, id: Id)
    requires StreamAt(s, id) && !m.Response? && !m.StreamEvent?
    ensures StreamAt(ServerPuts(s, m), id)
  {
    EventsPut(s.toClient, m, id);
    QuietPut(s.toClient, m, id);
    ResponsesPut(s.toClient, m, id);
  }

  lemma EventWrittenStream(s: State, x: Id, id: Id)
    requires Replies(s) && Streams(s) && Enabled(s, EventWritten(x))
    ensures StreamAt(Next(s, EventWritten(x)), id)
  {
    hide At, StreamAt, FramesFit;
    assert At(s, id) && StreamAt(s, id);
    if id == x {
      OwnEventStream(s, id);
    } else {
      OtherEventStream(s, x, id);
    }
  }

  lemma OwnEventStream(s: State, id: Id)
    requires At(s, id) && StreamAt(s, id) && Enabled(s, EventWritten(id))
    ensures StreamAt(AfterEventWritten(s, id), id)
  {
    var m := StreamEvent(id, s.server.tasks[id].phase.event);
    EventsPut(s.toClient, m, id);
    QuietPut(s.toClient, m, id);
    ResponsesPut(s.toClient, m, id);
  }

  lemma OtherEventStream(s: State, x: Id, id: Id)
    requires StreamAt(s, id) && Enabled(s, EventWritten(x)) && x != id
    ensures StreamAt(AfterEventWritten(s, x), id)
  {
    hide Quiet, EventsIn, Requests, Responses;
    var m := StreamEvent(x, s.server.tasks[x].phase.event);
    EventsPut(s.toClient, m, id);
    QuietPut(s.toClient, m, id);
    ResponsesPut(s.toClient, m, id);
    assert Sent(AfterEventWritten(s, x), id) == Sent(s, id);
  }

  lemma ReplyWrittenStream(s: State, x: Id, id: Id)
    requires Replies(s) && Streams(s) && Enabled(s, ReplyWritten(x))
    ensures StreamAt(Next(s, ReplyWritten(x)), id)
  {
    assert At(s, id) && StreamAt(s, id);
    var m := Response(x, s.server.tasks[x].phase.reply);
    EventsPut(s.toClient, m, id);
    QuietPut(s.toClient, m, id);
    ResponsesPut(s.toClient, m, id);
  }

  lemma ReadsResponseStream(s: State, id: Id)
    requires At(s, id) && StreamAt(s, id) && FramesFit(s) && s.toClient != [] && s.toClient[0].Response?
    ensures StreamAt(AfterClientReads(s), id)
  {
    hide At, StreamAt;
    assert s.toClient[0] in s.toClient;
    if s.toClient[0].id == id {
      OwnResponseStream(s, id);
    } else {
      OtherResponseStream(s, id);
    }
  }

  lemma OwnResponseStream(s: State, id: Id)
    requires At(s, id) && StreamAt(s, id) && s.toClient != [] && s.toClient[0].Response? && s.toClient[0].id == id
    requires id in s.past.produced && s.past.produced[id] == s.toClient[0].reply
    ensures StreamAt(AfterClientReads(s), id)
  {
    hide Requests;
    NoEventsQuiet(s.toClient[1..], id);
  }

  lemma OtherResponseStream(s: State, id: Id)
    requires StreamAt(s, id) && s.toClient != [] && s.toClient[0].Response? && s.toClient[0].id != id
    ensures StreamAt(AfterClientReads(s), id)
  {
    hide Requests, EventsIn, Quiet, Responses;
    OtherFrame(s.toClient, id);
    var t := AfterClientReads(s);
    assert Calls(t.client, id) == Calls(s.client, id);
  }

  lemma OtherFrame(q: seq<ToClient>, id: Id)
    requires q != [] && ((q[0].Response? || q[0].StreamEvent?) ==> q[0].id != id)
    ensures EventsIn(q[1..], id) == EventsIn(q, id)
    ensures Quiet(q[1..], id) == Quiet(q, id)
    ensures Responses(q[1..], id) == Responses(q, id)
  {
  }

  lemma ReadsEventStream(s: State, id: Id)
    requires StreamAt(s, id) && s.toClient != [] && s.toClient[0].StreamEvent?
    ensures StreamAt(AfterClientReads(s), id)
  {
    hide StreamAt;
    if s.toClient[0].id == id {
      OwnEventRead(s, id);
    } else {
      OtherEventRead(s, id);
    }
  }

  lemma OwnEventRead(s: State, id: Id)
    requires StreamAt(s, id) && s.toClient != [] && s.toClient[0].StreamEvent? && s.toClient[0].id == id
    ensures StreamAt(AfterClientReads(s), id)
  {
    hide Requests;
    Shift(Delivered(s, id), s.toClient[0].event, EventsIn(s.toClient[1..], id));
  }

  lemma OtherEventRead(s: State, id: Id)
    requires StreamAt(s, id) && s.toClient != [] && s.toClient[0].StreamEvent? && s.toClient[0].id != id
    ensures StreamAt(AfterClientReads(s), id)
  {
    hide Requests, EventsIn, Quiet, Responses;
    OtherFrame(s.toClient, id);
    assert Delivered(AfterClientReads(s), id) == Delivered(s, id);
  }

  lemma ClientReadsStream(s: State, id: Id)
    requires Replies(s) && Streams(s) && Enabled(s, ClientReads)
    ensures StreamAt(Next(s, ClientReads), id)
  {
    hide At, StreamAt, FramesFit;
    assert At(s, id) && StreamAt(s, id);
    var m := s.toClient[0];
    if m.Response? {
      ReadsResponseStream(s, id);
    } else if m.StreamEvent? {
      ReadsEventStream(s, id);
    } else {
      ReadsOtherStream(s, id);
    }
  }

  lemma ReadsOtherStream(s: State, id: Id)
    requires At(s, id) && StreamAt(s, id) && s.toClient != []
    requires !s.toClient[0].Response? && !s.toClient[0].StreamEvent?
    ensures StreamAt(AfterClientReads(s), id)
  {
    if s.toClient[0].EndOfStream? {
      FailAllStream(s, id);
    }
  }

  lemma TransportBreaksStream(s: State, i: nat, j: nat, id: Id)
    requires Replies(s) && Streams(s) && Enabled(s, TransportBreaks(i, j))
    ensures StreamAt(Next(s, TransportBreaks(i, j)), id)
  {
    assert StreamAt(s, id);
    RequestsCut(s.toServer, i, id);
    EventsPrefix(s.toClient, j, id);
    QuietCut(s.toClient, j, id);
    ResponsesCut(s.toClient, j, id);
    EventsPut(s.toClient[..j], EndOfStream, id);
    QuietPut(s.toClient[..j], EndOfStream, id);
    ResponsesPut(s.toClient[..j], EndOfStream, id);
  }

  lemma FailAllStream(s: State, id: Id)
    requires StreamAt(s, id) && At(s, id)
    ensures StreamAt(s.(client := FailAll(s.client)), id)
  {
  }

  lemma RejectWriteStream(s: State, x: Id, id: Id)
    requires StreamAt(s, id) && At(s, id)
    ensures StreamAt(s.(client := RejectWrite(s.client, x)), id)
  {
  }

  /** A step that leaves the client and its channel alone and keeps each task's progress. */
  lemma SameProgressStream(s: State, t: State, id: Id)
    requires StreamAt(s, id)
    requires t.toClient == s.toClient && t.broken == s.broken && t.client == s.client
    requires Requests(t.toServer, id) <= Requests(s.toServer, id)
    requires t.past.requested == s.past.requested && t.past.produced == s.past.produced
    requires t.past.yielded == s.past.yielded && t.past.sent == s.past.sent
    requires TaskSent(s, id) ==> TaskSent(t, id)
    ensures StreamAt(t, id)
  {
  }

  lemma CancelKeepsPhase(v: Server, target: Id, id: Id)
    ensures id in CancelTask(v, target).tasks <==> id in v.tasks
    ensures id in v.tasks ==> CancelTask(v, target).tasks[id].phase == v.tasks[id].phase
  {
  }

  lemma ServerReceivesStream(s: State, id: Id)
    requires Replies(s) && Streams(s) && Enabled(s, ServerReceives)
    ensures StreamAt(Next(s, ServerReceives), id)
  {
    hide At, StreamAt, FramesFit;
    assert StreamAt(s, id);
    if s.toServer[0].Request? {
      ReceivesRequestStream(s, id);
    } else {
      ReceivesOtherStream(s, id);
    }
  }

  lemma ReceivesRequestStream(s: State, id: Id)
    requires StreamAt(s, id) && s.toServer != [] && s.toServer[0].Request?
    ensures StreamAt(AfterReceives(s), id)
  {
    SameProgressStream(s, AfterReceives(s), id);
  }

  lemma ReceivesOtherStream(s: State, id: Id)
    requires StreamAt(s, id) && s.toServer != [] && !s.toServer[0].Request?
    ensures StreamAt(AfterReceives(s), id)
  {
    hide StreamAt;
    var m := s.toServer[0];
    if m.CancelNote? {
      CancelKeepsPhase(s.server, m.id, id);
    } else {
      assert Receive(s.server, m).tasks == s.server.tasks;
    }
    SameProgressStream(s, AfterReceives(s), id);
  }

  lemma StartCancelPhases(w: Server, x: Id, target: Option<Id>, id: Id)
    requires x in w.tasks
    ensures id in StartCancel(w, x, target).tasks <==> id in w.tasks
    ensures id in w.tasks && id != x ==> StartCancel(w, x, target).tasks[id].phase == w.tasks[id].phase
    ensures StartCancel(w, x, target).tasks[x].phase.Replying?
  {
    if target.Some? {
      var b := BeginReply(w, x, Result(if Cancellable(w, target.value) then "true" else "false"));
      CancelKeepsPhase(b, target.value, id);
      CancelKeepsPhase(b, target.value, x);
    }
  }

  lemma StartPhases(v: Server, x: Id, id: Id)
    requires x in v.tasks && v.tasks[x].phase == Spawned
    ensures id in Start(v, x).tasks <==> id in v.tasks
    ensures id in v.tasks && id != x ==> Start(v, x).tasks[id].phase == v.tasks[id].phase
    ensures var phase := Start(v, x).tasks[x].phase;
            phase.Handling? || (phase.Replying? && (phase.reply.Result? ==> v.tasks[x].call != SendMessage))
  {
    hide StartCancel;
    var call := v.tasks[x].call;
    if call.Cancel? {
      StartCancelPhases(Register(v, x), x, call.target, id);
    }
  }

  lemma TaskStartsStream(s: State, x: Id, id: Id)
    requires Replies(s) && Streams(s) && Enabled(s, TaskStarts(x))
    ensures StreamAt(Next(s, TaskStarts(x)), id)
  {
    hide StreamAt, At, FramesFit, Start;
    assert StreamAt(s, id) && At(s, id);
    StartPhases(s.server, x, id);
    SameProgressStream(s, Next(s, TaskStarts(x)), id);
  }

  lemma StreamYieldsStream(s: State, x: Id, event: Json, id: Id)
    requires Replies(s) && Streams(s) && Enabled(s, StreamYields(x, event))
    ensures StreamAt(Next(s, StreamYields(x, event)), id)
  {
    assert StreamAt(s, id) && At(s, id);
  }

  lemma ClientPutsStream(s: State, m: ToServer, id: Id)
    requires StreamAt(s, id) && !m.Request?
    ensures StreamAt(ClientPuts(s, m), id)
  {
    RequestsPut(s.toServer, m, id);
  }

  lemma AnswersStream(s: State, oid: Oid, answer: Answer, written: bool, again: bool, id: Id)
    requires StreamAt(s, id)
    ensures StreamAt(AfterAnswers(s, oid, answer, written, again), id)
  {
    hide StreamAt;
    var c, p := s.client.(answering := s.client.answering - {oid}), s.past.(answers := s.past.answers[oid := answer]);
    AnswerNotedStream(s, oid, answer, id);
    var t := s.(client := c, past := p);
    ClientPutsStream(t, Answered(oid, answer), id);
    var u := if written then ClientPuts(t, Answered(oid, answer)) else t;
    ClientPutsStream(u, Answered(oid, ClientError), id);
  }

  lemma AnswerNotedStream(s: State, oid: Oid, answer: Answer, id: Id)
    requires StreamAt(s, id)
    ensures StreamAt(s.(client := s.client.(answering := s.client.answering - {oid}),
                        past := s.past.(answers := s.past.answers[oid := answer])), id)
  {
  }

  lemma StepStream(s: State, step: Step, id: Id)
    requires Replies(s) && Streams(s) && Enabled(s, step)
    ensures StreamAt(Next(s, step), id)
  {
    assert StreamAt(s, id) && At(s, id);
    if step.Send? {
      SendStream(s, step.call, step.written, id);
    } else if step.SendWriteFails? {
      RejectWriteStream(s, step.id, id);
    } else if step.SendCancel? {
      ClientPutsStream(s, CancelNote(step.id), id);
    } else if step.SendExit? {
      ClientPutsStream(s, ExitNote, id);
    } else if step.ClientReads? {
      ClientReadsStream(s, id);
    } else if step.ClientReadFails? {
      FailAllStream(s, id);
    } else if step.Answers? {
      AnswersStream(s, step.oid, step.answer, step.written, step.again, id);
    } else if step.ServerReceives? {
      ServerReceivesStream(s, id);
    } else if step.TransportBreaks? {
      TransportBreaksStream(s, step.keepToServer, step.keepToClient, id);
    } else {
      ServerStepStream(s, step, id);
    }
  }

  predicate OnServer(step: Step) {
    step.ServerStopsReading? || step.ServerCloses? || step.TaskStarts? || step.StreamYields? || step.EventWritten?
    || step.EventAbandoned? || step.HandlerReturns? || step.ReplyWritten? || step.ReplyLost?
    || step.ReplyUnencodable? || step.TaskEnds? || step.ResolveCached? || step.AskOpens? || step.AskWritten?
    || step.AskCancelled? || step.AskFinishes?
  }

  lemma ServerStepStream(s: State, step: Step, id: Id)
    requires Replies(s) && Streams(s) && Enabled(s, step) && OnServer(step)
    ensures StreamAt(Next(s, step), id)
  {
    assert StreamAt(s, id) && At(s, id);
    if step.ServerCloses? {
      var t := WithServer(s, s.server.(closed := true));
      SameProgressStream(s, t, id);
      ServerPutsStream(t, EndOfStream, id);
    } else if step.TaskStarts? {
      TaskStartsStream(s, step.id, id);
    } else if step.StreamYields? {
      StreamYieldsStream(s, step.id, step.event, id);
    } else if step.EventWritten? {
      EventWrittenStream(s, step.id, id);
    } else if step.ReplyWritten? {
      ReplyWrittenStream(s, step.id, id);
    } else if step.AskWritten? {
      var t := WithServer(s, MarkWritten(s.server, step.oid));
      SameProgressStream(s, t, id);
      ServerPutsStream(t, Ask(step.oid, s.server.asks[step.oid].tool), id);
    } else if EndsOrReplies(step) {
      TaskStepStream(s, step, id);
    } else {
      ResolverStepStream(s, step, id);
    }
  }

  predicate EndsOrReplies(step: Step) {
    step.EventAbandoned? || step.HandlerReturns? || step.ReplyLost? || step.ReplyUnencodable? || step.TaskEnds?
  }

  lemma TaskStepStream(s: State, step: Step, id: Id)
    requires StreamAt(s, id) && Enabled(s, step) && EndsOrReplies(step)
    ensures StreamAt(Next(s, step), id)
  {
    hide StreamAt;
    if step.EventAbandoned? {
      SameProgressStream(s, WithServer(s, BeginReply(s.server, step.id, Error(step.code))), id);
    } else if step.HandlerReturns? {
      SameProgressStream(s, WithServer(s, BeginReply(s.server, step.id, step.reply)), id);
    } else {
      TaskEndsStream(s, step, id);
    }
  }

  lemma TaskEndsStream(s: State, step: Step, id: Id)
    requires StreamAt(s, id) && Enabled(s, step) && EndsTask(step)
    ensures StreamAt(Next(s, step), id)
  {
    hide StreamAt;
    var t := WithServer(s, EndTask(s.server, step.id));
    SameProgressStream(s, t, id);
    SameTasksStream(t, Next(s, step), id);
  }

  predicate OnResolver(step: Step) {
    step.ServerStopsReading? || step.ResolveCached? || step.AskOpens? || step.AskCancelled? || step.AskFinishes?
  }

  lemma ResolverStepStream(s: State, step: Step, id: Id)
    requires StreamAt(s, id) && Enabled(s, step) && OnResolver(step)
    ensures StreamAt(Next(s, step), id)
  {
    hide StreamAt;
    if step.ServerStopsReading? {
      SameTasksStream(s, WithServer(s, s.server.(reading := false)), id);
    } else if step.ResolveCached? {
      SameTasksStream(s, s.(past := s.past.(grants := s.past.grants + [ByCache(step.tool)])), id);
    } else if step.AskOpens? {
      SameTasksStream(s, AfterAskOpens(s, step.tool), id);
    } else if step.AskCancelled? {
      SameTasksStream(s, WithServer(s, DropAsk(s.server, step.oid)), id);
    } else {
      SameTasksStream(s, AfterAskFinishes(s, step.oid), id);
    }
  }

  lemma SameTasksStream(s: State, t: State, id: Id)
    requires StreamAt(s, id)
    requires t.toClient == s.toClient && t.broken == s.broken && t.client == s.client && t.toServer == s.toServer
    requires t.past.requested == s.past.requested && t.past.produced == s.past.produced
    requires t.past.yielded == s.past.yielded && t.past.sent == s.past.sent
    requires t.server.tasks == s.server.tasks
    ensures StreamAt(t, id)
  {
    SameProgressStream(s, t, id);
  }

  lemma {:induction false} StreamsHold(states: seq<State>, steps: seq<Step>, k: nat)
    requires IsRun(states, steps) && k < |states|
    ensures Streams(states[k])
  {
    if k > 0 {
      StreamsHold(states, steps, k - 1);
      RepliesHold(states, steps, k - 1);
      forall id ensures StreamAt(states[k], id) {
        StepStream(states[k - 1], steps[k - 1], id);
      }
    }
  }

  // ---- what a run guarantees -----------------------------------------------------------------

  /** At every moment of every run a handle has been given a prefix of what its own request's
      stream yielded, and the whole of it once its promise has been resolved. */
  lemma HandleSeesItsStream(states: seq<State>, steps: seq<Step>, k: nat, id: Id)
    requires IsRun(states, steps) && k < |states|
    ensures Delivered(states[k], id) <= Yielded(states[k], id)
    ensures var s := states[k];
            IsSend(s, id) && Calls(s.client, id) != [] && Calls(s.client, id)[0].Resolved? ==>
              Delivered(s, id) == Yielded(s, id)
  {
    StreamsHold(states, steps, k);
    assert StreamAt(states[k], id);
  }

  /** Once its promise is settled, in whatever way, a handle is given nothing more. */
  lemma {:induction false} NothingAfterSettling(states: seq<State>, steps: seq<Step>, j: nat, k: nat, id: Id)
    requires IsRun(states, steps) && j <= k < |states|
    requires Calls(states[j].client, id) != []
    ensures Delivered(states[k], id) == Delivered(states[j], id)
    decreases k - j
  {
    if j < k {
      NothingAfterSettling(states, steps, j, k - 1, id);
      SettledForGood(states, steps, j, k - 1, id);
      RepliesHold(states, steps, k - 1);
      StreamsHold(states, steps, k - 1);
      SettledGetsNothing(states[k - 1], steps[k - 1], id);
    }
  }

  lemma SettledGetsNothing(s: State, step: Step, id: Id)
    requires Replies(s) && Streams(s) && Enabled(s, step) && Calls(s.client, id) != []
    ensures Delivered(Next(s, step), id) == Delivered(s, id)
  {
    assert At(s, id) && StreamAt(s, id) && At(s, s.client.nextId);
    if step.ClientReads? {
      assert Delivered(Next(s, step), id) == Delivered(s, id);
    } else if step.Send? {
      assert id != s.client.nextId;
    } else {
      OtherStepsDeliverNothing(s, step);
    }
  }

  lemma OtherStepsDeliverNothing(s: State, step: Step)
    requires Enabled(s, step) && !step.Send? && !step.ClientReads?
    ensures Next(s, step).client.delivered == s.client.delivered
  {
    hide Start, Receive, Dispatch, FailAll, RejectWrite, AfterSend, AfterClientReads, AfterStart, AfterReceives;
    if step.SendWriteFails? || step.ClientReadFails? {
      FailuresDeliverNothing(s.client, step);
    } else if step.ServerReceives? {
      ReceivesLeavesClient(s);
    } else if step.TaskStarts? {
      StartLeavesClient(s, step.id);
    }
  }

  lemma FailuresDeliverNothing(c: Client, step: Step)
    ensures step.SendWriteFails? ==> RejectWrite(c, step.id).delivered == c.delivered
    ensures FailAll(c).delivered == c.delivered
  {
  }

  lemma ReceivesLeavesClient(s: State)
    requires s.toServer != []
    ensures AfterReceives(s).client == s.client
  {
    hide Receive;
  }

  lemma StartLeavesClient(s: State, x: Id)
    requires x in s.server.tasks
    ensures AfterStart(s, x).client == s.client
  {
    hide Start;
  }
}
