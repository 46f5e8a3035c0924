/** Every request is in at most one place at a time and is answered at most once, with the
    reply its own task produced, over every run of the system. */
module BridgeReplies {
  import opened Prelude
  import opened BridgeModel
  import opened BridgeSystem

  // ---- where a request can be --------------------------------------------------------------

  function Requests(q: seq<ToServer>, id: Id): nat {
    if q == [] then 0 else (if q[0].Request? && q[0].id == id then 1 else 0) + Requests(q[1..], id)
  }

  function Responses(q: seq<ToClient>, id: Id): nat {
    if q == [] then 0 else (if q[0].Response? && q[0].id == id then 1 else 0) + Responses(q[1..], id)
  }

  /** 1 while a task for the request exists and has not put its reply on the channel. */
  function Owed(v: Server, id: Id): nat {
    if id in v.tasks && v.tasks[id].phase != Replied then 1 else 0
  }

  function Places(s: State, id: Id): nat {
    Requests(s.toServer, id) + Owed(s.server, id) + Responses(s.toClient, id)
  }

  lemma {:induction false} RequestsPut(q: seq<ToServer>, m: ToServer, id: Id)
    ensures Requests(q + [m], id) == Requests(q, id) + if m.Request? && m.id == id then 1 else 0
  {
    if q == [] {
      assert [m][1..] == [];
    } else {
      RequestsPut(q[1..], m, id);
      assert (q + [m])[1..] == q[1..] + [m];
    }
  }

  lemma {:induction false} RequestsCut(q: seq<ToServer>, k: nat, id: Id)
    requires k <= |q|
    ensures Requests(q[..k], id) <= Requests(q, id)
  {
    if k > 0 {
      RequestsCut(q[1..], k - 1, id);
      assert q[..k][1..] == q[1..][..k - 1];
    }
  }

  lemma {:induction false} ResponsesPut(q: seq<ToClient>, m: ToClient, id: Id)
    ensures Responses(q + [m], id) == Responses(q, id) + if m.Response? && m.id == id then 1 else 0
  {
    if q == [] {
      assert [m][1..] == [];
    } else {
      ResponsesPut(q[1..], m, id);
      assert (q + [m])[1..] == q[1..] + [m];
    }
  }

  lemma {:induction false} ResponsesCut(q: seq<ToClient>, k: nat, id: Id)
    requires k <= |q|
    ensures Responses(q[..k], id) <= Responses(q, id)
  {
    if k > 0 {
      ResponsesCut(q[1..], k - 1, id);
      assert q[..k][1..] == q[1..][..k - 1];
    }
  }

  // ---- the invariant -----------------------------------------------------------------------

  predicate Known(s: State, id: Id) {
    1 <= id < s.client.nextId
  }

  /** A promise ends with its own reply, with a disconnection, or with its failed write. */
  predicate SettlementFits(s: State, id: Id, how: Settlement) {
    || how == Disconnected
    || how == WriteRejected
    || (id in s.past.produced && how == SettlementOf(s.past.produced[id]))
  }

  /** All there is to say about one request id. */
  predicate At(s: State, id: Id) {
    // one place at most; ids come from the client's counter
    && Places(s, id) <= 1
    && (Places(s, id) > 0 || id in s.server.tasks || id in s.past.produced ==> id in s.past.requested)
    && (id in s.past.requested || id in s.client.promises ==> Known(s, id))
    // a task has taken its request off the channel, a produced reply has ended its task
    && (id in s.server.tasks ==>
          Requests(s.toServer, id) == 0 && s.past.requested[id] == s.server.tasks[id].call)
    && (id in s.past.produced ==> Requests(s.toServer, id) == 0 && Owed(s.server, id) == 0)
    // a promise is settled once, while pending, by a fitting outcome
    && (id in s.client.pending ==> id in s.client.promises && s.client.promises[id] == [])
    && (id in s.client.promises ==> id in s.past.requested && |s.client.promises[id]| <= 1)
    && (id in s.client.promises && s.client.promises[id] != [] ==>
          SettlementFits(s, id, s.client.promises[id][0]))
    // nothing awaited vanishes but for the named causes
    && (!s.broken && id in s.client.pending && id !in s.past.unwritten && id !in s.past.lost ==>
          Places(s, id) == 1)
    && (!s.broken && id in s.past.lost ==> id in s.past.cancelledLate || id in s.past.unencodable)
    && (id in s.server.tasks && s.server.tasks[id].cancel && s.server.tasks[id].phase.Replying? ==>
          id in s.past.cancelledLate)
  }

  /** Frames carry the request's own call and its own task's reply. */
  ghost predicate FramesFit(s: State) {
    && (forall m :: m in s.toServer && m.Request? ==>
          m.id in s.past.requested && s.past.requested[m.id] == m.call)
    && (forall m :: m in s.toClient && m.Response? ==>
          m.id in s.past.produced && s.past.produced[m.id] == m.reply)
  }

  ghost predicate Replies(s: State) {
    && s.client.nextId >= 1
    && (forall id :: At(s, id))
    && FramesFit(s)
  }

  // ---- every step keeps it ------------------------------------------------------------------

  lemma SendAt(s: State, call: Call, written: bool, id: Id)
    requires Replies(s)
    ensures At(AfterSend(s, call, written), id)
  {
    if id == s.client.nextId {
      NewSendAt(s, call, written);
    } else {
      OldSendAt(s, call, written, id);
    }
  }

  lemma NewSendAt(s: State, call: Call, written: bool)
    requires Replies(s)
    ensures At(AfterSend(s, call, written), s.client.nextId)
  {
    var id := s.client.nextId;
    RequestsPut(s.toServer, Request(id, call), id);
    assert At(s, id) && Places(s, id) == 0;
  }

  lemma OldSendAt(s: State, call: Call, written: bool, id: Id)
    requires Replies(s) && id != s.client.nextId
    ensures At(AfterSend(s, call, written), id)
  {
    RequestsPut(s.toServer, Request(s.client.nextId, call), id);
    assert At(s, id);
    assert Places(AfterSend(s, call, written), id) == Places(s, id);
  }

  lemma ClientPutsAt(s: State, m: ToServer, id: Id)
    requires At(s, id) && !m.Request?
    ensures At(ClientPuts(s, m), id)
  {
    RequestsPut(s.toServer, m, id);
  }

  lemma ServerPutsAt(s: State, m: ToClient, id: Id)
    requires At(s, id) && !m.Response?
    ensures At(ServerPuts(s, m), id)
  {
    ResponsesPut(s.toClient, m, id);
  }

  lemma ClientReadsAt(s: State, id: Id)
    requires Replies(s) && Enabled(s, ClientReads)
    ensures At(Next(s, ClientReads), id)
  {
    assert At(s, id);
    assert s.toClient[0] in s.toClient;
  }

  /** A step that at most re-labels tasks, and owns up to every late cancel, moves nothing. */
  lemma RelabelAt(s: State, t: State, id: Id)
    requires At(s, id)
    requires t.toServer == s.toServer && t.toClient == s.toClient && t.client == s.client && t.broken == s.broken
    requires s.past.requested == t.past.requested && s.past.produced == t.past.produced
    requires s.past.unwritten == t.past.unwritten && s.past.lost == t.past.lost
    requires s.past.cancelledLate <= t.past.cancelledLate && s.past.unencodable == t.past.unencodable
    requires id in t.server.tasks <==> id in s.server.tasks
    requires id in s.server.tasks ==>
               t.server.tasks[id].call == s.server.tasks[id].call && Owed(t.server, id) == Owed(s.server, id)
    requires id in t.server.tasks && t.server.tasks[id].cancel && t.server.tasks[id].phase.Replying? ==>
               id in t.past.cancelledLate || t.server.tasks[id] == s.server.tasks[id]
    ensures At(t, id)
  {
  }

  lemma ReceiveRequestAt(s: State, id: Id)
    requires Replies(s) && Enabled(s, ServerReceives) && s.toServer[0].Request?
    ensures At(Next(s, ServerReceives), id)
  {
    var m := s.toServer[0];
    assert m in s.toServer;
    assert At(s, id);
    if id != m.id {
      var v := Spawn(s.server, m.id, m.call);
      assert id in v.tasks ==> v.tasks[id] == s.server.tasks[id];
    }
  }

  lemma ReceiveOtherAt(s: State, id: Id)
    requires Replies(s) && Enabled(s, ServerReceives) && !s.toServer[0].Request?
    ensures At(Next(s, ServerReceives), id)
  {
    hide At, FramesFit;
    var m := s.toServer[0];
    var t := s.(toServer := s.toServer[1..]);
    DropAt(s, id);
    if m.CancelNote? {
      CancelTaskRelabels(s.server, m.id, id);
      var u := WithServer(t, CancelTask(s.server, m.id));
      RelabelAt(t, NoteLateCancel(u, m.id), id);
    } else {
      assert Receive(s.server, m).tasks == s.server.tasks;
      RelabelAt(t, Next(s, ServerReceives), id);
    }
  }

  lemma DropAt(s: State, id: Id)
    requires Replies(s) && s.toServer != [] && !s.toServer[0].Request?
    ensures At(s.(toServer := s.toServer[1..]), id)
  {
    assert At(s, id);
  }

  lemma TaskStartsAt(s: State, x: Id, id: Id)
    requires Replies(s) && Enabled(s, TaskStarts(x))
    ensures At(Next(s, TaskStarts(x)), id)
  {
    hide At, Start, FramesFit;
    assert At(s, id);
    StartRelabels(s.server, x, id);
    RelabelAt(s, Next(s, TaskStarts(x)), id);
  }

  /** Same tasks, same calls, nothing newly replied. */
  predicate SameTask(v: Server, w: Server, id: Id) {
    && (id in w.tasks <==> id in v.tasks)
    && (id in v.tasks ==> w.tasks[id].call == v.tasks[id].call && Owed(w, id) == Owed(v, id))
  }

  lemma CancelTaskRelabels(v: Server, target: Id, id: Id)
    ensures SameTask(v, CancelTask(v, target), id)
    ensures id != target && id in v.tasks ==> CancelTask(v, target).tasks[id] == v.tasks[id]
  {
  }

  lemma StartRelabels(v: Server, x: Id, id: Id)
    requires x in v.tasks && v.tasks[x].phase == Spawned
    ensures SameTask(v, Start(v, x), id)
    ensures id in v.tasks && Start(v, x).tasks[id].cancel && Start(v, x).tasks[id].phase.Replying? ==>
              Start(v, x).tasks[id] == v.tasks[id] || v.tasks[x].call == Cancel(Some(id))
  {
    hide StartCancel, CancelTask, Cancellable, BeginReply, Register;
    var call := v.tasks[x].call;
    RegisterRelabels(v, x, id);
    BeginReplyRelabels(v, x, Error(SHUTDOWN), id);
    BeginReplyRelabels(v, x, Error(METHOD_NOT_FOUND), id);
    BeginReplyRelabels(Register(v, x), x, Result("null"), id);
    if call.Cancel? {
      StartCancelRelabels(Register(v, x), x, call.target, id);
    }
  }

  lemma BeginReplyRelabels(v: Server, x: Id, reply: Reply, id: Id)
    requires x in v.tasks && v.tasks[x].phase != Replied
    ensures var w := BeginReply(v, x, reply);
            SameTask(v, w, id) && (id in v.tasks ==> !w.tasks[id].cancel || w.tasks[id] == v.tasks[id])
  {
  }

  lemma RegisterRelabels(v: Server, x: Id, id: Id)
    requires x in v.tasks && v.tasks[x].phase != Replied
    ensures var w := Register(v, x);
            SameTask(v, w, id) && (id in v.tasks ==> !w.tasks[id].cancel || w.tasks[id] == v.tasks[id])
    ensures x in Register(v, x).tasks && Register(v, x).tasks[x].phase == Handling
  {
  }

  lemma StartCancelRelabels(w: Server, x: Id, target: Option<Id>, id: Id)
    requires x in w.tasks && w.tasks[x].phase == Handling
    ensures SameTask(w, StartCancel(w, x, target), id)
    ensures id in w.tasks && StartCancel(w, x, target).tasks[id].cancel ==>
              StartCancel(w, x, target).tasks[id] == w.tasks[id] || target == Some(id)
  {
    hide BeginReply, CancelTask, Cancellable;
    BeginReplyRelabels(w, x, Error(INVALID_PARAMS), id);
    if target.Some? {
      var reply := Result(if Cancellable(w, target.value) then "true" else "false");
      BeginReplyRelabels(w, x, reply, id);
      CancelTaskRelabels(BeginReply(w, x, reply), target.value, id);
    }
  }

  lemma ReplyWrittenAt(s: State, x: Id, id: Id)
    requires Replies(s) && Enabled(s, ReplyWritten(x))
    ensures At(Next(s, ReplyWritten(x)), id)
  {
    assert At(s, id) && At(s, x);
    ResponsesPut(s.toClient, Response(x, s.server.tasks[x].phase.reply), id);
  }

  lemma TransportBreaksAt(s: State, i: nat, j: nat, id: Id)
    requires Replies(s) && Enabled(s, TransportBreaks(i, j))
    ensures At(Next(s, TransportBreaks(i, j)), id)
  {
    assert At(s, id);
    RequestsCut(s.toServer, i, id);
    ResponsesCut(s.toClient, j, id);
    ResponsesPut(s.toClient[..j], EndOfStream, id);
  }

  lemma AnswersAt(s: State, oid: Oid, answer: Answer, written: bool, again: bool, id: Id)
    requires At(s, id)
    ensures At(AfterAnswers(s, oid, answer, written, again), id)
  {
    hide At;
    var c, p := s.client.(answering := s.client.answering - {oid}), s.past.(answers := s.past.answers[oid := answer]);
    AnswerNotedAt(s, oid, answer, id);
    var t := s.(client := c, past := p);
    ClientPutsAt(t, Answered(oid, answer), id);
    var u := if written then ClientPuts(t, Answered(oid, answer)) else t;
    ClientPutsAt(u, Answered(oid, ClientError), id);
  }

  lemma AnswerNotedAt(s: State, oid: Oid, answer: Answer, id: Id)
    requires At(s, id)
    ensures At(s.(client := s.client.(answering := s.client.answering - {oid}),
                  past := s.past.(answers := s.past.answers[oid := answer])), id)
  {
  }

  lemma RelabelAndPutAt(s: State, v: Server, m: ToClient, id: Id)
    requires At(s, id) && v.tasks == s.server.tasks && !m.Response?
    ensures At(ServerPuts(WithServer(s, v), m), id)
  {
    hide At;
    RelabelAt(s, WithServer(s, v), id);
    ServerPutsAt(WithServer(s, v), m, id);
  }

  lemma EventWrittenAt(s: State, x: Id, id: Id)
    requires At(s, id) && Enabled(s, EventWritten(x))
    ensures At(AfterEventWritten(s, x), id)
  {
    var v := SetPhase(s.server, x, Handling);
    assert id in v.tasks ==> v.tasks[id].call == s.server.tasks[id].call && Owed(v, id) == Owed(s.server, id);
    RequestsPut(s.toServer, ExitNote, id);
    ResponsesPut(s.toClient, StreamEvent(x, s.server.tasks[x].phase.event), id);
  }

  /** Steps of the client, the read loops and the transport. */
  predicate MovesFrames(step: Step) {
    step.Send? || step.SendCancel? || step.SendExit? || step.ClientReads? || step.Answers? || step.ServerReceives?
    || step.ServerCloses? || step.EventWritten? || step.ReplyWritten? || step.AskWritten? || step.TransportBreaks?
  }

  lemma FrameStepAt(s: State, step: Step, id: Id)
    requires Replies(s) && Enabled(s, step) && MovesFrames(step)
    ensures At(Next(s, step), id)
  {
    hide At, FramesFit;
    assert At(s, id);
    match step
    case Send(call, written) => SendAt(s, call, written, id);
    case SendCancel(x) => ClientPutsAt(s, CancelNote(x), id);
    case SendExit => ClientPutsAt(s, ExitNote, id);
    case ClientReads => ClientReadsAt(s, id);
    case Answers(oid, answer, written, again) => AnswersAt(s, oid, answer, written, again, id);
    case ServerReceives => if s.toServer[0].Request? { ReceiveRequestAt(s, id); } else { ReceiveOtherAt(s, id); }
    case ServerCloses => RelabelAndPutAt(s, s.server.(closed := true), EndOfStream, id);
    case EventWritten(x) => EventWrittenAt(s, x, id);
    case ReplyWritten(x) => ReplyWrittenAt(s, x, id);
    case AskWritten(oid) =>
      RelabelAndPutAt(s, MarkWritten(s.server, oid), Ask(oid, s.server.asks[oid].tool), id);
    case TransportBreaks(i, j) => TransportBreaksAt(s, i, j, id);
  }

  lemma FailAllAt(s: State, id: Id)
    requires At(s, id)
    ensures At(s.(client := FailAll(s.client)), id)
  {
  }

  predicate EndsTask(step: Step) {
    step.ReplyLost? || step.ReplyUnencodable? || step.TaskEnds?
  }

  /** A task that ends has written its reply, or its request is lost for a named cause. */
  lemma TaskEndsAt(s: State, step: Step, id: Id)
    requires At(s, id) && Enabled(s, step) && EndsTask(step)
    ensures At(Next(s, step), id)
  {
    hide At;
    if step.TaskEnds? {
      RepliedTaskEndsAt(s, step.id, id);
    } else {
      assert s.past.unencodable + {} == s.past.unencodable;
      TaskLostAt(s, step.id, step.ReplyUnencodable?, id);
    }
  }

  lemma RepliedTaskEndsAt(s: State, x: Id, id: Id)
    requires At(s, id) && InPhase(s, x, Replied)
    ensures At(WithServer(s, EndTask(s.server, x)), id)
  {
    assert Owed(EndTask(s.server, x), id) == Owed(s.server, id);
  }

  lemma TaskLostAt(s: State, x: Id, unencodable: bool, id: Id)
    requires At(s, id) && x in s.server.tasks && s.server.tasks[x].phase.Replying?
    requires unencodable || s.server.tasks[x].cancel || s.broken
    ensures var more := if unencodable then {x} else {};
            At(WithServer(s, EndTask(s.server, x))
                 .(past := s.past.(lost := s.past.lost + {x}, unencodable := s.past.unencodable + more)), id)
  {
    assert id != x ==> Owed(EndTask(s.server, x), id) == Owed(s.server, id);
  }

  lemma LocalStepAt(s: State, step: Step, id: Id)
    requires Replies(s) && Enabled(s, step) && !MovesFrames(step)
    ensures At(Next(s, step), id)
  {
    hide At, FramesFit;
    assert At(s, id);
    if step.ClientReadFails? {
      FailAllAt(s, id);
    } else if step.SendWriteFails? {
      RejectWriteAt(s, step.id, id);
    } else if step.TaskStarts? {
      TaskStartsAt(s, step.id, id);
    } else if EndsTask(step) {
      TaskEndsAt(s, step, id);
    } else {
      WorkStepAt(s, step, id);
    }
  }

  lemma RejectWriteAt(s: State, x: Id, id: Id)
    requires At(s, id) && Enabled(s, SendWriteFails(x))
    ensures At(Next(s, SendWriteFails(x)), id)
  {
  }

  predicate OnHandler(step: Step) {
    step.StreamYields? || step.EventAbandoned? || step.HandlerReturns?
  }

  /** A handler at work, the permission resolver, and the end of the read loop. */
  lemma WorkStepAt(s: State, step: Step, id: Id)
    requires At(s, id) && Enabled(s, step) && !MovesFrames(step) && !EndsTask(step)
    requires !step.ClientReadFails? && !step.SendWriteFails? && !step.TaskStarts?
    ensures At(Next(s, step), id)
  {
    hide At, Start, Receive, FailAll, RejectWrite, AfterSend, AfterAnswers, AfterReceives, AfterStart;
    if OnHandler(step) {
      HandlerStepAt(s, step, id);
    } else {
      RelabelAt(s, Next(s, step), id);
    }
  }

  lemma HandlerStepAt(s: State, step: Step, id: Id)
    requires At(s, id) && Enabled(s, step) && OnHandler(step)
    ensures At(Next(s, step), id)
  {
    hide At;
    var phase := match step
      case StreamYields(_, event) => WritingEvent(event)
      case EventAbandoned(_, code) => Replying(Error(code))
      case HandlerReturns(_, reply) => Replying(reply);
    var task := s.server.tasks[step.id];
    var now := if step.StreamYields? then task.(phase := phase) else task.(phase := phase, cancel := false);
    assert Next(s, step).server.tasks == s.server.tasks[step.id := now];
    RelabelAt(s, Next(s, step), id);
  }

  lemma FrameStepFrames(s: State, step: Step)
    requires Replies(s) && Enabled(s, step) && MovesFrames(step)
    ensures FramesFit(Next(s, step))
  {
    match step
    case Send(call, written) => assert At(s, s.client.nextId);
    case ReplyWritten(x) => ReplyWrittenFrames(s, x);
    case Answers(oid, answer, written, again) => AnswersFrames(s, oid, answer, written, again);
    case ServerReceives => ReceivesFrames(s);
    case TransportBreaks(i, j) =>
    case _ =>
  }

  lemma ReplyWrittenFrames(s: State, x: Id)
    requires Replies(s) && Enabled(s, ReplyWritten(x))
    ensures FramesFit(Next(s, ReplyWritten(x)))
  {
    assert At(s, x);
  }

  lemma AnswersFrames(s: State, oid: Oid, answer: Answer, written: bool, again: bool)
    requires FramesFit(s)
    ensures FramesFit(AfterAnswers(s, oid, answer, written, again))
  {
  }

  lemma ReceivesFrames(s: State)
    requires FramesFit(s) && s.toServer != []
    ensures FramesFit(AfterReceives(s))
  {
    assert forall m :: m in s.toServer[1..] ==> m in s.toServer;
  }

  lemma RepliesKept(s: State, step: Step)
    requires Replies(s) && Enabled(s, step)
    ensures Replies(Next(s, step))
  {
    hide At, FramesFit, Next, Enabled;
    forall id ensures At(Next(s, step), id) {
      if MovesFrames(step) {
        FrameStepAt(s, step, id);
      } else {
        LocalStepAt(s, step, id);
      }
    }
    if MovesFrames(step) {
      FrameStepFrames(s, step);
    } else {
      LocalStepFrames(s, step);
    }
    CounterGrows(s, step);
  }

  lemma LocalStepFrames(s: State, step: Step)
    requires FramesFit(s) && Enabled(s, step) && !MovesFrames(step)
    ensures FramesFit(Next(s, step))
  {
    hide Next, Enabled, FramesFit;
    LocalStepsMoveNothing(s, step);
    SameFrames(s, Next(s, step));
  }

  lemma LocalStepsMoveNothing(s: State, step: Step)
    requires Enabled(s, step) && !MovesFrames(step)
    ensures var t := Next(s, step);
            && t.toServer == s.toServer && t.toClient == s.toClient
            && t.past.requested == s.past.requested && t.past.produced == s.past.produced
  {
    hide Start, Receive, Dispatch, FailAll, RejectWrite, AfterSend, AfterAnswers, AfterReceives, AfterClientReads;
  }

  lemma SameFrames(s: State, t: State)
    requires t.toServer == s.toServer && t.toClient == s.toClient
    requires t.past.requested == s.past.requested && t.past.produced == s.past.produced
    ensures FramesFit(s) ==> FramesFit(t)
  {
  }

  lemma CounterGrows(s: State, step: Step)
    requires Enabled(s, step)
    ensures Next(s, step).client.nextId >= s.client.nextId
  {
    hide Start, Receive, Next, Enabled;
    if step.Send? || step.ClientReads? || step.SendWriteFails? || step.ClientReadFails? {
      ClientStepCounter(s, step);
    } else {
      OtherStepsLeaveClient(s, step);
    }
  }

  lemma ClientStepCounter(s: State, step: Step)
    requires Enabled(s, step)
    requires step.Send? || step.ClientReads? || step.SendWriteFails? || step.ClientReadFails?
    ensures Next(s, step).client.nextId >= s.client.nextId
  {
    hide Start, Receive;
  }

  lemma {:induction false} RepliesHold(states: seq<State>, steps: seq<Step>, k: nat)
    requires IsRun(states, steps) && k < |states|
    ensures Replies(states[k])
  {
    if k > 0 {
      RepliesHold(states, steps, k - 1);
      RepliesKept(states[k - 1], steps[k - 1]);
    }
  }

  // ---- what a run guarantees -----------------------------------------------------------------

  /** At every moment of every run a request is in at most one place; while it is awaited it is
      in exactly one, unless its write failed, a cancel hit its reply, its result could not be
      encoded or the transport broke. */
  lemma RequestHasOnePlace(states: seq<State>, steps: seq<Step>, k: nat, id: Id)
    requires IsRun(states, steps) && k < |states|
    ensures Places(states[k], id) <= 1
    ensures var s := states[k];
            id in s.client.pending && !s.broken
            && id !in s.past.unwritten && id !in s.past.cancelledLate && id !in s.past.unencodable ==>
              Places(s, id) == 1
  {
    RepliesHold(states, steps, k);
    assert At(states[k], id);
  }

  lemma PromiseStep(s: State, step: Step, id: Id)
    requires Replies(s) && Enabled(s, step)
    ensures Calls(s.client, id) <= Calls(Next(s, step).client, id)
  {
    hide At, FramesFit, Calls, Dispatch, FailAll, RejectWrite;
    if step.Send? {
      SendPromise(s, step.call, step.written, id);
    } else if step.ClientReads? {
      DispatchPromise(s.client, s.toClient[0], id);
    } else if step.SendWriteFails? {
      RejectPromise(s.client, step.id, id);
    } else if step.ClientReadFails? {
      FailPromise(s.client, id);
    } else {
      OtherStepsLeaveClient(s, step);
      SamePromises(s.client, Next(s, step).client, id);
    }
  }

  lemma SendPromise(s: State, call: Call, written: bool, id: Id)
    requires Replies(s)
    ensures Calls(s.client, id) <= Calls(AfterSend(s, call, written).client, id)
  {
    assert At(s, s.client.nextId);
  }

  lemma DispatchPromise(c: Client, m: ToClient, id: Id)
    ensures Calls(c, id) <= Calls(Dispatch(c, m), id)
  {
    if m.EndOfStream? {
      FailPromise(c, id);
    }
  }

  lemma RejectPromise(c: Client, x: Id, id: Id)
    ensures Calls(c, id) <= Calls(RejectWrite(c, x), id)
  {
  }

  lemma FailPromise(c: Client, id: Id)
    ensures Calls(c, id) <= Calls(FailAll(c), id)
  {
  }

  lemma SamePromises(c: Client, d: Client, id: Id)
    requires c.promises == d.promises
    ensures Calls(c, id) == Calls(d, id)
  {
  }

  lemma OtherStepsLeaveClient(s: State, step: Step)
    requires Enabled(s, step)
    requires !step.Send? && !step.ClientReads? && !step.SendWriteFails? && !step.ClientReadFails?
    ensures Next(s, step).client.promises == s.client.promises && Next(s, step).client.nextId == s.client.nextId
  {
    hide Start, Receive, Dispatch, FailAll, RejectWrite, AfterSend, AfterClientReads;
  }

  lemma SettledOnce(s: State, id: Id)
    requires At(s, id) && Calls(s.client, id) != []
    ensures |Calls(s.client, id)| == 1 && id !in s.client.pending
    ensures SettlementFits(s, id, Calls(s.client, id)[0])
  {
  }

  /** A settled promise never hears of another outcome, and its outcome is the reply produced
      by the task of the very call it was made for, a disconnection or its own failed write. */
  lemma {:induction false} SettledForGood(states: seq<State>, steps: seq<Step>, j: nat, k: nat, id: Id)
    requires IsRun(states, steps) && j <= k < |states|
    requires Calls(states[j].client, id) != []
    ensures Calls(states[k].client, id) == Calls(states[j].client, id)
    ensures |Calls(states[k].client, id)| == 1
    ensures SettlementFits(states[k], id, Calls(states[k].client, id)[0])
    ensures id !in states[k].client.pending
    decreases k - j
  {
    hide At, Calls, SettlementFits, Next, Enabled;
    if j < k {
      SettledForGood(states, steps, j, k - 1, id);
      RepliesHold(states, steps, k - 1);
      PromiseStep(states[k - 1], steps[k - 1], id);
    }
    RepliesHold(states, steps, k);
    assert At(states[k], id);
    SettledOnce(states[k], id);
  }
}
