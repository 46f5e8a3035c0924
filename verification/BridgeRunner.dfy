/** The objects put together: a client and a server on one transport, driven step by step. Whatever the
    order of the steps, the objects are in the state the transition system says, so what is proved of
    its runs holds of them. */
module BridgeRunner {
  import opened Prelude
  import opened BridgeModel
  import opened BridgeSystem
  import opened BridgeObjects
  import opened BridgeReplies
  import opened BridgeStreams
  import BridgePermissions

  /** The child process' two pipes. */
  class Transport {
    var toServer: seq<ToServer>
    var toClient: seq<ToClient>
    var broken: bool

    constructor ()
      ensures toServer == [] && toClient == [] && !broken
    {
      toServer, toClient, broken := [], [], false;
    }

    /** A broken pipe swallows what is written to it. */
    method WriteToServer(m: ToServer)
      modifies this`toServer
      ensures toServer == old(toServer) + if broken then [] else [m]
    {
      if broken {
        assert toServer + [] == toServer;
      } else {
        toServer := toServer + [m];
      }
    }

    method WriteToClient(m: ToClient)
      modifies this`toClient
      ensures toClient == old(toClient) + if broken then [] else [m]
    {
      if broken {
        assert toClient + [] == toClient;
      } else {
        toClient := toClient + [m];
      }
    }

    method ReadByServer() returns (m: ToServer)
      requires toServer != []
      modifies this`toServer
      ensures [m] + toServer == old(toServer)
    {
      m := toServer[0];
      toServer := toServer[1..];
    }

    method ReadByClient() returns (m: ToClient)
      requires toClient != []
      modifies this`toClient
      ensures [m] + toClient == old(toClient)
    {
      m := toClient[0];
      toClient := toClient[1..];
    }

    /** The process dies: what is still in the pipes may or may not arrive, then the stream ends. */
    method Break(toServerKept: nat, toClientKept: nat)
      requires toServerKept <= |toServer| && toClientKept <= |toClient|
      modifies this
      ensures broken && toServer == old(toServer)[..toServerKept]
      ensures toClient == old(toClient)[..toClientKept] + [EndOfStream]
    {
      broken, toServer, toClient := true, toServer[..toServerKept], toClient[..toClientKept] + [EndOfStream];
    }
  }

  lemma Unwritten<T>(q: seq<T>)
    ensures q + [] == q
  {
  }

  lemma HeadAndTail<T>(m: T, q: seq<T>)
    ensures ([m] + q)[0] == m && ([m] + q)[1..] == q
  {
  }

  class Bridge {
    const client: BridgeClient
    const server: BridgeServer
    const pipes: Transport

    /** What has happened so far, for the record only. */
    ghost var past: History

    ghost function View(): State
      reads this, client, server, server.resolver, pipes
    {
      State(client.View(), server.View(), pipes.toServer, pipes.toClient, pipes.broken, past)
    }

    ghost predicate Valid()
      reads this, client, server, server.resolver
    {
      client.Valid() && server.Valid()
    }

    constructor ()
      ensures Valid() && View() == INITIAL
      ensures fresh(client) && fresh(server) && fresh(server.resolver) && fresh(pipes)
    {
      client := new BridgeClient();
      var resolver := new BridgePermissionResolver();
      server := new BridgeServer(resolver);
      pipes := new Transport();
      past := INITIAL.past;
    }

    // ---- the client's side -------------------------------------------------------------------------

    /** `sendRequest` or `sendMessage`: the request is on the wire, or its write has failed. */
    method Send(call: Call, written: bool)
      requires Valid()
      modifies this, client, pipes
      ensures Valid() && View() == Next(old(View()), Step.Send(call, written))
    {
      var id;
      if call == SendMessage {
        id := client.SendMessage();
      } else {
        id := client.SendRequest();
      }
      past := past.(requested := past.requested[id := call],
                    yielded := past.yielded[id := []],
                    sent := past.sent[id := []]);
      if written && !pipes.broken {
        pipes.WriteToServer(Request(id, call));
      } else {
        past := past.(unwritten := past.unwritten + {id});
      }
    }

    method SendWriteFails(id: Id)
      requires Valid() && Enabled(View(), Step.SendWriteFails(id))
      modifies this, client
      ensures Valid() && View() == Next(old(View()), Step.SendWriteFails(id))
    {
      client.OnWriteRejected(id);
      past := past.(unwritten := past.unwritten + {id});
    }

    method Notify(m: ToServer)
      requires Valid() && (m.CancelNote? || m.ExitNote?)
      modifies pipes
      ensures Valid()
      ensures View() == Next(old(View()), if m.CancelNote? then SendCancel(m.id) else SendExit)
    {
      Unwritten(pipes.toServer);
      pipes.WriteToServer(m);
    }

    /** One turn of the client's read loop. */
    method ClientReads()
      requires Valid() && Enabled(View(), Step.ClientReads)
      modifies client, pipes
      ensures Valid() && View() == Next(old(View()), Step.ClientReads)
    {
      var m := pipes.ReadByClient();
      HeadAndTail(m, pipes.toClient);
      client.Dispatch(m);
    }

    method ClientReadFails()
      requires Valid() && Enabled(View(), Step.ClientReadFails)
      modifies client
      ensures Valid() && View() == Next(old(View()), Step.ClientReadFails)
    {
      client.FailAllPending();
    }

    /** A permission handler answers; a failed first write may be followed by an error reply. */
    method Answer(oid: Oid, answer: BridgeModel.Answer, written: bool, again: bool)
      requires Valid() && Enabled(View(), Answers(oid, answer, written, again))
      modifies this, client, pipes
      ensures Valid() && View() == Next(old(View()), Answers(oid, answer, written, again))
    {
      client.HandlerDone(oid);
      past := past.(answers := past.answers[oid := answer]);
      if written {
        Unwritten(pipes.toServer);
        pipes.WriteToServer(Answered(oid, answer));
      }
      if again {
        Unwritten(pipes.toServer);
        pipes.WriteToServer(Answered(oid, ClientError));
      }
    }

    // ---- the server's side -------------------------------------------------------------------------

    /** One turn of the server's read loop. */
    method ServerReceives()
      requires Valid() && Enabled(View(), Step.ServerReceives)
      modifies this, server, pipes
      ensures Valid() && View() == Next(old(View()), Step.ServerReceives)
    {
      var m := pipes.ReadByServer();
      HeadAndTail(m, pipes.toServer);
      server.ServeOne(m);
      if m.CancelNote? {
        NoteLate(m.id);
      }
    }

    /** A cancel that lands on a task already past its handler can cost the reply. */
    ghost method NoteLate(id: Id)
      requires Valid()
      modifies this
      ensures Valid() && View() == NoteLateCancel(old(View()), id)
    {
      if id in server.tasks && server.tasks[id].cancel && server.tasks[id].phase.Replying? {
        past := past.(cancelledLate := past.cancelledLate + {id});
      }
    }

    method ServerCloses()
      requires Valid() && Enabled(View(), Step.ServerCloses)
      modifies server, pipes
      ensures Valid() && View() == Next(old(View()), Step.ServerCloses)
    {
      server.Close();
      Unwritten(pipes.toClient);
      pipes.WriteToClient(EndOfStream);
    }

    method TaskStarts(id: Id)
      requires Valid() && Enabled(View(), Step.TaskStarts(id))
      modifies this, server
      ensures Valid() && View() == Next(old(View()), Step.TaskStarts(id))
    {
      var call := server.tasks[id].call;
      server.DispatchRequest(id);
      if call.Cancel? && call.target.Some? {
        NoteLate(call.target.value);
      }
    }

    /** The runtime's stream gives the handler an event, which it is about to write. */
    method StreamYields(id: Id, event: Json)
      requires Valid() && Enabled(View(), Step.StreamYields(id, event))
      modifies this, server
      ensures Valid() && View() == Next(old(View()), Step.StreamYields(id, event))
    {
      server.Move(id, WritingEvent(event));
      past := past.(yielded := past.yielded[id := EventsOf(past.yielded, id) + [event]]);
    }

    method EventWritten(id: Id)
      requires Valid() && Enabled(View(), Step.EventWritten(id))
      modifies this, server, pipes
      ensures Valid() && View() == Next(old(View()), Step.EventWritten(id))
    {
      var event := server.tasks[id].phase.event;
      server.Move(id, Handling);
      if pipes.broken {
        return;
      }
      pipes.WriteToClient(StreamEvent(id, event));
      past := past.(sent := past.sent[id := EventsOf(past.sent, id) + [event]]);
    }

    method ReplyWritten(id: Id)
      requires Valid() && Enabled(View(), Step.ReplyWritten(id))
      modifies this, server, pipes
      ensures Valid() && View() == Next(old(View()), Step.ReplyWritten(id))
    {
      var reply := server.tasks[id].phase.reply;
      server.Move(id, Replied);
      if pipes.broken {
        return;
      }
      pipes.WriteToClient(Response(id, reply));
      past := past.(produced := past.produced[id := reply]);
    }

    /** The task ends without its reply. */
    method TaskLost(id: Id, unencodable: bool)
      requires Valid()
      requires Enabled(View(), if unencodable then ReplyUnencodable(id) else ReplyLost(id))
      modifies this, server
      ensures Valid() && View() == Next(old(View()), if unencodable then ReplyUnencodable(id) else ReplyLost(id))
    {
      server.End(id);
      past := past.(lost := past.lost + {id});
      if unencodable {
        past := past.(unencodable := past.unencodable + {id});
      }
    }

    // ---- the permission resolver -----------------------------------------------------------------------

    method ResolveCached(tool: Tool)
      requires Valid() && Enabled(View(), Step.ResolveCached(tool))
      modifies this
      ensures Valid() && View() == Next(old(View()), Step.ResolveCached(tool))
    {
      var allowed := server.resolver.Cached(tool);
      assert allowed;
      past := past.(grants := past.grants + [ByCache(tool)]);
    }

    method AskOpens(tool: Tool)
      requires Valid() && Enabled(View(), Step.AskOpens(tool))
      modifies this, server
      ensures Valid() && View() == Next(old(View()), Step.AskOpens(tool))
    {
      var allowed := server.resolver.Cached(tool);
      assert !allowed;
      var oid := server.SendRequest(tool);
      past := past.(asked := past.asked[oid := tool]);
    }

    method AskWritten(oid: Oid)
      requires Valid() && Enabled(View(), Step.AskWritten(oid))
      modifies server, pipes
      ensures Valid() && View() == Next(old(View()), Step.AskWritten(oid))
    {
      server.AskIsWritten(oid);
      Unwritten(pipes.toClient);
      pipes.WriteToClient(Ask(oid, server.asks[oid].tool));
    }

    method AskFinishes(oid: Oid)
      requires Valid() && Enabled(View(), Step.AskFinishes(oid))
      modifies this, server, server.resolver
      ensures Valid() && View() == Next(old(View()), Step.AskFinishes(oid))
    {
      var tool := server.asks[oid].tool;
      var allowed := server.FinishRequest(oid);
      if allowed {
        past := past.(grants := past.grants + [ByAnswer(tool, oid)]);
      }
    }

    // ---- any step -----------------------------------------------------------------------------------------

    method PerformClient(step: Step)
      requires Valid() && Enabled(View(), step) && OfClient(step)
      modifies this, client, pipes
      ensures Valid() && View() == Next(old(View()), step)
    {
      hide Enabled, Next, BridgeClient.Valid, BridgeServer.Valid;
      if step.Send? {
        Send(step.call, step.written);
      } else if step.SendWriteFails? {
        SendWriteFails(step.id);
      } else if step.SendCancel? {
        Notify(CancelNote(step.id));
      } else if step.SendExit? {
        Notify(ExitNote);
      } else if step.ClientReads? {
        ClientReads();
      } else if step.ClientReadFails? {
        ClientReadFails();
      } else {
        Answer(step.oid, step.answer, step.written, step.again);
      }
    }

    method PerformTask(step: Step)
      requires Valid() && Enabled(View(), step) && OfTask(step)
      modifies this, server, pipes
      ensures Valid() && View() == Next(old(View()), step)
    {
      if step.TaskStarts? {
        TaskStarts(step.id);
      } else if step.StreamYields? {
        StreamYields(step.id, step.event);
      } else if step.EventWritten? {
        EventWritten(step.id);
      } else if step.EventAbandoned? {
        server.Reply(step.id, Error(step.code));
      } else if step.HandlerReturns? {
        server.Reply(step.id, step.reply);
      } else if step.ReplyWritten? {
        ReplyWritten(step.id);
      } else if step.ReplyLost? || step.ReplyUnencodable? {
        TaskLost(step.id, step.ReplyUnencodable?);
      } else {
        server.End(step.id);
      }
    }

    method PerformOther(step: Step)
      requires Valid() && Enabled(View(), step) && !OfClient(step) && !OfTask(step)
      modifies this, server, server.resolver, pipes
      ensures Valid() && View() == Next(old(View()), step)
    {
      if step.ServerReceives? {
        ServerReceives();
      } else if step.ServerStopsReading? {
        server.StopReading();
      } else if step.ServerCloses? {
        ServerCloses();
      } else if step.ResolveCached? {
        ResolveCached(step.tool);
      } else if step.AskOpens? {
        AskOpens(step.tool);
      } else if step.AskWritten? {
        AskWritten(step.oid);
      } else if step.AskCancelled? {
        server.AskIsCancelled(step.oid);
      } else if step.AskFinishes? {
        AskFinishes(step.oid);
      } else {
        pipes.Break(step.keepToServer, step.keepToClient);
      }
    }

    /** The objects do what the transition system says, whichever step it is. */
    method Perform(step: Step)
      requires Valid() && Enabled(View(), step)
      modifies this, client, server, server.resolver, pipes
      ensures Valid() && View() == Next(old(View()), step)
    {
      hide Enabled, Next, BridgeClient.Valid, BridgeServer.Valid;
      if OfClient(step) {
        PerformClient(step);
      } else if OfTask(step) {
        PerformTask(step);
      } else {
        PerformOther(step);
      }
    }
  }

  predicate OfClient(step: Step) {
    step.Send? || step.SendWriteFails? || step.SendCancel? || step.SendExit? || step.ClientReads?
    || step.ClientReadFails? || step.Answers?
  }

  predicate OfTask(step: Step) {
    step.TaskStarts? || step.StreamYields? || step.EventWritten? || step.EventAbandoned? || step.HandlerReturns?
    || step.ReplyWritten? || step.ReplyLost? || step.ReplyUnencodable? || step.TaskEnds?
  }

  /** Each step is possible when its turn comes. */
  predicate CanRun(s: State, steps: seq<Step>)
    decreases |steps|
  {
    steps != [] ==> Enabled(s, steps[0]) && CanRun(Next(s, steps[0]), steps[1..])
  }

  /** A new client and server, driven through any possible interleaving: the objects have gone through a
      run of the transition system and are in its last state. So every promise the client object has
      handed out is settled at most once, each of its handles has heard a prefix of what the server
      object's stream for that request yielded, all of it if the promise was resolved, and no answer of a
      client has granted two tool calls. */
  method RunBridge(steps: seq<Step>) returns (bridge: Bridge, ghost states: seq<State>)
    requires CanRun(INITIAL, steps)
    ensures fresh(bridge) && IsRun(states, steps) && bridge.View() == states[|steps|]
    ensures forall id :: |Calls(bridge.client.View(), id)| <= 1
    ensures forall id :: EventsFor(bridge.client.View(), id) <= EventsOf(bridge.past.yielded, id)
    ensures forall id :: IsSend(bridge.View(), id) && Calls(bridge.client.View(), id) != []
                         && Calls(bridge.client.View(), id)[0].Resolved? ==>
              EventsFor(bridge.client.View(), id) == EventsOf(bridge.past.yielded, id)
    ensures forall oid :: BridgePermissions.GrantsBy(bridge.past.grants, oid) <= 1
  {
    bridge := new Bridge();
    states := [INITIAL];
    ghost var left := steps;
    for k := 0 to |steps|
      invariant bridge.Valid() && fresh(bridge) && fresh(bridge.client) && fresh(bridge.server)
      invariant fresh(bridge.server.resolver) && fresh(bridge.pipes)
      invariant left == steps[k..] && CanRun(bridge.View(), left)
      invariant |states| == k + 1 && states[k] == bridge.View()
      invariant IsRun(states, steps[..k])
    {
      hide Enabled, Next, BridgeClient.Valid, BridgeServer.Valid;
      assert left[0] == steps[k] && left[1..] == steps[k + 1..];
      bridge.Perform(steps[k]);
      RunExtends(states, steps, k, bridge.View());
      states := states + [bridge.View()];
      left := left[1..];
    }
    TakeAll(steps);
    WhatRunsGuarantee(states, steps, bridge.View());
  }

  lemma RunExtends(states: seq<State>, steps: seq<Step>, k: nat, s: State)
    requires k < |steps| && |states| == k + 1 && IsRun(states, steps[..k])
    requires Enabled(states[k], steps[k]) && s == Next(states[k], steps[k])
    ensures IsRun(states + [s], steps[..k + 1])
  {
    hide Enabled, Next;
    var longer, done := states + [s], steps[..k + 1];
    forall i | 0 <= i < |done| ensures Enabled(longer[i], done[i]) && longer[i + 1] == Next(longer[i], done[i]) {
      if i < k {
        assert done[i] == steps[..k][i];
      }
    }
  }

  lemma WhatRunsGuarantee(states: seq<State>, steps: seq<Step>, s: State)
    requires IsRun(states, steps) && s == states[|steps|]
    ensures forall id :: |Calls(s.client, id)| <= 1
    ensures forall id :: EventsFor(s.client, id) <= EventsOf(s.past.yielded, id)
    ensures forall id :: IsSend(s, id) && Calls(s.client, id) != [] && Calls(s.client, id)[0].Resolved? ==>
              EventsFor(s.client, id) == EventsOf(s.past.yielded, id)
    ensures forall oid :: BridgePermissions.GrantsBy(s.past.grants, oid) <= 1
  {
    forall oid ensures BridgePermissions.GrantsBy(s.past.grants, oid) <= 1 {
      BridgePermissions.OneGrantPerAnswer(states, steps, |steps|, oid);
    }
    forall id
      ensures |Calls(s.client, id)| <= 1
      ensures EventsFor(s.client, id) <= EventsOf(s.past.yielded, id)
      ensures IsSend(s, id) && Calls(s.client, id) != [] && Calls(s.client, id)[0].Resolved? ==>
                EventsFor(s.client, id) == EventsOf(s.past.yielded, id)
    {
      HandleSeesItsStream(states, steps, |steps|, id);
      if Calls(s.client, id) != [] {
        SettledForGood(states, steps, |steps|, |steps|, id);
      }
    }
  }
}
