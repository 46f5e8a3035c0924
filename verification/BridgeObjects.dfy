/** The client, server and resolver objects, their methods cut at the awaits: what each call means
    for its caller, and that it is the step of the transition system. */
module BridgeObjects {
  import opened Prelude
  import opened BridgeModel

  function EventsFor(c: Client, id: Id): seq<Json> {
    if id in c.delivered then c.delivered[id] else []
  }

  /** Nothing about another request has changed. */
  predicate SameFor(before: Client, after: Client, id: Id) {
    && Calls(after, id) == Calls(before, id)
    && EventsFor(after, id) == EventsFor(before, id)
    && (id in after.pending <==> id in before.pending)
    && (id in after.inflight <==> id in before.inflight)
  }

  class BridgeClient {
    var nextId: Id
    var pending: set<Id>
    var inflight: set<Id>
    // The promises handed to callers, and what each handle and handler was given.
    var promises: map<Id, seq<Settlement>>
    var delivered: map<Id, seq<Json>>
    var answering: map<Oid, Tool>
    var reading: bool

    ghost function View(): Client
      reads this
    {
      Client(nextId, pending, inflight, promises, delivered, answering, reading)
    }

    /** Ids come from the counter; a promise is settled at most once, and not while it is pending. */
    ghost predicate Valid()
      reads this
    {
      && nextId >= 1
      && (forall id :: id in promises || id in delivered ==> id < nextId)
      && inflight <= pending <= promises.Keys
      && (forall id :: id in promises ==> |promises[id]| <= 1)
      && (forall id :: id in pending ==> promises[id] == [])
    }

    constructor ()
      ensures Valid() && View() == NEW_CLIENT
    {
      nextId, pending, inflight := 1, {}, {};
      promises, delivered, answering, reading := map[], map[], map[], true;
    }

    /** `sendRequest` up to its write: an id no request ever had, and a promise that awaits its outcome. */
    method SendRequest() returns (id: Id)
      requires Valid()
      modifies this
      ensures Valid() && View() == OpenRequest(old(View()))
      ensures id == old(nextId) && id !in old(promises) && id !in old(delivered)
      ensures id in pending && Calls(View(), id) == [] && id !in inflight
      ensures forall x :: x != id ==> SameFor(old(View()), View(), x)
    {
      id := nextId;
      nextId := nextId + 1;
      promises := promises[id := []];
      pending := pending + {id};
    }

    /** `sendMessage` up to its write: the same, with a handle that listens and has heard nothing. */
    method SendMessage() returns (id: Id)
      requires Valid()
      modifies this
      ensures Valid() && View() == OpenSend(old(View()))
      ensures id == old(nextId) && id !in old(promises) && id !in old(delivered)
      ensures id in pending && Calls(View(), id) == [] && id in inflight && EventsFor(View(), id) == []
      ensures forall x :: x != id ==> SameFor(old(View()), View(), x)
    {
      id := SendRequest();
      inflight := inflight + {id};
      delivered := delivered[id := []];
    }

    /** A pending promise gets its one outcome; its handle hears no more. */
    method Settle(id: Id, how: Settlement)
      requires Valid() && id in pending
      modifies this`pending, this`inflight, this`promises
      ensures Valid() && View() == BridgeModel.Settle(old(View()), id, how)
      ensures Calls(View(), id) == [how] && id !in pending && id !in inflight
      ensures forall x :: x != id ==> SameFor(old(View()), View(), x)
    {
      pending := pending - {id};
      inflight := inflight - {id};
      promises := promises[id := promises[id] + [how]];
    }

    /** The `catch` of sendMessage's write: it speaks only to a request nobody has answered yet. */
    method OnWriteRejected(id: Id)
      requires Valid()
      modifies this
      ensures Valid() && View() == RejectWrite(old(View()), id)
      ensures id in old(pending) ==> Calls(View(), id) == [WriteRejected] && id !in pending && id !in inflight
      ensures id !in old(pending) ==> View() == old(View())
      ensures forall x :: x != id ==> SameFor(old(View()), View(), x)
    {
      if id in pending {
        Settle(id, WriteRejected);
      }
    }

    /** A response is the one outcome of the pending promise of its id, and of no other; a response
        nobody awaits changes nothing. */
    method HandleResponse(id: Id, reply: Reply)
      requires Valid()
      modifies this
      ensures Valid() && View() == BridgeModel.HandleResponse(old(View()), id, reply)
      ensures id in old(pending) ==> Calls(View(), id) == [SettlementOf(reply)] && id !in pending && id !in inflight
      ensures id !in old(pending) ==> View() == old(View())
      ensures forall x :: x != id ==> SameFor(old(View()), View(), x)
    {
      if id !in pending {
        return;
      }
      if reply.Error? {
        Settle(id, if reply.code == CANCELLED then RejectedCancelled else RejectedError(reply.code));
      } else {
        Settle(id, Resolved(reply.value));
      }
    }

    /** An event reaches the handle in flight with its id, as the next one it hears, or nobody. */
    method OnStreamEvent(id: Id, event: Json)
      requires Valid()
      modifies this
      ensures Valid() && View() == Emit(old(View()), id, event)
      ensures EventsFor(View(), id)
           == EventsFor(old(View()), id) + if id in old(inflight) then [event] else []
      ensures Calls(View(), id) == Calls(old(View()), id)
      ensures forall x :: x != id ==> SameFor(old(View()), View(), x)
    {
      if id in inflight {
        delivered := delivered[id := (if id in delivered then delivered[id] else []) + [event]];
      } else {
        assert EventsFor(View(), id) + [] == EventsFor(View(), id);
      }
    }

    /** Every pending promise is rejected, once; nothing is awaited any more. */
    method FailAllPending()
      requires Valid()
      modifies this
      ensures Valid() && View() == FailAll(old(View()))
      ensures pending == {} && inflight == {}
      ensures forall x :: Calls(View(), x) == if x in old(pending) then [Disconnected] else Calls(old(View()), x)
    {
      var left := pending;
      ghost var was := View();
      assert promises == Disconnecting(was, left) by { NoneDisconnected(was); }
      while left != {}
        invariant left <= was.pending && View() == was.(promises := promises)
        invariant promises == Disconnecting(was, left)
        decreases left
      {
        SomeMember(left);
        var id :| id in left;
        DisconnectOne(was, left, id);
        left := left - {id};
        promises := promises[id := (if id in promises then promises[id] else []) + [Disconnected]];
      }
      AllDisconnected(was);
      pending := {};
      inflight := {};
      reading := false;
    }

    /** One message of the read loop; null ends the loop. No outcome is taken back or followed by
        another, and only a handle in flight hears anything. */
    method Dispatch(m: ToClient)
      requires Valid()
      modifies this
      ensures Valid() && View() == BridgeModel.Dispatch(old(View()), m)
      ensures forall x :: x !in old(pending) ==> SameFor(old(View()), View(), x)
      ensures forall x :: Calls(old(View()), x) <= Calls(View(), x) && |Calls(View(), x)| <= 1
      ensures forall x :: EventsFor(old(View()), x) <= EventsFor(View(), x)
    {
      match m {
        case Response(id, reply) => HandleResponse(id, reply);
        case StreamEvent(id, event) => OnStreamEvent(id, event);
        case Ask(oid, tool) => answering := answering[oid := tool];
        case EndOfStream => FailAllPending();
      }
    }

    /** A permission handler is done with its request. */
    method HandlerDone(oid: Oid)
      requires Valid()
      modifies this`answering
      ensures Valid() && answering == old(answering) - {oid}
    {
      answering := answering - {oid};
    }
  }

  /** The promises while `left` are still to be rejected. */
  ghost function Disconnecting(c: Client, left: set<Id>): map<Id, seq<Settlement>> {
    map id | id in c.promises.Keys + (c.pending - left) ::
      if id in c.pending - left then Calls(c, id) + [Disconnected] else Calls(c, id)
  }

  lemma NoneDisconnected(c: Client)
    ensures Disconnecting(c, c.pending) == c.promises
  {
    assert Disconnecting(c, c.pending).Keys == c.promises.Keys;
  }

  lemma AllDisconnected(c: Client)
    ensures Disconnecting(c, {}) == FailAll(c).promises
  {
    assert c.pending - {} == c.pending;
  }

  lemma DisconnectOne(c: Client, left: set<Id>, id: Id)
    requires id in left && left <= c.pending
    ensures var before := Disconnecting(c, left);
            Disconnecting(c, left - {id})
            == before[id := (if id in before then before[id] else []) + [Disconnected]]
  {
    var before := Disconnecting(c, left);
    var after := Disconnecting(c, left - {id});
    var want := before[id := (if id in before then before[id] else []) + [Disconnected]];
    assert after.Keys == want.Keys;
  }

  class BridgePermissionResolver {
    var alwaysAllow: set<Tool>

    /** Every client answer this resolver has had, and for which tool. */
    ghost var answers: seq<(Tool, Answer)>

    ghost predicate Valid()
      reads this
    {
      forall tool :: tool in alwaysAllow <==> (tool, AllowAlways) in answers
    }

    constructor ()
      ensures Valid() && alwaysAllow == {} && answers == []
    {
      alwaysAllow, answers := {}, [];
    }

    /** `resolve` before its await: a tool is allowed unasked exactly when an earlier answer for it was
        allow_always. */
    method Cached(tool: Tool) returns (allowed: bool)
      requires Valid()
      ensures allowed <==> (tool, AllowAlways) in answers
    {
      allowed := tool in alwaysAllow;
    }

    /** `resolve` after its await. */
    method Decide(tool: Tool, answer: Answer) returns (allowed: bool)
      requires Valid()
      modifies this
      ensures Valid() && answers == old(answers) + [(tool, answer)]
      ensures allowed <==> Grants(answer)
      ensures alwaysAllow == if answer == AllowAlways then old(alwaysAllow) + {tool} else old(alwaysAllow)
    {
      answers := answers + [(tool, answer)];
      if answer == Allow {
        return true;
      }
      if answer == AllowAlways {
        alwaysAllow := alwaysAllow + {tool};
        return true;
      }
      return false;
    }
  }

  /** Task x is where it was, and knows what it knew, but for a cancel that may have reached it. */
  predicate Undisturbed(before: map<Id, Task>, after: map<Id, Task>, x: Id) {
    && (x in after <==> x in before)
    && (x in before ==> after[x] == before[x].(cancel := after[x].cancel))
  }

  class BridgeServer {
    var shuttingDown: bool
    var exited: bool
    var reading: bool
    var closed: bool
    var tasks: map<Id, Task>
    var nextOut: Oid
    var pending: set<Oid>
    var asks: map<Oid, Asking>
    const resolver: BridgePermissionResolver

    ghost function View(): Server
      reads this, resolver
    {
      Server(shuttingDown, exited, reading, closed, tasks, nextOut, pending, asks, resolver.alwaysAllow)
    }

    /** Outbound ids are negative and come from the counter. */
    ghost predicate Valid()
      reads this, resolver
    {
      resolver.Valid() && nextOut < 0 && forall oid :: oid in asks || oid in pending ==> nextOut < oid < 0
    }

    constructor (r: BridgePermissionResolver)
      requires r.Valid() && r.alwaysAllow == {}
      ensures Valid() && View() == NEW_SERVER && resolver == r
    {
      shuttingDown, exited, reading, closed := false, false, true, false;
      tasks, nextOut, pending, asks, resolver := map[], -1, {}, map[], r;
    }

    /** One message of the `serve` loop: a request starts one task, which has not run yet; no message
        moves another task, though a cancel may be left for it; only an answer touches an ask. */
    method ServeOne(m: ToServer)
      requires Valid()
      modifies this
      ensures Valid() && View() == Receive(old(View()), m)
      ensures m.Request? ==> m.id in tasks && tasks[m.id] == Task(m.call, Spawned, false, false)
      ensures forall x :: (m.Request? && m.id == x) || Undisturbed(old(tasks), tasks, x)
      ensures forall oid :: oid in old(asks) && !(m.Answered? && m.oid == oid) ==>
                oid in asks && asks[oid] == old(asks)[oid]
    {
      match m {
        case Request(id, call) => tasks := tasks[id := Task(call, Spawned, false, false)];
        case CancelNote(id) => CancelById(id);
        case ExitNote => exited := true;
        case Answered(oid, answer) => HandleInboundResponse(oid, answer);
      }
    }

    /** Only a registered task is told to stop, and no task has moved when this returns. */
    method CancelById(id: Id)
      requires Valid()
      modifies this`tasks
      ensures Valid() && View() == CancelTask(old(View()), id)
      ensures forall x :: Undisturbed(old(tasks), tasks, x)
      ensures forall x :: x in old(tasks) && tasks[x] != old(tasks)[x] ==> x == id && old(tasks)[x].registered
    {
      if id in tasks && tasks[id].registered {
        tasks := tasks[id := tasks[id].(cancel := true)];
      }
    }

    /** A response takes its id out of the table, and the future it resolves keeps its first answer. */
    method HandleInboundResponse(oid: Oid, answer: Answer)
      requires Valid()
      modifies this`pending, this`asks
      ensures Valid() && View() == ResolveAsk(old(View()), oid, answer)
      ensures pending == old(pending) - {oid}
      ensures oid !in old(pending) ==> asks == old(asks)
      ensures forall x :: x in old(asks) ==>
                x in asks && (x != oid || old(asks)[x].answer.Some? ==> asks[x] == old(asks)[x])
    {
      if oid !in pending {
        return;
      }
      pending := pending - {oid};
      if oid !in asks || asks[oid].answer.Some? {
        return;
      }
      asks := asks[oid := asks[oid].(answer := Some(answer))];
    }

    /** `_dispatch_request` up to its first suspension. While shutting down everything but `exit` is
        refused; an unknown method is; a shutdown stays one; and other tasks do not move. */
    method DispatchRequest(id: Id)
      requires Valid() && id in tasks
      modifies this
      ensures Valid() && View() == Start(old(View()), id)
      ensures id in tasks && (tasks[id].phase.Handling? || tasks[id].phase.Replying?)
      ensures old(shuttingDown) ==> shuttingDown && tasks[id].phase.Replying? && tasks[id].phase.reply.Error?
      ensures tasks[id].phase.Handling? ==> tasks[id].registered && !shuttingDown
      ensures forall x :: x != id ==> Undisturbed(old(tasks), tasks, x)
    {
      var call := tasks[id].call;
      if shuttingDown && call != Exit {
        Reply(id, Error(SHUTDOWN));
        return;
      }
      if call.Unregistered? || call.Exit? {
        Reply(id, Error(METHOD_NOT_FOUND));
        return;
      }
      tasks := tasks[id := Task(call, Handling, true, false)];
      if call.Shutdown? {
        Reply(id, Result("null"));
        shuttingDown := true;
      } else if call.Cancel? {
        HandleSessionCancel(id, call.target);
      }
    }

    /** The handler is over, and any cancel that reached it is used up. */
    method Reply(id: Id, reply: BridgeModel.Reply)
      requires Valid() && id in tasks
      modifies this`tasks
      ensures Valid() && View() == BeginReply(old(View()), id, reply)
      ensures id in tasks && tasks[id].phase == Replying(reply) && !tasks[id].cancel
      ensures forall x :: x != id ==> (x in tasks <==> x in old(tasks)) && (x in tasks ==> tasks[x] == old(tasks)[x])
    {
      tasks := tasks[id := tasks[id].(phase := Replying(reply), cancel := false)];
    }

    /** The reply tells the truth: "true" exactly when there was a task to cancel. */
    method HandleSessionCancel(id: Id, target: Option<Id>)
      requires Valid() && id in tasks
      modifies this`tasks
      ensures Valid() && View() == StartCancel(old(View()), id, target)
      ensures id in tasks && tasks[id].phase.Replying?
      ensures tasks[id].phase.reply == Result("true") <==>
                target.Some? && target.value in old(tasks) && old(tasks)[target.value].registered
      ensures tasks[id].phase.reply == Result("true") ==> tasks[target.value].cancel
      ensures forall x :: x != id ==> Undisturbed(old(tasks), tasks, x)
    {
      if target.None? {
        Reply(id, Error(INVALID_PARAMS));
        return;
      }
      if target.value !in tasks || !tasks[target.value].registered {
        Reply(id, Result("false"));
        return;
      }
      Reply(id, Result("true"));
      CancelById(target.value);
    }

    /** Where a task is after one of its own suspensions. */
    method Move(id: Id, phase: Phase)
      requires Valid() && id in tasks
      modifies this`tasks
      ensures Valid() && View() == SetPhase(old(View()), id, phase)
      ensures forall x :: x != id ==> Undisturbed(old(tasks), tasks, x)
    {
      tasks := tasks[id := tasks[id].(phase := phase)];
    }

    /** The task is done and no longer listed. */
    method End(id: Id)
      requires Valid()
      modifies this`tasks
      ensures Valid() && View() == EndTask(old(View()), id)
      ensures id !in tasks && forall x :: x != id ==> Undisturbed(old(tasks), tasks, x)
    {
      tasks := tasks - {id};
    }

    method StopReading()
      requires Valid()
      modifies this`reading
      ensures Valid() && View() == old(View()).(reading := false)
    {
      reading := false;
    }

    method Close()
      requires Valid()
      modifies this`closed
      ensures Valid() && View() == old(View()).(closed := true)
    {
      closed := true;
    }

    /** `send_request` up to its write: a negative id that no outstanding ask has, and a future that
        nobody has answered. */
    method SendRequest(tool: Tool) returns (oid: Oid)
      requires Valid()
      modifies this
      ensures Valid() && View() == OpenAsk(old(View()), tool)
      ensures oid == old(nextOut) && oid < 0 && oid !in old(asks) && oid !in old(pending)
      ensures oid in pending && oid in asks && asks[oid] == Asking(tool, false, None)
      ensures forall x :: x in old(asks) ==> x in asks && asks[x] == old(asks)[x]
    {
      oid := nextOut;
      nextOut := nextOut - 1;
      pending := pending + {oid};
      asks := asks[oid := Asking(tool, false, None)];
    }

    /** The request is on the wire. */
    method AskIsWritten(oid: Oid)
      requires Valid() && oid in asks
      modifies this`asks
      ensures Valid() && View() == MarkWritten(old(View()), oid)
      ensures forall x :: x in old(asks) && x != oid ==> x in asks && asks[x] == old(asks)[x]
    {
      asks := asks[oid := asks[oid].(written := true)];
    }

    /** The asking turn is cancelled: before the write is done the table entry stays behind. */
    method AskIsCancelled(oid: Oid)
      requires Valid() && oid in asks
      modifies this`asks, this`pending
      ensures Valid() && View() == DropAsk(old(View()), oid)
      ensures oid !in asks && (oid in pending <==> oid in old(pending) && !old(asks)[oid].written)
      ensures forall x :: x in old(asks) && x != oid ==> x in asks && asks[x] == old(asks)[x]
    {
      if asks[oid].written {
        pending := pending - {oid};
      }
      asks := asks - {oid};
    }

    /** The future is done: the id is gone for good, and the verdict is the client's answer to this very
        ask, for the tool it was asked about. */
    method FinishRequest(oid: Oid) returns (allowed: bool)
      requires Valid() && oid in asks && asks[oid].answer.Some?
      modifies this, resolver
      ensures Valid() && View() == FinishAsk(old(View()), oid)
      ensures oid !in asks && oid !in pending
      ensures allowed <==> Grants(old(asks[oid].answer.value))
      ensures resolver.answers == old(resolver.answers) + [(old(asks[oid].tool), old(asks[oid].answer.value))]
      ensures forall x :: x in old(asks) && x != oid ==> x in asks && asks[x] == old(asks)[x]
    {
      var a := asks[oid];
      pending := pending - {oid};
      asks := asks - {oid};
      allowed := resolver.Decide(a.tool, a.answer.value);
    }
  }
}
