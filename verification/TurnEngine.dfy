/** The turn engine: one generator frame over a shared session store. */
module TurnEngine {
  import opened Prelude
  import opened Messages
  import opened SessionStores
  import opened TurnModel
  import P = ProviderEvents

  datatype Outcome = SessionNotFound | Completed | Interrupted

  lemma PrefixAppend<T>(a: seq<T>, b: seq<T>, c: seq<T>)
    requires b <= c
    ensures a + b <= a + c
  {
  }

  /** Load, edit, save: what a tool does to a session it knows the id of. */
  method LoadEditSave(store: MemorySessionStore, id: string, write: Write)
    requires store.Valid() && id in store.Contents() && store.Contents()[id].id == id
    modifies store
    ensures store.Valid() && fresh(store.repr - old(store.repr))
    ensures id in store.Contents() && store.Contents()[id] == Rewritten(old(store.Contents()[id]), write)
    ensures store.Contents() - {id} == old(store.Contents()) - {id}
  {
    hide MemorySessionStore.Contents, MemorySessionStore.Valid, AfterSave;
    var s := store.Load(id, None);
    s.Overwrite(Record(s.id, write.tenant, s.version, write.messages, write.attributes, write.metadata));
    SaveReaches(store.Contents(), s.Data());
    var r := store.Save(s);
  }

  /** Other tasks, and agents spawned by a running tool, use the store: any sessions but this one are
      created, saved and deleted. */
  method Meanwhile(store: MemorySessionStore, id: string)
    requires store.Valid() && id in store.Contents()
    modifies store
    ensures store.Valid() && fresh(store.repr - old(store.repr))
    ensures id in store.Contents() && store.Contents()[id] == old(store.Contents()[id])
  {
    hide MemorySessionStore.Contents, MemorySessionStore.Valid;
    var n: int := *;
    while n > 0
      invariant store.Valid() && fresh(store.repr - old(store.repr))
      invariant id in store.Contents() && store.Contents()[id] == old(store.Contents()[id])
      decreases n
    {
      var r: Record := *;
      if r.id != id {
        OthersUse(store, id, r);
      }
      n := n - 1;
    }
  }

  method OthersUse(store: MemorySessionStore, id: string, r: Record)
    requires store.Valid() && id in store.Contents() && r.id != id
    modifies store
    ensures store.Valid() && fresh(store.repr - old(store.repr))
    ensures id in store.Contents() && store.Contents()[id] == old(store.Contents()[id])
  {
    hide MemorySessionStore.Contents, MemorySessionStore.Valid;
    var gone: bool := *;
    if gone {
      store.Delete(r.id);
    } else {
      var s := new Session(r);
      var result := store.Save(s);
    }
  }

  /** Everything outside the engine's own state: what it has been shown and handed, and when it
      breaks in. */
  class Outside {
    var events: seq<StreamEvent>
    var snapshots: seq<seq<Message>>
    var executions: seq<Call>

    /** Awaits and yields still to pass before an exception, a cancellation or the consumer's
        close arrives; None when nothing ever does. */
    var fuse: Option<nat>

    constructor (fuse: Option<nat>)
      ensures events == [] && snapshots == [] && executions == [] && this.fuse == fuse
    {
      events, snapshots, executions := [], [], [];
      this.fuse := fuse;
    }

    /** The turn goes on, or unwinds from here. */
    method Pass() returns (go: bool)
      modifies this`fuse
      ensures old(fuse) == None ==> go && fuse == None
    {
      if fuse == None {
        return true;
      }
      if fuse.value == 0 {
        return false;
      }
      fuse := Some(fuse.value - 1);
      go := true;
    }
  }

  class Turn {
    const w: World
    const loaded: Record
    const user: Message
    const store: MemorySessionStore
    const outside: Outside

    var session: Session

    /** The session's record in the store, and what tools have saved of it since memory and store
        last agreed. */
    ghost var stored: Record
    ghost var pending: seq<Write>

    /** The store holds this session as `r`; nothing is said of any other session. */
    ghost predicate StoreHolds(r: Record)
      reads store, store.repr
    {
      store.Valid() && loaded.id in store.Contents() && store.Contents()[loaded.id] == r
    }

    /** What belongs to this turn alone. */
    ghost predicate Apart()
      reads this, session, store
    {
      && session.Objects() !! store.repr && store !in session.Objects()
      && outside !in session.Objects() && outside !in store.repr && this !in store.repr
    }

    /** The engine's own objects that it changes in place. */
    ghost function Own(): set<object>
      reads this, session
    {
      {session, session.messages}
    }

    ghost function Here(): Log
      reads this, outside
    {
      Log(outside.events, outside.executions, pending)
    }

    ghost function Seen(): Trace
      reads this, session, session.Objects(), outside
    {
      Trace(session.Data(), outside.events, outside.executions, pending, outside.snapshots)
    }

    /** A step that goes through leaves all of `own` behind, an interrupted one a prefix of it. */
    ghost predicate LogGrows(was: Log, own: Log, go: bool)
      reads this, outside
    {
      if go then Here() == was.Then(own) else was.PartOf(Here()) && Here().PartOf(was.Then(own))
    }

    /** A further step after `done`, on the way to `all`. */
    lemma GrowsOn(start: Log, done: Log, own: Log, all: Log, go: bool)
      requires LogGrows(start.Then(done), own, go) && done.Then(own).PartOf(all)
      ensures if go then Here() == start.Then(done.Then(own)) else LogGrows(start, all, false)
    {
      ThenAssociative(start, done, own);
      ThenPart(start, done.Then(own), all);
    }

    /** Holds at every await: the stored version is ahead of the one in memory by the saves tools have
        made since the last resync, and nothing else about this session differs but what they wrote. */
    ghost predicate Valid()
      reads this, session, session.Objects(), store, store.repr
    {
      && Apart()
      && StoreHolds(stored)
      && StoredFits(stored, session.Data(), pending)
      && session.id == loaded.id && session.tenant == loaded.tenant && session.metadata.entries == loaded.metadata
    }

    constructor (w: World, loaded: Record, user: Message, store: MemorySessionStore, session: Session, outside: Outside)
      requires store.Valid() && session.Objects() !! store.repr
      requires store !in session.Objects() && outside !in session.Objects() && outside !in store.repr
      requires loaded.id in store.Contents() && store.Contents()[loaded.id] == loaded && session.Data() == loaded
      ensures Valid() && pending == []
      ensures this.w == w && this.loaded == loaded && this.user == user && this.store == store
      ensures this.session == session && this.outside == outside
    {
      this.w, this.loaded, this.user, this.store := w, loaded, user, store;
      this.session, this.outside := session, outside;
      stored, pending := loaded, [];
    }

    // ---- awaits and yields -----------------------------------------------------------------------

    method Point() returns (go: bool)
      requires Valid()
      modifies outside`fuse, store
      ensures Valid() && (old(outside.fuse) == None ==> go && outside.fuse == None)
    {
      hide MemorySessionStore.Contents, MemorySessionStore.Valid;
      Meanwhile(store, loaded.id);
      go := outside.Pass();
    }

    method Show(e: StreamEvent)
      requires Valid()
      modifies outside`events
      ensures Valid() && outside.events == old(outside.events) + [e]
    {
      outside.events := outside.events + [e];
    }

    method Yield(e: StreamEvent) returns (go: bool)
      requires Valid()
      modifies outside`fuse, outside`events, store
      ensures Valid() && (old(outside.fuse) == None ==> go && outside.fuse == None)
      ensures outside.events == old(outside.events) + [e]
    {
      hide Valid;
      Show(e);
      go := Point();
    }

    /** The tool is entered. */
    method Enter(c: Call)
      requires Valid()
      modifies outside`executions
      ensures Valid() && outside.executions == old(outside.executions) + [c]
    {
      outside.executions := outside.executions + [c];
    }

    /** The provider is handed a snapshot of the history. */
    method Request()
      requires Valid()
      modifies outside`snapshots
      ensures Valid() && outside.snapshots == old(outside.snapshots) + [session.messages.items]
    {
      outside.snapshots := outside.snapshots + [session.messages.items];
    }

    // ---- the store -------------------------------------------------------------------------------

    /** A tool, inside `execute`, loads the session, changes it and saves it. */
    method ToolSaves(write: Write)
      requires Valid()
      modifies this`stored, this`pending, store
      ensures Valid() && pending == old(pending) + [write]
      ensures store.Contents() - {loaded.id} == old(store.Contents()) - {loaded.id}
    {
      hide MemorySessionStore.Contents, MemorySessionStore.Valid;
      LoadEditSave(store, loaded.id, write);
      OneMoreWrite(stored, session.Data(), pending, write);
      stored, pending := Rewritten(stored, write), pending + [write];
    }

    method Reload() returns (s: Session?)
      requires Valid()
      ensures Valid() && s != null && fresh(s.Objects()) && s.Objects() !! store.repr && s.Data() == stored
    {
      hide MemorySessionStore.Contents, MemorySessionStore.Valid;
      s := store.Load(loaded.id, None);
    }

    /** `session_store.save(session)`: it conflicts exactly when a tool has saved since the last
        resync, and touches no other session. */
    method SaveSession() returns (r: Saved)
      requires Valid()
      modifies this`stored, this`pending, store, session`version
      ensures Valid() && session.Objects() == old(session.Objects())
      ensures r == Done <==> old(pending) == []
      ensures r == Done ==> pending == [] && stored == session.Data() == Bumped(old(session.Data()))
      ensures r != Done ==> pending == old(pending) && stored == old(stored) && session.Data() == old(session.Data())
      ensures store.Contents() - {loaded.id} == old(store.Contents()) - {loaded.id}
    {
      hide MemorySessionStore.Contents, MemorySessionStore.Valid, AfterSave;
      SaveReaches(store.Contents(), session.Data());
      r := store.Save(session);
      if r == Done {
        stored, pending := session.Data(), [];
      }
    }

    /** After a round's tools: pick up what they saved, but keep the engine's messages. */
    method Resync()
      requires Valid()
      modifies this`pending, session`attributes, session`version
      ensures Valid() && pending == [] && session.messages == old(session.messages)
      ensures session.Data() == Resynced(old(session.Data()), old(pending))
    {
      hide StoreHolds;
      var reloaded := Reload();
      if reloaded != null && reloaded.version > session.version {
        session.attributes := reloaded.attributes;
        session.version := reloaded.version;
      }
      pending := [];
    }

    /** `session = fresh`: the engine goes on with a reloaded copy. */
    method Adopt()
      requires Valid() && stored == session.Data() && pending == []
      modifies this`session
      ensures Valid() && fresh(session.Objects()) && session.Data() == old(session.Data())
    {
      hide StoreHolds;
      session := Reload();
    }

    /** `session.messages = ...`. */
    method SetMessages(ms: seq<Message>)
      requires Valid()
      modifies session`messages
      ensures Valid() && fresh(session.messages) && session.Data() == old(session.Data()).(messages := ms)
    {
      hide StoreHolds;
      session.messages := new MessageList(ms);
    }

    /** `session.messages.append(m)`. */
    method Append(m: Message)
      requires Valid()
      modifies session.messages
      ensures Valid() && session.Data() == WithMessage(old(session.Data()), m)
    {
      hide StoreHolds;
      session.AppendMessage(m);
    }

    // ---- one provider stream -------------------------------------------------------------------

    /** The inner `async for` over the provider's events. */
    method Listen(evs: seq<P.ProviderEvent>)
      returns (go: bool, texts: seq<string>, thoughts: seq<Block>, calls: seq<Call>)
      requires Valid()
      modifies outside`fuse, outside`events, store
      ensures Valid() && (old(outside.fuse) == None ==> go && outside.fuse == None)
      ensures go ==> outside.events == old(outside.events) + Spoken(evs)
      ensures go ==> texts == Texts(evs) && thoughts == ThoughtBlocks(evs) && calls == ToolCalls(evs)
      ensures !go ==> old(outside.events) <= outside.events <= old(outside.events) + Spoken(evs)
    {
      hide Valid, Texts, ThoughtBlocks, ToolCalls, Spoken;
      NothingHeard();
      texts, thoughts, calls := [], [], [];
      ghost var heard: seq<P.ProviderEvent> := [];
      for k := 0 to |evs|
        invariant Valid() && (old(outside.fuse) == None ==> outside.fuse == None)
        invariant heard == evs[..k] && outside.events == old(outside.events) + Spoken(heard)
        invariant texts == Texts(heard) && thoughts == ThoughtBlocks(heard) && calls == ToolCalls(heard)
      {
        SpokenPrefix(evs, k);
        PrefixAppend(old(outside.events), Spoken(heard), Spoken(evs));
        go := Point();
        if !go {
          return;
        }
        var e := evs[k];
        OneMoreEvent(heard, e);
        Associative(old(outside.events), Spoken(heard), Said(e));
        heard := heard + [e];
        TakeMore(evs, k);
        go, texts, thoughts, calls := Hear(e, texts, thoughts, calls);
        if !go {
          SpokenPrefix(evs, k + 1);
          PrefixAppend(old(outside.events), Spoken(heard), Spoken(evs));
          return;
        }
      }
      TakeAll(evs);
      go := Point();
    }

    /** One provider event: text is kept and passed on, thinking only passed on, blocks and calls
        only kept. */
    method Hear(e: P.ProviderEvent, texts0: seq<string>, thoughts0: seq<Block>, calls0: seq<Call>)
      returns (go: bool, texts: seq<string>, thoughts: seq<Block>, calls: seq<Call>)
      requires Valid()
      modifies outside`fuse, outside`events, store
      ensures Valid() && (old(outside.fuse) == None ==> go && outside.fuse == None)
      ensures outside.events == old(outside.events) + Said(e)
      ensures texts == if e.TextDelta? then texts0 + [e.text] else texts0
      ensures thoughts == if e.ThinkingBlock? then thoughts0 + [Thinking(e.text, e.signature)]
                          else if e.RedactedThinking? then thoughts0 + [Redacted(e.data)]
                          else thoughts0
      ensures calls == if e.ToolCallEvent? then calls0 + [Call(e.id, e.name, e.args)] else calls0
    {
      hide Valid;
      go, texts, thoughts, calls := true, texts0, thoughts0, calls0;
      if e.TextDelta? {
        texts := texts + [e.text];
        go := Yield(TextDelta(e.text));
      } else if e.ThinkingDelta? {
        go := Yield(ThinkingDelta(e.text));
      } else if e.ThinkingBlock? {
        thoughts := thoughts + [Thinking(e.text, e.signature)];
      } else if e.RedactedThinking? {
        thoughts := thoughts + [Redacted(e.data)];
      } else if e.ToolCallEvent? {
        calls := calls + [Call(e.id, e.name, e.args)];
      } else {
        go := Point();
      }
    }

    // ---- one tool call -------------------------------------------------------------------------

    /** `check_permission_for_tool`. */
    method CheckPermission(v: Verdict) returns (go: bool, denial: Option<Result>)
      requires Valid()
      modifies outside`fuse, store
      ensures Valid() && (old(outside.fuse) == None ==> go && outside.fuse == None)
      ensures denial == Denial(v)
    {
      hide Valid;
      denial := if v.Deny? then Some(Failure("permission denied: " + OrNoReason(v.reason)))
                else if v.Ask? then Some(Failure("permission requires approval: " + OrNoReason(v.reason)))
                else None;
      go := Point();
    }

    /** `_execute_after_permission`: pre_tool hooks, the tool, post_tool hooks. */
    method ExecuteTool(c: Call, a: Answer) returns (go: bool, result: Result)
      requires Valid()
      requires Cleared(c, a, w.tools)
      modifies outside`fuse, outside`executions, this`stored, this`pending, store
      ensures Valid() && (old(outside.fuse) == None ==> go && outside.fuse == None)
      ensures go ==> result == ResultOf(c, a, w.tools)
      ensures var own := Log([], Execution(c, a, w.tools), CallWrites(c, a, w.tools)); LogGrows(old(Here()), own, go)
    {
      hide Valid;
      result := Failure("hook denied: " + OrNoReason(a.decision.reason));
      go := Point();
      if !go || !a.decision.allow {
        return;
      }
      var passed := c;
      if a.decision.transform.Some? && "args" in a.decision.transform.value {
        passed := c.(args := a.decision.transform.value["args"]);
      }
      Enter(passed);
      go := RunBody(a.writes);
      if !go {
        return;
      }
      result := Finished(c.name, a.ending);
      if a.ending.Returned? {
        go := Point();
      }
    }

    /** What the tool itself does: any number of saves, with awaits between them. */
    method RunBody(writes: seq<Write>) returns (go: bool)
      requires Valid()
      modifies outside`fuse, this`stored, this`pending, store
      ensures Valid() && (old(outside.fuse) == None ==> go && outside.fuse == None)
      ensures go ==> pending == old(pending) + writes
      ensures old(pending) <= pending <= old(pending) + writes
    {
      hide Valid;
      for k := 0 to |writes|
        invariant Valid() && (old(outside.fuse) == None ==> outside.fuse == None)
        invariant pending == old(pending) + writes[..k]
      {
        go := Point();
        if !go {
          return;
        }
        TakeMore(writes, k);
        Associative(old(pending), writes[..k], [writes[k]]);
        ToolSaves(writes[k]);
      }
      TakeAll(writes);
      go := Point();
    }

    /** Unknown tools and refused calls fail without being announced; others run. */
    method DecideAndRun(c: Call, a: Answer) returns (go: bool, result: Result)
      requires Valid()
      modifies outside`fuse, outside`events, outside`executions, this`stored, this`pending, store
      ensures Valid() && (old(outside.fuse) == None ==> go && outside.fuse == None)
      ensures go ==> result == ResultOf(c, a, w.tools)
      ensures var own := Log(Announcement(c, a, w.tools), Execution(c, a, w.tools), CallWrites(c, a, w.tools));
              LogGrows(old(Here()), own, go)
    {
      hide Valid;
      result := Failure("tool '" + c.name + "' not registered");
      if c.name !in w.tools {
        go := Point();
        return;
      }
      var denial;
      go, denial := CheckPermission(a.verdict);
      if !go {
        return;
      }
      if denial.Some? {
        result := denial.value;
        return;
      }
      go := Yield(ToolCallStarted(c.name, c.id, c.args));
      if go {
        go, result := ExecuteTool(c, a);
      }
    }

    /** One turn of the tool loop. */
    method CallTool(c: Call, a: Answer) returns (go: bool, block: Block)
      requires Valid()
      modifies outside`fuse, outside`events, outside`executions, this`stored, this`pending, store
      ensures Valid() && (old(outside.fuse) == None ==> go && outside.fuse == None)
      ensures go ==> block == ResultBlock(c, ResultOf(c, a, w.tools))
      ensures LogGrows(old(Here()), CallLog(c, a, w.tools), go)
    {
      hide Valid;
      var result;
      go, result := DecideAndRun(c, a);
      block := ResultBlock(c, result);
      if go {
        go := Yield(ToolCallCompleted(c.name, c.id, result));
      }
    }

    /** The tool loop. */
    method CallTools(calls: seq<Call>, answers: nat -> Answer) returns (go: bool, blocks: seq<Block>)
      requires Valid()
      modifies outside`fuse, outside`events, outside`executions, this`stored, this`pending, store
      ensures Valid() && (old(outside.fuse) == None ==> go && outside.fuse == None)
      ensures go ==> blocks == Results(calls, answers, w.tools, |calls|)
      ensures LogGrows(old(Here()), CallsLog(calls, answers, w.tools, |calls|), go)
    {
      hide Valid;
      blocks := [];
      go := true;
      ghost var start, done := Here(), Log([], [], []);
      ghost var all := CallsLog(calls, answers, w.tools, |calls|);
      ThenNothing(start);
      for k := 0 to |calls|
        invariant Valid() && (old(outside.fuse) == None ==> outside.fuse == None)
        invariant go
        invariant blocks == Results(calls, answers, w.tools, k)
        invariant done == CallsLog(calls, answers, w.tools, k) && Here() == start.Then(done)
      {
        var block;
        ghost var own := CallLog(calls[k], answers(k), w.tools);
        PrefixOfCalls(calls, answers, w.tools, k + 1, |calls|);
        go, block := CallTool(calls[k], answers(k));
        GrowsOn(start, done, own, all, go);
        if !go {
          return;
        }
        done := done.Then(own);
        blocks := blocks + [block];
      }
    }

    // ---- compaction ----------------------------------------------------------------------------

    /** Persist, then continue on a reloaded copy: the save cannot conflict here. */
    method SaveAndReload() returns (go: bool)
      requires Valid() && pending == []
      modifies outside`fuse, this`session, this`stored, this`pending, store, session`version
      ensures Valid() && pending == [] && (old(outside.fuse) == None ==> go && outside.fuse == None)
      ensures fresh(session.Objects() - old(session.Objects()))
      ensures session.Data() == old(session.Data()) || session.Data() == Bumped(old(session.Data()))
      ensures go ==> session.Data() == Bumped(old(session.Data()))
    {
      hide Valid;
      go := Point();
      if !go {
        return;
      }
      var r := SaveSession();
      assert r == Done;
      Adopt();
      go := Point();
    }

    /** `compact`: on failure the reloaded history stays as it is. */
    method ReplaceMessages(i: nat) returns (go: bool)
      requires Valid()
      modifies outside`fuse, store, session`messages
      ensures Valid() && (old(outside.fuse) == None ==> go && outside.fuse == None)
      ensures session.messages == old(session.messages) || fresh(session.messages)
      ensures var result := w.rounds(i).compacting.result; var was := old(session.Data());
              var after := if result.Some? then was.(messages := result.value) else was;
              if go then session.Data() == after else session.Data() == was || session.Data() == after
    {
      hide Valid;
      go := Point();
      if !go {
        return;
      }
      var compacted := w.rounds(i).compacting.result;
      if compacted.Some? {
        SetMessages(compacted.value);
      }
      go := Point();
    }

    /** The compaction check after a tool round. */
    method CheckCompaction(i: nat) returns (go: bool)
      requires Valid() && pending == [] && CallsAt(w, i) != []
      modifies outside`fuse, this`session, this`stored, this`pending, store, session
      ensures Valid() && pending == [] && (old(outside.fuse) == None ==> go && outside.fuse == None)
      ensures fresh(Own() - old(Own()))
      ensures go ==> session.Data() == Rechecked(w, i, old(session.Data()))
      ensures FinishingTools(w, i, old(session.Data()), session.Data())
    {
      hide Valid;
      go := true;
      if w.trigger.None? {
        return;
      }
      var tokens := w.counter(session.messages.items);
      if tokens <= w.trigger.value {
        return;
      }
      go := Point();
      if !go || !w.rounds(i).compacting.should {
        return;
      }
      go := SaveAndReload();
      if !go {
        return;
      }
      go := ReplaceMessages(i);
    }

    // ---- one round -----------------------------------------------------------------------------

    /** The provider's stream and the assistant message made of it. */
    method Speak(evs: seq<P.ProviderEvent>) returns (go: bool, calls: seq<Call>)
      requires Valid()
      modifies outside`fuse, outside`events, outside`snapshots, store, session.messages
      ensures Valid() && (old(outside.fuse) == None ==> go && outside.fuse == None)
      ensures go ==> calls == ToolCalls(evs) && outside.events == old(outside.events) + Spoken(evs)
      ensures go ==> session.Data() == WithMessage(old(session.Data()), AssistantMessage(evs))
      ensures go ==> outside.snapshots == old(outside.snapshots) + [old(session.messages.items)]
      ensures !go ==> old(outside.events) <= outside.events <= old(outside.events) + Spoken(evs)
      ensures session.Data() == old(session.Data())
           || session.Data() == WithMessage(old(session.Data()), AssistantMessage(evs))
      ensures outside.snapshots == old(outside.snapshots)
           || outside.snapshots == old(outside.snapshots) + [old(session.messages.items)]
    {
      hide Valid;
      calls := [];
      go := Point();
      if !go {
        return;
      }
      var texts, thoughts;
      Request();
      go, texts, thoughts, calls := Listen(evs);
      if !go {
        return;
      }
      var blocks := thoughts;
      if texts != [] {
        blocks := blocks + [Text(Flatten(texts))];
      } else {
        assert thoughts + [] == thoughts;
      }
      blocks := blocks + CallBlocks(calls);
      Append(Message(Assistant, blocks));
      go := Point();
    }

    /** The tool message, then the resync with what the tools have saved. */
    method AnswerAndResync(m: Message) returns (go: bool)
      requires Valid()
      modifies outside`fuse, this`pending, store, session`version, session`attributes, session.messages
      ensures Valid() && (old(outside.fuse) == None ==> go && outside.fuse == None)
      ensures session.messages == old(session.messages)
      ensures go ==> pending == [] && session.Data() == Resynced(WithMessage(old(session.Data()), m), old(pending))
      ensures !go ==> pending == old(pending) && session.Data() == WithMessage(old(session.Data()), m)
    {
      hide Valid;
      Append(m);
      go := Point();
      if go {
        Resync();
      }
    }

    /** The tool loop and what follows it in the round. */
    method UseTools(calls: seq<Call>, answers: nat -> Answer) returns (go: bool)
      requires Valid() && pending == []
      modifies outside`fuse, outside`events, outside`executions, this`stored, this`pending, store
      modifies session`version, session`attributes, session.messages
      ensures Valid() && (old(outside.fuse) == None ==> go && outside.fuse == None)
      ensures session.messages == old(session.messages)
      ensures var own, answer := CallsLog(calls, answers, w.tools, |calls|), ToolMessage(calls, answers, w.tools);
              var was, answered := old(session.Data()), WithMessage(old(session.Data()), answer);
              if go then
                && pending == []
                && session.Data() == Resynced(answered, own.writes)
                && outside.events == old(outside.events) + own.events
                && outside.executions == old(outside.executions) + own.executions
              else
                || (session.Data() == was && LogGrows(old(Here()), own, false))
                || (session.Data() == answered && LogGrows(old(Here()), own, true) && pending == own.writes)
    {
      hide Valid;
      var blocks;
      ghost var own := CallsLog(calls, answers, w.tools, |calls|);
      go, blocks := CallTools(calls, answers);
      if go {
        assert [] + own.writes == own.writes;
        go := AnswerAndResync(Message(ToolRole, blocks));
      }
    }

    /** The end of a round with tools. */
    method FinishTools(i: nat) returns (go: bool)
      requires Valid() && pending == [] && CallsAt(w, i) != []
      modifies outside`fuse, outside`events, this`session, this`stored, this`pending, store, session
      ensures Valid() && pending == [] && (old(outside.fuse) == None ==> go && outside.fuse == None)
      ensures fresh(Own() - old(Own()))
      ensures outside.events == old(outside.events) + [IterationCompleted(i)]
      ensures go ==> session.Data() == Rechecked(w, i, old(session.Data()))
      ensures FinishingTools(w, i, old(session.Data()), session.Data())
    {
      hide Valid;
      go := Yield(IterationCompleted(i));
      if go {
        go := CheckCompaction(i);
      }
    }

    /** One turn of the main loop; `stop` when the model asked for no tool. */
    method Round(i: nat) returns (go: bool, stop: bool)
      requires Valid() && pending == []
      modifies outside, this`session, this`stored, this`pending, store, Own()
      ensures Valid() && (old(outside.fuse) == None ==> go && outside.fuse == None)
      ensures fresh(Own() - old(Own()))
      ensures go ==> Seen() == TraceAfterRound(w, i, old(Seen())) && (stop <==> CallsAt(w, i) == [])
      ensures !go ==> PartOfRound(w, i, old(Seen()), Seen())
    {
      hide Valid, PartOfRound, CallsLog, Results, ToolCalls, Spoken;
      var calls;
      stop := false;
      ghost var was := Seen();
      go, calls := Speak(w.rounds(i).events);
      if !go {
        InterruptedSpeaking(w, i, was, Seen());
        return;
      }
      EventsOfRound(w, i, was.events);
      if calls == [] {
        stop := true;
        NoCallsNoLog(w, i);
        go := Yield(IterationCompleted(i));
        if !go {
          InterruptedAfter(w, i, was, Seen());
        }
        return;
      }
      go := UseTools(calls, w.rounds(i).answers);
      if !go {
        InterruptedUsingTools(w, i, was, Seen());
        return;
      }
      go := FinishTools(i);
      if !go {
        InterruptedAfter(w, i, was, Seen());
      }
    }

    // ---- the turn ------------------------------------------------------------------------------

    /** Round i and the loop's bookkeeping. */
    method NextRound(i: nat) returns (go: bool, stop: bool)
      requires Valid() && Seen() == TraceAt(w, loaded, user, i) && Stopping(w, i, false) && i < w.maxIterations
      modifies outside, this`session, this`stored, this`pending, store, Own()
      ensures Valid() && (old(outside.fuse) == None ==> go && outside.fuse == None)
      ensures fresh(Own() - old(Own()))
      ensures go ==> Seen() == TraceAt(w, loaded, user, i + 1) && Stopping(w, i + 1, stop)
      ensures !go ==> Unwound(w, loaded, user, i, Seen()) && !Over(w, i)
    {
      hide Valid, TraceAt, TraceAfterRound, PartOfRound;
      PendingAt(w, loaded, user, i);
      go, stop := Round(i);
      if go {
        NextTrace(w, loaded, user, i);
        NextReached(w, i, stop);
      } else {
        UnwoundInRound(w, loaded, user, i, Seen());
      }
    }

    /** The main loop; on interruption `iteration` is the round that was interrupted. */
    method Rounds() returns (go: bool, iteration: nat)
      requires Valid() && Seen() == TraceAt(w, loaded, user, 0)
      modifies outside, this`session, this`stored, this`pending, store, Own()
      ensures Valid() && (old(outside.fuse) == None ==> go && outside.fuse == None)
      ensures fresh(Own() - old(Own()))
      ensures go ==> Seen() == TraceAt(w, loaded, user, iteration) && TurnModel.Rounds(w, iteration)
      ensures !go ==> Unwound(w, loaded, user, iteration, Seen()) && !Over(w, iteration)
    {
      hide Valid, TraceAt, Unwound, Stopping, TurnModel.Rounds;
      var stop := false;
      go, iteration := true, 0;
      StartReached(w);
      while !stop && iteration < w.maxIterations
        invariant Valid() && go
        invariant Seen() == TraceAt(w, loaded, user, iteration)
        invariant old(outside.fuse) == None ==> outside.fuse == None
        invariant fresh(Own() - old(Own()))
        invariant Stopping(w, iteration, stop)
        decreases w.maxIterations - iteration
      {
        go, stop := NextRound(iteration);
        if !go {
          return;
        }
        iteration := iteration + 1;
      }
      AllRounds(w, iteration, stop);
    }

    /** After the loop: the last hooks, the save that cannot conflict, and the last event. */
    method Finish(iteration: nat) returns (go: bool, saved: bool)
      requires Valid() && pending == []
      modifies outside`fuse, outside`events, this`stored, this`pending, store, session`version
      ensures Valid() && pending == [] && (old(outside.fuse) == None ==> go && outside.fuse == None)
      ensures session.Objects() == old(session.Objects())
      ensures if saved then stored == Bumped(old(session.Data())) else session.Data() == old(session.Data())
      ensures go ==> saved && outside.events == old(outside.events) + [TurnCompleted(iteration)]
      ensures old(outside.events) <= outside.events <= old(outside.events) + [TurnCompleted(iteration)]
    {
      hide Valid;
      saved := false;
      go := Point();
      if !go {
        return;
      }
      var r := SaveSession();
      assert r == Done;
      saved := true;
      go := Point();
      if go {
        go := Yield(TurnCompleted(iteration));
      }
    }

    /** The body of the `try`. `seen` is what there is to see as of the save, made or still to make. */
    method Body() returns (go: bool, saved: bool, iteration: nat, ghost seen: Trace)
      requires Valid() && Seen() == TraceAt(w, loaded, user, 0)
      modifies outside, this`session, this`stored, this`pending, store, Own()
      ensures Valid() && (old(outside.fuse) == None ==> go && outside.fuse == None)
      ensures fresh(Own() - old(Own()))
      ensures if saved then seen.pending == [] && stored == Bumped(seen.session) else seen == Seen()
      ensures Seen() == seen.(session := session.Data())
      ensures go ==> saved && TurnModel.Rounds(w, iteration) && seen == TraceWhole(w, loaded, user, iteration)
      ensures !go ==> Unwound(w, loaded, user, iteration, seen)
    {
      hide Valid, TraceAt, TraceWhole, Unwound, TurnModel.Rounds;
      saved, iteration, seen := false, 0, Seen();
      go := Point();
      if !go {
        NothingYet(w, loaded, user);
        return;
      }
      go, iteration := Rounds();
      seen := Seen();
      if go {
        PendingAt(w, loaded, user, iteration);
        go, saved := Finish(iteration);
        seen := seen.(events := outside.events);
        WoundUp(w, loaded, user, iteration, seen);
      }
    }

    lemma WhatIsStored()
      requires Valid()
      ensures pending != [] ==> stored == SavedByTools(session.Data(), pending)
    {
    }

    /** `try` and `finally`: an unsaved turn is saved on the way out, and a conflict then is
        swallowed. */
    method Go() returns (outcome: Outcome, iteration: nat, ghost seen: Trace)
      requires Valid() && Seen() == TraceAt(w, loaded, user, 0)
      modifies outside, this`session, this`stored, this`pending, store, Own()
      ensures Valid() && (old(outside.fuse) == None ==> outcome == Completed)
      ensures outcome == Completed || outcome == Interrupted
      ensures outcome == Completed ==>
                TurnModel.Rounds(w, iteration) && seen == TraceWhole(w, loaded, user, iteration)
      ensures outcome == Interrupted ==> Unwound(w, loaded, user, iteration, seen)
      ensures stored == LeftRecord(seen)
      ensures outside.events == seen.events && outside.executions == seen.executions
           && outside.snapshots == seen.snapshots
    {
      hide Valid, TraceWhole, TraceAt, Unwound, TurnModel.Rounds;
      var go, saved;
      go, saved, iteration, seen := Body();
      WhatIsStored();
      if !saved {
        var r := SaveSession();
      }
      outcome := if go then Completed else Interrupted;
    }
  }

  /** `run_turn`. A completed turn stores exactly what the model says. An interrupted one stores the
      session as far as it got, unless a tool has saved in the interrupted round before the resync:
      then the tool's save stands and the turn's history is lost. Meanwhile any other session may be
      changed by others. */
  method RunTurn(store: MemorySessionStore, id: string, user: Message, w: World, outside: Outside)
    returns (outcome: Outcome, iteration: nat, ghost seen: Trace)
    requires store.Valid() && outside !in store.repr
    requires outside.events == [] && outside.snapshots == [] && outside.executions == []
    modifies store, outside
    ensures store.Valid()
    ensures outcome == SessionNotFound <==> id !in old(store.Contents())
    ensures outcome == SessionNotFound ==> store.Contents() == old(store.Contents()) && outside.events == []
    ensures old(outside.fuse) == None && id in old(store.Contents()) ==> outcome == Completed
    ensures outcome == Completed ==>
              Rounds(w, iteration) && seen == TraceWhole(w, old(store.Contents())[id], user, iteration)
    ensures outcome == Interrupted ==> Unwound(w, old(store.Contents())[id], user, iteration, seen)
    ensures outcome != SessionNotFound ==>
              && id in store.Contents() && store.Contents()[id] == LeftRecord(seen)
              && outside.events == seen.events && outside.executions == seen.executions
              && outside.snapshots == seen.snapshots
  {
    hide Unwound, Rounds, TraceWhole, TraceAt, LeftRecord, MemorySessionStore.Contents, MemorySessionStore.Valid;
    iteration, seen := 0, Trace(Record("", None, 0, [], map[], map[]), [], [], [], []);
    var session := store.Load(id, None);
    if session == null {
      return SessionNotFound, iteration, seen;
    }
    var turn := new Turn(w, session.Data(), user, store, session, outside);
    turn.Append(user);
    StartTrace(w, turn.loaded, user);
    outcome, iteration, seen := turn.Go();
  }
}
