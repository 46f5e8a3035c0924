/** One turn as a function of what its oracles answer: the messages it appends, the events it
    streams, the tools it runs and what they save. */
module TurnModel {
  import opened Prelude
  import opened Messages
  import opened SessionStores
  import Hooks
  import P = ProviderEvents

  datatype Call = Call(id: string, name: string, args: Json)

  datatype Result = Result(success: bool, output: Json, error: Json)

  datatype StreamEvent =
    | TextDelta(text: string)
    | ThinkingDelta(text: string)
    | ToolCallStarted(name: string, id: string, args: Json)
    | ToolCallCompleted(name: string, id: string, result: Result)
    | IterationCompleted(iteration: nat)
    | TurnCompleted(iterations: nat)

  // ---- the oracles ----------------------------------------------------------------------------

  datatype Verdict = Allow | Deny(reason: string) | Ask(reason: string)

  /** What a tool puts into the session when it loads, edits and saves it. */
  datatype Write = Write(tenant: Option<string>, messages: seq<Message>, attributes: Attributes, metadata: Attributes)

  datatype Ending = Returned(result: Result) | TimedOut(timeout: string) | Raised(error: string)

  /** Everything that is asked about one tool call: the resolver's verdict, the merged decision of
      the pre_tool hooks, the saves the tool makes while it runs, and how it ends. */
  datatype Answer = Answer(verdict: Verdict, decision: Hooks.Decision, writes: seq<Write>, ending: Ending)

  datatype Compacting = Compacting(should: bool, result: Option<seq<Message>>)

  datatype Round = Round(events: seq<P.ProviderEvent>, answers: nat -> Answer, compacting: Compacting)

  /** The turn's surroundings; `trigger` is None without a compactor or without a threshold. */
  datatype World = World(
    rounds: nat -> Round,
    tools: set<string>,
    maxIterations: int,
    trigger: Option<int>,
    counter: seq<Message> -> int)

  // ---- one provider stream --------------------------------------------------------------------

  function Texts(evs: seq<P.ProviderEvent>): seq<string> {
    if evs == [] then []
    else Texts(evs[..|evs| - 1]) + var e := evs[|evs| - 1]; if e.TextDelta? then [e.text] else []
  }

  function ThoughtBlocks(evs: seq<P.ProviderEvent>): seq<Block> {
    if evs == [] then []
    else
      ThoughtBlocks(evs[..|evs| - 1])
      + var e := evs[|evs| - 1];
        if e.ThinkingBlock? then [Thinking(e.text, e.signature)]
        else if e.RedactedThinking? then [Redacted(e.data)]
        else []
  }

  function ToolCalls(evs: seq<P.ProviderEvent>): seq<Call> {
    if evs == [] then []
    else
      ToolCalls(evs[..|evs| - 1])
      + var e := evs[|evs| - 1]; if e.ToolCallEvent? then [Call(e.id, e.name, e.args)] else []
  }

  /** What the consumer hears of one provider event. */
  function Said(e: P.ProviderEvent): seq<StreamEvent> {
    if e.TextDelta? then [TextDelta(e.text)]
    else if e.ThinkingDelta? then [ThinkingDelta(e.text)]
    else []
  }

  function Spoken(evs: seq<P.ProviderEvent>): seq<StreamEvent> {
    if evs == [] then [] else Spoken(evs[..|evs| - 1]) + Said(evs[|evs| - 1])
  }

  lemma NothingHeard()
    ensures Texts([]) == [] && ThoughtBlocks([]) == [] && ToolCalls([]) == [] && Spoken([]) == []
  {
  }

  lemma OneMoreEvent(evs: seq<P.ProviderEvent>, e: P.ProviderEvent)
    ensures Texts(evs + [e]) == if e.TextDelta? then Texts(evs) + [e.text] else Texts(evs)
    ensures ThoughtBlocks(evs + [e])
         == if e.ThinkingBlock? then ThoughtBlocks(evs) + [Thinking(e.text, e.signature)]
            else if e.RedactedThinking? then ThoughtBlocks(evs) + [Redacted(e.data)]
            else ThoughtBlocks(evs)
    ensures ToolCalls(evs + [e])
         == if e.ToolCallEvent? then ToolCalls(evs) + [Call(e.id, e.name, e.args)] else ToolCalls(evs)
    ensures Spoken(evs + [e]) == Spoken(evs) + Said(e)
  {
    assert (evs + [e])[..|evs|] == evs;
  }

  lemma {:induction false} SpokenPrefix(evs: seq<P.ProviderEvent>, k: nat)
    requires k <= |evs|
    ensures Spoken(evs[..k]) <= Spoken(evs)
    decreases |evs| - k
  {
    if k < |evs| {
      assert evs[..k + 1] == evs[..k] + [evs[k]];
      OneMoreEvent(evs[..k], evs[k]);
      SpokenPrefix(evs, k + 1);
    } else {
      assert evs[..k] == evs;
    }
  }

  function TextBlocks(texts: seq<string>): seq<Block> {
    if texts == [] then [] else [Text(Flatten(texts))]
  }

  function CallBlocks(calls: seq<Call>): seq<Block> {
    seq(|calls|, k requires 0 <= k < |calls| => ToolCall(calls[k].id, calls[k].name, calls[k].args))
  }

  function AssistantMessage(evs: seq<P.ProviderEvent>): Message {
    Message(Assistant, ThoughtBlocks(evs) + TextBlocks(Texts(evs)) + CallBlocks(ToolCalls(evs)))
  }

  // ---- one tool call --------------------------------------------------------------------------

  predicate Cleared(c: Call, a: Answer, tools: set<string>) {
    c.name in tools && a.verdict.Allow?
  }

  /** The tool's `execute` is entered. */
  predicate Runs(c: Call, a: Answer, tools: set<string>) {
    Cleared(c, a, tools) && a.decision.allow
  }

  function OrNoReason(reason: string): string {
    if reason == "" then "no reason" else reason
  }

  function Failure(error: string): Result {
    Result(false, "null", error)
  }

  function Denial(v: Verdict): Option<Result> {
    match v
    case Allow => None
    case Deny(reason) => Some(Failure("permission denied: " + OrNoReason(reason)))
    case Ask(reason) => Some(Failure("permission requires approval: " + OrNoReason(reason)))
  }

  function Finished(name: string, ending: Ending): Result {
    match ending
    case Returned(result) => result
    case TimedOut(timeout) => Failure("tool '" + name + "' timed out after " + timeout + "s")
    case Raised(error) => Failure(error)
  }

  function ResultOf(c: Call, a: Answer, tools: set<string>): Result {
    if c.name !in tools then Failure("tool '" + c.name + "' not registered")
    else if Denial(a.verdict).Some? then Denial(a.verdict).value
    else if !a.decision.allow then Failure("hook denied: " + OrNoReason(a.decision.reason))
    else Finished(c.name, a.ending)
  }

  function Announcement(c: Call, a: Answer, tools: set<string>): seq<StreamEvent> {
    if Cleared(c, a, tools) then [ToolCallStarted(c.name, c.id, c.args)] else []
  }

  function CallEvents(c: Call, a: Answer, tools: set<string>): seq<StreamEvent> {
    Announcement(c, a, tools) + [ToolCallCompleted(c.name, c.id, ResultOf(c, a, tools))]
  }

  /** The arguments the tool sees: the pre_tool hooks may have replaced them. */
  function PassedArgs(c: Call, a: Answer): Json {
    if a.decision.transform.Some? && "args" in a.decision.transform.value then a.decision.transform.value["args"]
    else c.args
  }

  function Execution(c: Call, a: Answer, tools: set<string>): seq<Call> {
    if Runs(c, a, tools) then [c.(args := PassedArgs(c, a))] else []
  }

  function CallWrites(c: Call, a: Answer, tools: set<string>): seq<Write> {
    if Runs(c, a, tools) then a.writes else []
  }

  /** What a step leaves behind for others to see: events for the consumer, entered tools, saves. */
  datatype Log = Log(events: seq<StreamEvent>, executions: seq<Call>, writes: seq<Write>) {
    function Then(more: Log): Log {
      Log(events + more.events, executions + more.executions, writes + more.writes)
    }

    predicate PartOf(whole: Log) {
      events <= whole.events && executions <= whole.executions && writes <= whole.writes
    }
  }

  lemma ThenAssociative(a: Log, b: Log, c: Log)
    ensures a.Then(b).Then(c) == a.Then(b.Then(c))
  {
  }

  lemma ThenNothing(a: Log)
    ensures a.Then(Log([], [], [])) == a
  {
  }

  lemma ThenPart(a: Log, b: Log, c: Log)
    requires b.PartOf(c)
    ensures a.Then(b).PartOf(a.Then(c))
  {
  }

  function CallLog(c: Call, a: Answer, tools: set<string>): Log {
    Log(CallEvents(c, a, tools), Execution(c, a, tools), CallWrites(c, a, tools))
  }

  function ResultBlock(c: Call, r: Result): Block {
    ToolResult(c.id, r.success, r.output, r.error)
  }

  // ---- the calls of one round, the first k of them --------------------------------------------

  function Results(calls: seq<Call>, answers: nat -> Answer, tools: set<string>, k: nat): seq<Block>
    requires k <= |calls|
  {
    if k == 0 then []
    else
      Results(calls, answers, tools, k - 1)
      + [ResultBlock(calls[k - 1], ResultOf(calls[k - 1], answers(k - 1), tools))]
  }

  function CallsLog(calls: seq<Call>, answers: nat -> Answer, tools: set<string>, k: nat): Log
    requires k <= |calls|
  {
    if k == 0 then Log([], [], [])
    else CallsLog(calls, answers, tools, k - 1).Then(CallLog(calls[k - 1], answers(k - 1), tools))
  }

  lemma {:induction false} PrefixOfCalls(calls: seq<Call>, answers: nat -> Answer, tools: set<string>, k: nat, n: nat)
    requires k <= n <= |calls|
    ensures CallsLog(calls, answers, tools, k).PartOf(CallsLog(calls, answers, tools, n))
  {
    hide CallLog;
    if k < n {
      PrefixOfCalls(calls, answers, tools, k, n - 1);
    }
  }

  function ToolMessage(calls: seq<Call>, answers: nat -> Answer, tools: set<string>): Message {
    Message(ToolRole, Results(calls, answers, tools, |calls|))
  }

  // ---- rounds ---------------------------------------------------------------------------------

  function CallsAt(w: World, i: nat): seq<Call> {
    ToolCalls(w.rounds(i).events)
  }

  function ToolMessageAt(w: World, i: nat): Message {
    ToolMessage(CallsAt(w, i), w.rounds(i).answers, w.tools)
  }

  function RoundMessages(w: World, i: nat): seq<Message> {
    [AssistantMessage(w.rounds(i).events)] + if CallsAt(w, i) == [] then [] else [ToolMessageAt(w, i)]
  }

  /** What the tool calls of round i leave behind. */
  function ToolLogAt(w: World, i: nat): Log {
    CallsLog(CallsAt(w, i), w.rounds(i).answers, w.tools, |CallsAt(w, i)|)
  }

  function RoundEvents(w: World, i: nat): seq<StreamEvent> {
    Spoken(w.rounds(i).events) + ToolLogAt(w, i).events + [IterationCompleted(i)]
  }

  /** The compactor is asked to work on the history `ms` after round i. */
  predicate Compacts(w: World, i: nat, ms: seq<Message>) {
    CallsAt(w, i) != [] && w.trigger.Some? && w.counter(ms) > w.trigger.value && w.rounds(i).compacting.should
  }

  function AfterCompacting(w: World, i: nat, ms: seq<Message>): seq<Message> {
    if Compacts(w, i, ms) && w.rounds(i).compacting.result.Some? then w.rounds(i).compacting.result.value else ms
  }

  /** The history before round i, from the loaded one with the user message on it. */
  function History(w: World, opening: seq<Message>, i: nat): seq<Message> {
    if i == 0 then opening
    else AfterCompacting(w, i - 1, History(w, opening, i - 1) + RoundMessages(w, i - 1))
  }

  /** Without a compactor each round only adds its messages. */
  lemma NextHistory(w: World, opening: seq<Message>, i: nat)
    requires w.trigger == None
    ensures History(w, opening, i + 1) == History(w, opening, i) + RoundMessages(w, i)
  {
  }

  function Events(w: World, i: nat): seq<StreamEvent> {
    if i == 0 then [] else Events(w, i - 1) + RoundEvents(w, i - 1)
  }

  function Snapshots(w: World, opening: seq<Message>, i: nat): seq<seq<Message>> {
    if i == 0 then [] else Snapshots(w, opening, i - 1) + [History(w, opening, i - 1)]
  }

  function AllExecutions(w: World, i: nat): seq<Call> {
    if i == 0 then [] else AllExecutions(w, i - 1) + ToolLogAt(w, i - 1).executions
  }

  function AllWrites(w: World, i: nat): seq<Write> {
    if i == 0 then [] else AllWrites(w, i - 1) + ToolLogAt(w, i - 1).writes
  }

  function CompactionSaves(w: World, opening: seq<Message>, i: nat): nat {
    if i == 0 then 0
    else
      CompactionSaves(w, opening, i - 1)
      + if Compacts(w, i - 1, History(w, opening, i - 1) + RoundMessages(w, i - 1)) then 1 else 0
  }

  /** No further round follows the first i. */
  predicate Over(w: World, i: nat) {
    i >= w.maxIterations || (i > 0 && CallsAt(w, i - 1) == [])
  }

  /** The rounds before i all led on to another one. */
  predicate Reached(w: World, i: nat) {
    i == 0 || (Reached(w, i - 1) && !Over(w, i - 1))
  }

  /** A turn of exactly n rounds. */
  predicate Rounds(w: World, n: nat) {
    Over(w, n) && Reached(w, n)
  }

  function LastAttributes(a: Attributes, ws: seq<Write>): Attributes {
    if ws == [] then a else ws[|ws| - 1].attributes
  }

  /** The session in memory before round i. */
  function SessionAt(w: World, loaded: Record, user: Message, i: nat): Record {
    var opening := loaded.messages + [user];
    loaded.(version := loaded.version + |AllWrites(w, i)| + CompactionSaves(w, opening, i),
            messages := History(w, opening, i),
            attributes := LastAttributes(loaded.attributes, AllWrites(w, i)))
  }

  // ---- the stored record --------------------------------------------------------------------------

  /** What a tool's save makes of a stored record. */
  function Rewritten(r: Record, w: Write): Record {
    Record(r.id, w.tenant, r.version + 1, w.messages, w.attributes, w.metadata)
  }

  /** What is stored while `session` is in memory and tools have made the saves `pending` since the
      two last agreed: version and attributes follow the saves, and the last of them is what stands. */
  predicate StoredFits(stored: Record, session: Record, pending: seq<Write>) {
    && stored.id == session.id
    && stored.version == session.version + |pending|
    && stored.attributes == LastAttributes(session.attributes, pending)
    && (pending != [] ==> stored == SavedByTools(session, pending))
  }

  function SavedByTools(session: Record, pending: seq<Write>): Record
    requires pending != []
  {
    var last := pending[|pending| - 1];
    Record(session.id, last.tenant, session.version + |pending|, last.messages, last.attributes, last.metadata)
  }

  lemma OneMoreWrite(stored: Record, session: Record, pending: seq<Write>, w: Write)
    requires StoredFits(stored, session, pending)
    ensures StoredFits(Rewritten(stored, w), session, pending + [w])
  {
  }

  // ---- the session in memory ----------------------------------------------------------------------

  /** After the compaction check of round i. */
  function Rechecked(w: World, i: nat, r: Record): Record {
    r.(version := r.version + (if Compacts(w, i, r.messages) then 1 else 0),
       messages := AfterCompacting(w, i, r.messages))
  }

  /** After the resync: the engine's own messages, and the version and attributes the tools have
      saved. */
  function Resynced(r: Record, writes: seq<Write>): Record {
    r.(version := r.version + |writes|, attributes := LastAttributes(r.attributes, writes))
  }

  function WithMessage(r: Record, m: Message): Record {
    r.(messages := r.messages + [m])
  }

  function Spoke(w: World, i: nat, r: Record): Record {
    WithMessage(r, AssistantMessage(w.rounds(i).events))
  }

  function Answered(w: World, i: nat, r: Record): Record {
    WithMessage(Spoke(w, i, r), ToolMessageAt(w, i))
  }

  /** After round i, from the session before it. */
  function AfterRound(w: World, i: nat, r: Record): Record {
    if CallsAt(w, i) == [] then Spoke(w, i, r)
    else Rechecked(w, i, Resynced(Answered(w, i, r), ToolLogAt(w, i).writes))
  }

  lemma LastOfMore(a: Attributes, ws: seq<Write>, more: seq<Write>)
    ensures LastAttributes(a, ws + more) == LastAttributes(LastAttributes(a, ws), more)
  {
    if more == [] {
      assert ws + more == ws;
    }
  }

  lemma NoCallsNoLog(w: World, i: nat)
    requires CallsAt(w, i) == []
    ensures ToolLogAt(w, i) == Log([], [], [])
  {
  }

  lemma NextAfterAnswer(w: World, loaded: Record, user: Message, i: nat)
    requires CallsAt(w, i) == []
    ensures AfterRound(w, i, SessionAt(w, loaded, user, i)) == SessionAt(w, loaded, user, i + 1)
  {
    hide AssistantMessage, ToolCalls, ToolLogAt, LastAttributes;
    NoCallsNoLog(w, i);
    assert AllWrites(w, i) + [] == AllWrites(w, i);
  }

  lemma NextAfterTools(w: World, loaded: Record, user: Message, i: nat)
    requires CallsAt(w, i) != []
    ensures AfterRound(w, i, SessionAt(w, loaded, user, i)) == SessionAt(w, loaded, user, i + 1)
  {
    hide AssistantMessage, ToolCalls, ToolLogAt, ToolMessageAt, LastAttributes, Compacts, RoundMessages;
    var h := History(w, loaded.messages + [user], i);
    RoundAppends(w, i, h);
    LastOfMore(loaded.attributes, AllWrites(w, i), ToolLogAt(w, i).writes);
  }

  lemma NextSession(w: World, loaded: Record, user: Message, i: nat)
    ensures AfterRound(w, i, SessionAt(w, loaded, user, i)) == SessionAt(w, loaded, user, i + 1)
  {
    if CallsAt(w, i) == [] {
      NextAfterAnswer(w, loaded, user, i);
    } else {
      NextAfterTools(w, loaded, user, i);
    }
  }

  lemma RoundAppends(w: World, i: nat, h: seq<Message>)
    ensures CallsAt(w, i) != [] ==>
              h + RoundMessages(w, i) == h + [AssistantMessage(w.rounds(i).events)] + [ToolMessageAt(w, i)]
  {
    Associative(h, [AssistantMessage(w.rounds(i).events)], [ToolMessageAt(w, i)]);
  }

  // ---- whole and interrupted rounds -----------------------------------------------------------------

  /** All there is to see of a turn at some moment: the session in memory, what the consumer was
      given, which tools were entered, what they have saved since the last resync, and the requests. */
  datatype Trace = Trace(
    session: Record,
    events: seq<StreamEvent>,
    executions: seq<Call>,
    pending: seq<Write>,
    snapshots: seq<seq<Message>>)

  function TraceAt(w: World, loaded: Record, user: Message, i: nat): Trace {
    Trace(SessionAt(w, loaded, user, i), Events(w, i), AllExecutions(w, i), [],
          Snapshots(w, loaded.messages + [user], i))
  }

  lemma StartTrace(w: World, loaded: Record, user: Message)
    ensures TraceAt(w, loaded, user, 0) == Trace(WithMessage(loaded, user), [], [], [], [])
  {
  }

  function TraceAfterRound(w: World, i: nat, t: Trace): Trace {
    Trace(AfterRound(w, i, t.session), t.events + RoundEvents(w, i), t.executions + ToolLogAt(w, i).executions, [],
          t.snapshots + [t.session.messages])
  }

  lemma NextTrace(w: World, loaded: Record, user: Message, i: nat)
    ensures TraceAt(w, loaded, user, i + 1) == TraceAfterRound(w, i, TraceAt(w, loaded, user, i))
  {
    NextSession(w, loaded, user, i);
  }

  lemma PendingAt(w: World, loaded: Record, user: Message, i: nat)
    ensures TraceAt(w, loaded, user, i).pending == []
  {
  }

  /** A completed turn of n rounds, as of its save. */
  function TraceWhole(w: World, loaded: Record, user: Message, n: nat): Trace {
    TraceAt(w, loaded, user, n).(events := Events(w, n) + [TurnCompleted(n)])
  }

  /** Where the end of a round with tools can be broken off. */
  predicate FinishingTools(w: World, i: nat, resynced: Record, now: Record) {
    || now == resynced
    || now == Rechecked(w, i, resynced)
    || (now == Bumped(resynced) && Compacts(w, i, resynced.messages))
  }

  /** The session in memory and the saves it does not know of, somewhere in round i: nothing done;
      the assistant message appended and some tools run; all answered; resynced; the compactor's save
      made; compacted. */
  predicate SessionInRound(w: World, i: nat, before: Record, now: Record, pending: seq<Write>) {
    var writes := ToolLogAt(w, i).writes;
    var resynced := Resynced(Answered(w, i, before), writes);
    || (now == before && pending == [])
    || (now == Spoke(w, i, before) && pending <= writes)
    || (CallsAt(w, i) != [] && now == Answered(w, i, before) && pending == writes)
    || (CallsAt(w, i) != [] && pending == [] && FinishingTools(w, i, resynced, now))
  }

  /** What an interruption somewhere in round i can leave: part of what the round appends, streams,
      runs and saves, or all of it. */
  predicate PartOfRound(w: World, i: nat, before: Trace, t: Trace) {
    && SessionInRound(w, i, before.session, t.session, t.pending)
    && before.events <= t.events <= before.events + RoundEvents(w, i)
    && before.executions <= t.executions <= before.executions + ToolLogAt(w, i).executions
    && (t.snapshots == before.snapshots || t.snapshots == before.snapshots + [before.session.messages])
  }

  lemma EventsOfRound(w: World, i: nat, es: seq<StreamEvent>)
    ensures es + RoundEvents(w, i)
         == es + Spoken(w.rounds(i).events) + ToolLogAt(w, i).events + [IterationCompleted(i)]
  {
    var said, called := Spoken(w.rounds(i).events), ToolLogAt(w, i).events;
    Associative(es, said, called);
    Associative(es, said + called, [IterationCompleted(i)]);
  }

  /** Up to the assistant message. */
  lemma InterruptedSpeaking(w: World, i: nat, before: Trace, t: Trace)
    requires t.session == before.session || t.session == Spoke(w, i, before.session)
    requires before.events <= t.events <= before.events + Spoken(w.rounds(i).events)
    requires t.executions == before.executions && t.pending == []
    requires t.snapshots == before.snapshots || t.snapshots == before.snapshots + [before.session.messages]
    ensures PartOfRound(w, i, before, t)
  {
    EventsOfRound(w, i, before.events);
  }

  /** In the tool loop, the assistant message standing unanswered, or just after it. */
  lemma InterruptedUsingTools(w: World, i: nat, before: Trace, t: Trace)
    requires CallsAt(w, i) != []
    requires var was := Log(before.events + Spoken(w.rounds(i).events), before.executions, []);
             && was.PartOf(Log(t.events, t.executions, t.pending))
             && Log(t.events, t.executions, t.pending).PartOf(was.Then(ToolLogAt(w, i)))
    requires t.session == Spoke(w, i, before.session)
          || (t.session == Answered(w, i, before.session) && t.pending == ToolLogAt(w, i).writes)
    requires t.snapshots == before.snapshots + [before.session.messages]
    ensures PartOfRound(w, i, before, t)
  {
    EventsOfRound(w, i, before.events);
    assert [] + ToolLogAt(w, i).writes == ToolLogAt(w, i).writes;
  }

  /** All of the round has happened but perhaps its compaction check. */
  lemma InterruptedAfter(w: World, i: nat, before: Trace, t: Trace)
    requires if CallsAt(w, i) == [] then t.session == Spoke(w, i, before.session)
             else FinishingTools(w, i, Resynced(Answered(w, i, before.session), ToolLogAt(w, i).writes), t.session)
    requires t.events == before.events + RoundEvents(w, i)
    requires t.executions == before.executions + ToolLogAt(w, i).executions && t.pending == []
    requires t.snapshots == before.snapshots + [before.session.messages]
    ensures PartOfRound(w, i, before, t)
  {
  }

  /** What an interrupted turn leaves: some part of its round `at`, or, with all rounds done,
      everything but perhaps the last event. */
  predicate Unwound(w: World, loaded: Record, user: Message, at: nat, t: Trace) {
    && Reached(w, at)
    && if !Over(w, at) then PartOfRound(w, at, TraceAt(w, loaded, user, at), t)
       else
         && Events(w, at) <= t.events <= Events(w, at) + [TurnCompleted(at)]
         && t == TraceAt(w, loaded, user, at).(events := t.events)
  }

  /** The record a turn leaves in the store: its last save, or the last save of a tool if that came
      between the last resync and the end. */
  function LeftRecord(t: Trace): Record {
    if t.pending == [] then Bumped(t.session) else SavedByTools(t.session, t.pending)
  }

  /** All rounds done and perhaps the last event yielded. */
  lemma WoundUp(w: World, loaded: Record, user: Message, n: nat, t: Trace)
    requires Rounds(w, n) && t == TraceAt(w, loaded, user, n).(events := t.events)
    requires var done := TraceAt(w, loaded, user, n).events; done <= t.events <= done + [TurnCompleted(n)]
    ensures Unwound(w, loaded, user, n, t)
    ensures t.events == TraceAt(w, loaded, user, n).events + [TurnCompleted(n)] ==> t == TraceWhole(w, loaded, user, n)
  {
  }

  lemma NothingYet(w: World, loaded: Record, user: Message)
    ensures Unwound(w, loaded, user, 0, TraceAt(w, loaded, user, 0))
  {
  }

  /** The loop's own variables: i rounds are done, and `stop` when the last of them had no call. */
  predicate Stopping(w: World, i: nat, stop: bool) {
    Reached(w, i) && (stop <==> i > 0 && CallsAt(w, i - 1) == [])
  }

  lemma StartReached(w: World)
    ensures Stopping(w, 0, false)
  {
  }

  lemma NextReached(w: World, i: nat, stop: bool)
    requires Stopping(w, i, false) && i < w.maxIterations && (stop <==> CallsAt(w, i) == [])
    ensures Stopping(w, i + 1, stop)
  {
  }

  lemma AllRounds(w: World, i: nat, stop: bool)
    requires Stopping(w, i, stop) && (stop || i >= w.maxIterations)
    ensures Rounds(w, i)
  {
  }

  lemma UnwoundInRound(w: World, loaded: Record, user: Message, i: nat, t: Trace)
    requires Stopping(w, i, false) && i < w.maxIterations && PartOfRound(w, i, TraceAt(w, loaded, user, i), t)
    ensures Unwound(w, loaded, user, i, t) && !Over(w, i)
  {
  }

  /** The messages of a broken-off round. */
  lemma MessagesInRound(w: World, i: nat, before: Record, now: Record, pending: seq<Write>)
    requires SessionInRound(w, i, before, now, pending)
    ensures var h := before.messages; var own := RoundMessages(w, i);
            now.messages == h || now.messages == h + own[..1] || now.messages == h + own
            || now.messages == AfterCompacting(w, i, h + own)
  {
    hide AssistantMessage, ToolCalls, ToolLogAt, ToolMessageAt, LastAttributes, Compacts;
    RoundAppends(w, i, before.messages);
    assert RoundMessages(w, i)[..1] == [AssistantMessage(w.rounds(i).events)];
  }

  lemma EventsAt(w: World, loaded: Record, user: Message, i: nat)
    ensures TraceAt(w, loaded, user, i).events == Events(w, i)
  {
  }

  lemma EventsInRound(w: World, i: nat, before: Trace, t: Trace)
    requires before.events == Events(w, i) && PartOfRound(w, i, before, t)
    ensures Events(w, i) <= t.events <= Events(w, i + 1)
  {
    hide SessionInRound, RoundEvents;
  }
}
