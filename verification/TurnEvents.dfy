/** The event stream of a turn: the language it belongs to, and what can be read back from it. */
module TurnEvents {
  import opened Prelude
  import opened Messages
  import opened SessionStores
  import opened TurnModel
  import P = ProviderEvents

  // ---- the language, as an automaton ----------------------------------------------------------

  /** Where a consumer stands: in the deltas of iteration i; after one of its calls; between a
      call's announcement and its completion; after an iteration without calls, which is the last;
      or at the end of the turn. */
  datatype Phase =
    | Speaking(i: nat)
    | Called(i: nat)
    | Running(i: nat, name: string, id: string)
    | Answered(i: nat)
    | Ended
    | Broken

  function Step(p: Phase, e: StreamEvent): Phase {
    match e
    case TextDelta(_) => if p.Speaking? then p else Broken
    case ThinkingDelta(_) => if p.Speaking? then p else Broken
    case ToolCallStarted(name, id, _) => if p.Speaking? || p.Called? then Running(p.i, name, id) else Broken
    case ToolCallCompleted(name, id, _) =>
      if p.Speaking? || p.Called? then Called(p.i)
      else if p.Running? && p.name == name && p.id == id then Called(p.i)
      else Broken
    case IterationCompleted(i) =>
      if p.Speaking? && p.i == i then Answered(i)
      else if p.Called? && p.i == i then Speaking(i + 1)
      else Broken
    case TurnCompleted(n) =>
      if (p.Speaking? && p.i == n) || (p.Answered? && p.i + 1 == n) then Ended else Broken
  }

  function Run(p: Phase, es: seq<StreamEvent>): Phase {
    if es == [] then p else Step(Run(p, es[..|es| - 1]), es[|es| - 1])
  }

  lemma {:induction false} RunConcat(p: Phase, a: seq<StreamEvent>, b: seq<StreamEvent>)
    ensures Run(p, a + b) == Run(Run(p, a), b)
  {
    if b == [] {
      assert a + b == a;
    } else {
      var n := |b| - 1;
      assert (a + b)[..|a| + n] == a + b[..n];
      RunConcat(p, a, b[..n]);
    }
  }

  lemma RunOne(p: Phase, e: StreamEvent)
    ensures Run(p, [e]) == Step(p, e)
  {
    assert [e][..0] == [];
  }

  lemma {:induction false} SpokenRuns(i: nat, evs: seq<P.ProviderEvent>)
    ensures Run(Speaking(i), Spoken(evs)) == Speaking(i)
  {
    if evs != [] {
      var front, last := evs[..|evs| - 1], evs[|evs| - 1];
      SpokenRuns(i, front);
      RunConcat(Speaking(i), Spoken(front), Said(last));
      if Said(last) != [] {
        RunOne(Speaking(i), Said(last)[0]);
        assert Said(last) == [Said(last)[0]];
      }
    }
  }

  lemma CallRuns(p: Phase, c: Call, a: Answer, tools: set<string>)
    requires p.Speaking? || p.Called?
    ensures Run(p, CallEvents(c, a, tools)) == Called(p.i)
  {
    var completed := ToolCallCompleted(c.name, c.id, ResultOf(c, a, tools));
    RunConcat(p, Announcement(c, a, tools), [completed]);
    if Cleared(c, a, tools) {
      RunOne(p, ToolCallStarted(c.name, c.id, c.args));
      RunOne(Running(p.i, c.name, c.id), completed);
    } else {
      assert Run(p, []) == p;
      RunOne(p, completed);
    }
  }

  lemma OneMoreCall(calls: seq<Call>, answers: nat -> Answer, tools: set<string>, k: nat)
    requires k < |calls|
    ensures CallsLog(calls, answers, tools, k + 1).events
         == CallsLog(calls, answers, tools, k).events + CallEvents(calls[k], answers(k), tools)
  {
  }

  lemma NothingRun(p: Phase, calls: seq<Call>, answers: nat -> Answer, tools: set<string>)
    ensures CallsLog(calls, answers, tools, 0).events == [] && Run(p, []) == p
  {
  }

  lemma {:induction false} CallsRun(i: nat, calls: seq<Call>, answers: nat -> Answer, tools: set<string>, k: nat)
    requires k <= |calls|
    ensures Run(Speaking(i), CallsLog(calls, answers, tools, k).events) == if k == 0 then Speaking(i) else Called(i)
  {
    hide Run, CallEvents, CallsLog;
    if k == 0 {
      NothingRun(Speaking(i), calls, answers, tools);
    } else {
      CallsRun(i, calls, answers, tools, k - 1);
      OneMoreCall(calls, answers, tools, k - 1);
      var before := CallsLog(calls, answers, tools, k - 1).events;
      var own := CallEvents(calls[k - 1], answers(k - 1), tools);
      RunConcat(Speaking(i), before, own);
      CallRuns(Run(Speaking(i), before), calls[k - 1], answers(k - 1), tools);
    }
  }

  lemma RoundRuns(w: World, i: nat)
    ensures Run(Speaking(i), RoundEvents(w, i)) == if CallsAt(w, i) == [] then Answered(i) else Speaking(i + 1)
  {
    hide Run, Spoken, CallsLog, ToolCalls;
    var said, called := Spoken(w.rounds(i).events), ToolLogAt(w, i).events;
    RunConcat(Speaking(i), said + called, [IterationCompleted(i)]);
    RunConcat(Speaking(i), said, called);
    SpokenRuns(i, w.rounds(i).events);
    CallsRun(i, CallsAt(w, i), w.rounds(i).answers, w.tools, |CallsAt(w, i)|);
    RunOne(if CallsAt(w, i) == [] then Speaking(i) else Called(i), IterationCompleted(i));
  }

  lemma {:induction false} EventsRun(w: World, i: nat)
    requires Reached(w, i)
    ensures Run(Speaking(0), Events(w, i)) == if i > 0 && CallsAt(w, i - 1) == [] then Answered(i - 1) else Speaking(i)
  {
    hide RoundEvents;
    if i > 0 {
      EventsRun(w, i - 1);
      RoundRuns(w, i - 1);
      RunConcat(Speaking(0), Events(w, i - 1), RoundEvents(w, i - 1));
    }
  }

  /** A completed turn streams a whole sentence of the language: deltas, then per call an optional
      announcement and its completion, per iteration, in order, every iteration but the last with a
      call; and no more iterations than the configuration allows. */
  lemma CompletedTurnIsSentence(w: World, n: nat)
    requires Rounds(w, n)
    ensures Run(Speaking(0), Events(w, n) + [TurnCompleted(n)]) == Ended
    ensures n <= if w.maxIterations > 0 then w.maxIterations else 0
  {
    EventsRun(w, n);
    RunConcat(Speaking(0), Events(w, n), [TurnCompleted(n)]);
    RunOne(Run(Speaking(0), Events(w, n)), TurnCompleted(n));
  }

  lemma {:induction false} BrokenStays(es: seq<StreamEvent>)
    ensures Run(Broken, es) == Broken
  {
    if es != [] {
      BrokenStays(es[..|es| - 1]);
    }
  }

  lemma PrefixOfSentence(p: Phase, es: seq<StreamEvent>, whole: seq<StreamEvent>)
    requires es <= whole && Run(p, whole) != Broken
    ensures Run(p, es) != Broken
  {
    assert whole == es + whole[|es|..];
    RunConcat(p, es, whole[|es|..]);
    BrokenStays(whole[|es|..]);
  }

  lemma {:induction false} EventsGrow(w: World, i: nat, n: nat)
    requires i <= n
    ensures Events(w, i) <= Events(w, n)
  {
    hide RoundEvents;
    if i < n {
      EventsGrow(w, i, n - 1);
    }
  }

  /** An interrupted turn has streamed the beginning of a sentence. */
  lemma InterruptedTurnIsPrefix(w: World, loaded: Record, user: Message, at: nat, t: Trace)
    requires Unwound(w, loaded, user, at, t)
    ensures Run(Speaking(0), t.events) != Broken
  {
    hide RoundEvents, PartOfRound, TraceAt, Run;
    if Over(w, at) {
      CompletedTurnIsSentence(w, at);
      PrefixOfSentence(Speaking(0), t.events, Events(w, at) + [TurnCompleted(at)]);
    } else {
      EventsAt(w, loaded, user, at);
      EventsInRound(w, at, TraceAt(w, loaded, user, at), t);
      EventsRun(w, at + 1);
      PrefixOfSentence(Speaking(0), t.events, Events(w, at + 1));
    }
  }

  // ---- reading the history back -----------------------------------------------------------------

  function DeltaTexts(es: seq<StreamEvent>): seq<string> {
    if es == [] then []
    else DeltaTexts(es[..|es| - 1]) + if es[|es| - 1].TextDelta? then [es[|es| - 1].text] else []
  }

  function CompletedBlocks(es: seq<StreamEvent>): seq<Block> {
    if es == [] then []
    else
      CompletedBlocks(es[..|es| - 1])
      + var e := es[|es| - 1];
        if e.ToolCallCompleted? then [ToolResult(e.id, e.result.success, e.result.output, e.result.error)] else []
  }

  lemma {:induction false} ReadConcat(a: seq<StreamEvent>, b: seq<StreamEvent>)
    ensures DeltaTexts(a + b) == DeltaTexts(a) + DeltaTexts(b)
    ensures CompletedBlocks(a + b) == CompletedBlocks(a) + CompletedBlocks(b)
  {
    if b == [] {
      assert a + b == a;
    } else {
      var front, last := b[..|b| - 1], b[|b| - 1];
      assert a + b == a + front + [last];
      SplitLast(b);
      ReadMore(a + front, last);
      ReadMore(front, last);
      ReadConcat(a, front);
    }
  }

  lemma ReadMore(es: seq<StreamEvent>, e: StreamEvent)
    ensures DeltaTexts(es + [e]) == if e.TextDelta? then DeltaTexts(es) + [e.text] else DeltaTexts(es)
    ensures CompletedBlocks(es + [e])
         == if e.ToolCallCompleted?
            then CompletedBlocks(es) + [ToolResult(e.id, e.result.success, e.result.output, e.result.error)]
            else CompletedBlocks(es)
  {
    assert (es + [e])[..|es|] == es;
  }

  lemma {:induction false} SpokenReads(evs: seq<P.ProviderEvent>)
    ensures DeltaTexts(Spoken(evs)) == Texts(evs) && CompletedBlocks(Spoken(evs)) == []
  {
    if evs != [] {
      var front, last := evs[..|evs| - 1], evs[|evs| - 1];
      SpokenReads(front);
      SplitLast(evs);
      OneMoreEvent(front, last);
      if Said(last) == [] {
        assert Spoken(front) + [] == Spoken(front);
      } else {
        ReadMore(Spoken(front), Said(last)[0]);
        assert Said(last) == [Said(last)[0]];
      }
    }
  }

  lemma CallReads(before: seq<StreamEvent>, c: Call, a: Answer, tools: set<string>)
    ensures DeltaTexts(before + CallEvents(c, a, tools)) == DeltaTexts(before)
    ensures CompletedBlocks(before + CallEvents(c, a, tools))
         == CompletedBlocks(before) + [ResultBlock(c, ResultOf(c, a, tools))]
  {
    hide DeltaTexts, CompletedBlocks, ResultOf, Cleared;
    var announced := before + Announcement(c, a, tools);
    var completed := ToolCallCompleted(c.name, c.id, ResultOf(c, a, tools));
    Associative(before, Announcement(c, a, tools), [completed]);
    ReadMore(announced, completed);
    if Cleared(c, a, tools) {
      ReadMore(before, ToolCallStarted(c.name, c.id, c.args));
    } else {
      assert announced == before;
    }
  }

  lemma {:induction false} CallsRead(calls: seq<Call>, answers: nat -> Answer, tools: set<string>, k: nat)
    requires k <= |calls|
    ensures DeltaTexts(CallsLog(calls, answers, tools, k).events) == []
    ensures CompletedBlocks(CallsLog(calls, answers, tools, k).events) == Results(calls, answers, tools, k)
  {
    hide CallEvents, ResultOf, CallsLog;
    if k == 0 {
      NothingRun(Ended, calls, answers, tools);
    } else {
      CallsRead(calls, answers, tools, k - 1);
      OneMoreCall(calls, answers, tools, k - 1);
      CallReads(CallsLog(calls, answers, tools, k - 1).events, calls[k - 1], answers(k - 1), tools);
    }
  }

  /** The events of a round hold its history: the text deltas join to the assistant message's one
      text block, and the completions list the tool message. */
  lemma RoundReads(w: World, i: nat)
    ensures DeltaTexts(RoundEvents(w, i)) == Texts(w.rounds(i).events)
    ensures CompletedBlocks(RoundEvents(w, i)) == ToolMessageAt(w, i).content
    ensures AssistantMessage(w.rounds(i).events).content
         == ThoughtBlocks(w.rounds(i).events) + TextBlocks(DeltaTexts(RoundEvents(w, i))) + CallBlocks(CallsAt(w, i))
  {
    var said, called := Spoken(w.rounds(i).events), ToolLogAt(w, i).events;
    ReadMore(said + called, IterationCompleted(i));
    ReadConcat(said, called);
    SpokenReads(w.rounds(i).events);
    CallsRead(CallsAt(w, i), w.rounds(i).answers, w.tools, |CallsAt(w, i)|);
  }

  /** The text of a message: its text blocks joined. */
  function TextOf(content: seq<Block>): string {
    if content == [] then ""
    else TextOf(content[..|content| - 1]) + if content[|content| - 1].Text? then content[|content| - 1].text else ""
  }

  /** The text of the assistant messages that the first n rounds appended, whatever a compaction made
      of the history afterwards. */
  function AppendedText(w: World, n: nat): string {
    if n == 0 then "" else AppendedText(w, n - 1) + TextOf(AssistantMessage(w.rounds(n - 1).events).content)
  }

  lemma {:induction false} TextOfConcat(a: seq<Block>, b: seq<Block>)
    ensures TextOf(a + b) == TextOf(a) + TextOf(b)
  {
    if b == [] {
      assert a + b == a;
    } else {
      var front, last := b[..|b| - 1], b[|b| - 1];
      assert (a + b)[..|a + b| - 1] == a + front;
      TextOfConcat(a, front);
      Associative(TextOf(a), TextOf(front), if last.Text? then last.text else "");
    }
  }

  lemma {:induction false} NoTextIn(content: seq<Block>)
    requires forall k :: 0 <= k < |content| ==> !content[k].Text?
    ensures TextOf(content) == ""
  {
    if content != [] {
      NoTextIn(content[..|content| - 1]);
    }
  }

  lemma {:induction false} ThoughtsHaveNoText(evs: seq<P.ProviderEvent>)
    ensures forall k :: 0 <= k < |ThoughtBlocks(evs)| ==> !ThoughtBlocks(evs)[k].Text?
  {
    if evs != [] {
      ThoughtsHaveNoText(evs[..|evs| - 1]);
    }
  }

  lemma AssistantTextIs(evs: seq<P.ProviderEvent>)
    ensures TextOf(AssistantMessage(evs).content) == Flatten(Texts(evs))
  {
    var thoughts, texts, calls := ThoughtBlocks(evs), TextBlocks(Texts(evs)), CallBlocks(ToolCalls(evs));
    hide TextOf, ThoughtBlocks, ToolCalls, Texts, Flatten;
    TextOfConcat(thoughts + texts, calls);
    TextOfConcat(thoughts, texts);
    ThoughtsHaveNoText(evs);
    NoTextIn(thoughts);
    NoTextIn(calls);
    TextOfBlocks(Texts(evs));
  }

  lemma TextOfBlocks(texts: seq<string>)
    ensures TextOf(TextBlocks(texts)) == Flatten(texts)
  {
    if texts != [] {
      assert TextBlocks(texts)[..0] == [];
    }
  }

  /** What a parent is told of its child, the child's text deltas joined, is the text of all the
      assistant messages the child's turn appended. */
  lemma {:induction false} ChildResult(w: World, n: nat)
    ensures Flatten(DeltaTexts(Events(w, n) + [TurnCompleted(n)])) == AppendedText(w, n)
  {
    ReadMore(Events(w, n), TurnCompleted(n));
    DeltasAre(w, n);
  }

  lemma {:induction false} DeltasAre(w: World, n: nat)
    ensures Flatten(DeltaTexts(Events(w, n))) == AppendedText(w, n)
  {
    hide DeltaTexts, CompletedBlocks, RoundEvents, AssistantMessage, TextOf;
    if n == 0 {
      NothingRead();
    } else {
      DeltasAre(w, n - 1);
      RoundReads(w, n - 1);
      AssistantTextIs(w.rounds(n - 1).events);
      ReadConcat(Events(w, n - 1), RoundEvents(w, n - 1));
      FlattenConcat(DeltaTexts(Events(w, n - 1)), DeltaTexts(RoundEvents(w, n - 1)));
    }
  }

  lemma NothingRead()
    ensures DeltaTexts([]) == [] && CompletedBlocks([]) == []
  {
  }

  // ---- the whole turn, read back from its one stream --------------------------------------------------

  /** What a consumer makes of one iteration: the text block, if there was any text, and the tool
      results. */
  datatype Reading = Reading(text: seq<Block>, results: seq<Block>)

  /** The stream cut at its IterationCompleted events: what each closed iteration holds, and the
      events since the last. */
  function Cut(es: seq<StreamEvent>): (seq<Reading>, seq<StreamEvent>) {
    if es == [] then ([], [])
    else
      var (closed, open) := Cut(es[..|es| - 1]);
      var e := es[|es| - 1];
      if e.IterationCompleted? then (closed + [Reading(TextBlocks(DeltaTexts(open)), CompletedBlocks(open))], [])
      else (closed, open + [e])
  }

  lemma CutMore(es: seq<StreamEvent>, e: StreamEvent)
    ensures var (closed, open) := Cut(es);
            Cut(es + [e]) == if e.IterationCompleted?
                             then (closed + [Reading(TextBlocks(DeltaTexts(open)), CompletedBlocks(open))], [])
                             else (closed, open + [e])
  {
    assert (es + [e])[..|es|] == es;
  }

  predicate NoCut(es: seq<StreamEvent>) {
    forall k :: 0 <= k < |es| ==> !es[k].IterationCompleted?
  }

  lemma {:induction false} CutOpen(es: seq<StreamEvent>, own: seq<StreamEvent>)
    requires NoCut(own)
    ensures Cut(es + own) == (Cut(es).0, Cut(es).1 + own)
  {
    if own == [] {
      assert es + own == es && Cut(es).1 + own == Cut(es).1;
    } else {
      hide Cut;
      var front, last := own[..|own| - 1], own[|own| - 1];
      CutOpen(es, front);
      SplitLast(own);
      Associative(es, front, [last]);
      CutMore(es + front, last);
      Associative(Cut(es).1, front, [last]);
    }
  }

  lemma {:induction false} SpokenNoCut(evs: seq<P.ProviderEvent>)
    ensures NoCut(Spoken(evs))
  {
    if evs != [] {
      SpokenNoCut(evs[..|evs| - 1]);
    }
  }

  lemma {:induction false} CallsNoCut(calls: seq<Call>, answers: nat -> Answer, tools: set<string>, k: nat)
    requires k <= |calls|
    ensures NoCut(CallsLog(calls, answers, tools, k).events)
  {
    hide ResultOf, Cleared;
    if k > 0 {
      CallsNoCut(calls, answers, tools, k - 1);
    }
  }

  /** The reading of round i that the model gives. */
  function ReadingOf(w: World, i: nat): Reading {
    Reading(TextBlocks(Texts(w.rounds(i).events)), ToolMessageAt(w, i).content)
  }

  function Readings(w: World, n: nat): seq<Reading> {
    if n == 0 then [] else Readings(w, n - 1) + [ReadingOf(w, n - 1)]
  }

  lemma RoundCut(w: World, i: nat, es: seq<StreamEvent>)
    requires Cut(es).1 == []
    ensures Cut(es + RoundEvents(w, i)) == (Cut(es).0 + [ReadingOf(w, i)], [])
  {
    hide Cut, DeltaTexts, CompletedBlocks, Spoken, CallsLog, ToolCalls, Texts, TextBlocks;
    var own := Spoken(w.rounds(i).events) + ToolLogAt(w, i).events;
    SpokenNoCut(w.rounds(i).events);
    CallsNoCut(CallsAt(w, i), w.rounds(i).answers, w.tools, |CallsAt(w, i)|);
    CutOpen(es, own);
    assert [] + own == own;
    Associative(es, own, [IterationCompleted(i)]);
    CutMore(es + own, IterationCompleted(i));
    RoundReads(w, i);
    ReadMore(own, IterationCompleted(i));
  }

  lemma {:induction false} EventsCut(w: World, n: nat)
    ensures Cut(Events(w, n)) == (Readings(w, n), [])
  {
    hide RoundEvents, ReadingOf;
    if n > 0 {
      EventsCut(w, n - 1);
      RoundCut(w, n - 1, Events(w, n - 1));
    }
  }

  lemma {:induction false} ReadingIs(w: World, n: nat, i: nat)
    requires i < n
    ensures |Readings(w, n)| == n && Readings(w, n)[i] == ReadingOf(w, i)
  {
    if n > 1 {
      ReadingIs(w, n - 1, if i < n - 1 then i else 0);
    }
  }

  /** From nothing but the flat stream of a completed turn, cut at its iteration events, a consumer gets
      one reading per round, and with the round's thinking and call blocks they are exactly the messages
      the round appended. */
  lemma HistoryFromStream(w: World, n: nat, i: nat)
    requires i < n
    ensures var readings := Cut(Events(w, n) + [TurnCompleted(n)]).0;
            var evs := w.rounds(i).events;
            && |readings| == n
            && AssistantMessage(evs).content == ThoughtBlocks(evs) + readings[i].text + CallBlocks(CallsAt(w, i))
            && (CallsAt(w, i) == [] ==> readings[i].results == [] && RoundMessages(w, i) == [AssistantMessage(evs)])
            && (CallsAt(w, i) != [] ==>
                  RoundMessages(w, i) == [AssistantMessage(evs), Message(ToolRole, readings[i].results)])
  {
    hide Cut, Events, Texts, ToolCalls;
    EventsCut(w, n);
    CutMore(Events(w, n), TurnCompleted(n));
    ReadingIs(w, n, i);
    assert [AssistantMessage(w.rounds(i).events)] + [] == [AssistantMessage(w.rounds(i).events)];
  }

  // ---- executions ---------------------------------------------------------------------------------

  /** Call k of round i entered its tool, as `e`. */
  predicate RanAs(w: World, i: nat, k: nat, e: Call) {
    && k < |CallsAt(w, i)|
    && Runs(CallsAt(w, i)[k], w.rounds(i).answers(k), w.tools)
    && e == CallsAt(w, i)[k].(args := PassedArgs(CallsAt(w, i)[k], w.rounds(i).answers(k)))
  }

  lemma {:induction false} CallRanIn(w: World, i: nat, n: nat, e: Call)
    requires n <= |CallsAt(w, i)|
    ensures e in CallsLog(CallsAt(w, i), w.rounds(i).answers, w.tools, n).executions <==>
              exists k :: 0 <= k < n && RanAs(w, i, k, e)
  {
    if n > 0 {
      var k := n - 1;
      CallRanIn(w, i, k, e);
      assert RanAs(w, i, k, e) <==> e in Execution(CallsAt(w, i)[k], w.rounds(i).answers(k), w.tools);
    }
  }

  /** Some call of round i entered its tool, as `e`. */
  predicate RanIn(w: World, i: nat, e: Call) {
    exists k :: 0 <= k < |CallsAt(w, i)| && RanAs(w, i, k, e)
  }

  /** A tool is entered exactly for the registered calls that the resolver allowed and no pre_tool
      hook refused, with the arguments the hooks left. */
  lemma {:induction false} OnlyAllowedCallsRun(w: World, n: nat, e: Call)
    ensures e in AllExecutions(w, n) <==> exists i :: 0 <= i < n && RanIn(w, i, e)
  {
    hide ToolLogAt, RanAs;
    if n > 0 {
      OnlyAllowedCallsRun(w, n - 1, e);
      RoundRanIn(w, n - 1, e);
    }
  }

  lemma RoundRanIn(w: World, i: nat, e: Call)
    ensures e in ToolLogAt(w, i).executions <==> RanIn(w, i, e)
  {
    CallRanIn(w, i, |CallsAt(w, i)|, e);
  }
}
