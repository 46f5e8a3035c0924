/** Calls and results in the engine's history: every request the provider sees is well paired, and
    an interrupted turn leaves at most one assistant message unanswered, its last message. */
module TurnPairing {
  import opened Prelude
  import opened Messages
  import opened SessionStores
  import opened TurnModel
  import P = ProviderEvents
  import Hooks
  import OpenAIConverter
  import Compaction

  function Ids(calls: seq<Call>): seq<string> {
    if calls == [] then [] else Ids(calls[..|calls| - 1]) + [calls[|calls| - 1].id]
  }

  lemma {:induction false} NoCallsIn(content: seq<Block>)
    requires forall k :: 0 <= k < |content| ==> !content[k].ToolCall?
    ensures CallIds(content) == []
  {
    if content != [] {
      NoCallsIn(content[1..]);
    }
  }

  lemma {:induction false} ThoughtsHaveNoCalls(evs: seq<P.ProviderEvent>)
    ensures CallIds(ThoughtBlocks(evs)) == []
  {
    ThoughtKinds(evs);
    NoCallsIn(ThoughtBlocks(evs));
  }

  lemma {:induction false} ThoughtKinds(evs: seq<P.ProviderEvent>)
    ensures forall k :: 0 <= k < |ThoughtBlocks(evs)| ==>
              ThoughtBlocks(evs)[k].Thinking? || ThoughtBlocks(evs)[k].Redacted?
  {
    if evs != [] {
      ThoughtKinds(evs[..|evs| - 1]);
    }
  }

  lemma {:induction false} CallBlockIds(calls: seq<Call>)
    ensures CallIds(CallBlocks(calls)) == Ids(calls)
  {
    if calls == [] {
      assert CallBlocks(calls) == [];
    } else {
      var front, last := calls[..|calls| - 1], calls[|calls| - 1];
      var block := ToolCall(last.id, last.name, last.args);
      CallBlockIds(front);
      assert CallBlocks(calls) == CallBlocks(front) + [block];
      CallIdsConcat(CallBlocks(front), [block]);
      assert [block][1..] == [];
      assert CallIds([block]) == [block.id];
    }
  }

  lemma AssistantCallIds(evs: seq<P.ProviderEvent>)
    ensures CallIds(AssistantMessage(evs).content) == Ids(ToolCalls(evs))
  {
    var thoughts, texts, calls := ThoughtBlocks(evs), TextBlocks(Texts(evs)), CallBlocks(ToolCalls(evs));
    CallIdsConcat(thoughts + texts, calls);
    CallIdsConcat(thoughts, texts);
    ThoughtsHaveNoCalls(evs);
    NoCallsIn(texts);
    CallBlockIds(ToolCalls(evs));
  }

  lemma {:induction false} ResultBlockIds(calls: seq<Call>, answers: nat -> Answer, tools: set<string>, k: nat)
    requires k <= |calls|
    ensures ResultIds(Results(calls, answers, tools, k)) == Ids(calls[..k])
  {
    if k > 0 {
      ResultBlockIds(calls, answers, tools, k - 1);
      var block := ResultBlock(calls[k - 1], ResultOf(calls[k - 1], answers(k - 1), tools));
      ResultIdsConcat(Results(calls, answers, tools, k - 1), [block]);
      assert [block][1..] == [];
      assert ResultIds([block]) == [block.id];
      assert calls[..k][..k - 1] == calls[..k - 1];
    }
  }

  lemma IdsEmpty(calls: seq<Call>)
    ensures Ids(calls) == [] <==> calls == []
  {
  }

  lemma ToolMessageAnswers(w: World, i: nat)
    requires CallsAt(w, i) != []
    ensures Answers(AssistantMessage(w.rounds(i).events), ToolMessageAt(w, i))
  {
    var calls := CallsAt(w, i);
    AssistantCallIds(w.rounds(i).events);
    ResultBlockIds(calls, w.rounds(i).answers, w.tools, |calls|);
    TakeAll(calls);
    IdsEmpty(calls);
  }

  lemma PlainAssistant(w: World, i: nat)
    ensures Calls(AssistantMessage(w.rounds(i).events)) <==> CallsAt(w, i) != []
  {
    AssistantCallIds(w.rounds(i).events);
    IdsEmpty(CallsAt(w, i));
  }

  /** A whole round keeps the history well paired; up to its assistant message it is so but for
      that message. */
  lemma RoundKeepsPaired(w: World, i: nat, h: seq<Message>)
    requires WellPaired(h)
    ensures WellPaired(h + RoundMessages(w, i))
    ensures PairedButLast(h + RoundMessages(w, i)[..1])
  {
    var a := AssistantMessage(w.rounds(i).events);
    PlainAssistant(w, i);
    PlainKeepsPaired(h, a);
    assert RoundMessages(w, i)[..1] == [a];
    if CallsAt(w, i) == [] {
      assert RoundMessages(w, i) == [a];
    } else {
      ToolMessageAnswers(w, i);
      AnswerKeepsPaired(h, a, ToolMessageAt(w, i));
      assert RoundMessages(w, i) == [a, ToolMessageAt(w, i)];
    }
  }

  /** Whatever compactions replaced the history in the first n rounds, they left it well paired. */
  ghost predicate CompactionsPaired(w: World, opening: seq<Message>, n: nat) {
    forall i :: 0 <= i < n ==> CompactionPaired(w, opening, i)
  }

  predicate CompactionPaired(w: World, opening: seq<Message>, i: nat) {
    var h := History(w, opening, i) + RoundMessages(w, i);
    AfterCompacting(w, i, h) != h ==> WellPaired(AfterCompacting(w, i, h))
  }

  lemma NoCompactorPaired(w: World, opening: seq<Message>, n: nat)
    requires w.trigger == None
    ensures CompactionsPaired(w, opening, n)
  {
  }

  lemma {:induction false} HistoryPaired(w: World, opening: seq<Message>, i: nat)
    requires WellPaired(opening) && CompactionsPaired(w, opening, i)
    ensures WellPaired(History(w, opening, i))
  {
    hide RoundMessages, WellPaired;
    if i > 0 {
      HistoryPaired(w, opening, i - 1);
      RoundKeepsPaired(w, i - 1, History(w, opening, i - 1));
      assert CompactionPaired(w, opening, i - 1);
    }
  }

  lemma {:induction false} SnapshotIs(w: World, opening: seq<Message>, n: nat, k: nat)
    requires k < n
    ensures |Snapshots(w, opening, n)| == n && Snapshots(w, opening, n)[k] == History(w, opening, k)
  {
    hide History;
    if n > 1 {
      SnapshotIs(w, opening, n - 1, if k < n - 1 then k else 0);
    }
  }

  /** Every request of a turn is well paired, and so is its OpenAI form. */
  lemma EveryRequestPaired(w: World, opening: seq<Message>, n: nat, k: nat, systemPrompt: string, replay: bool)
    requires WellPaired(opening) && CompactionsPaired(w, opening, n) && k < n
    ensures |Snapshots(w, opening, n)| == n && WellPaired(Snapshots(w, opening, n)[k])
    ensures OpenAIConverter.WirePaired(OpenAIConverter.Opening(systemPrompt)
                                       + OpenAIConverter.ConvertedAll(Snapshots(w, opening, n)[k], replay))
  {
    SnapshotIs(w, opening, n, k);
    HistoryPaired(w, opening, k);
    OpenAIConverter.RequestIsPaired(History(w, opening, k), systemPrompt, replay);
  }

  /** The summarization compactor inside a turn: the next request stays well paired exactly when
      the first message it keeps is not a tool message. */
  lemma SummarizedRound(w: World, opening: seq<Message>, i: nat, keep: nat, summarize: Compaction.Summarizer)
    requires WellPaired(History(w, opening, i)) && keep >= 1
    requires var h := History(w, opening, i) + RoundMessages(w, i);
             && Compacts(w, i, h)
             && w.rounds(i).compacting.result == Some(Compaction.Compacted(h, keep, summarize))
    ensures var h := History(w, opening, i) + RoundMessages(w, i);
            WellPaired(History(w, opening, i + 1)) <==>
              !Compaction.Fires(h, keep) || h[|h| - keep].role != ToolRole
  {
    hide RoundMessages, WellPaired, PairedButLast;
    var h := History(w, opening, i) + RoundMessages(w, i);
    RoundKeepsPaired(w, i, History(w, opening, i));
    if Compaction.Fires(h, keep) {
      Compaction.CompactionKeepsPairsIff(h, keep, summarize);
    }
  }

  /** With `keep_recent` 1 the one message kept is the round's tool message, so whenever such a
      compaction fires the next request holds a tool message without its call. */
  lemma KeepingOneBreaksPairs(w: World, opening: seq<Message>, i: nat, summarize: Compaction.Summarizer)
    requires WellPaired(History(w, opening, i))
    requires var h := History(w, opening, i) + RoundMessages(w, i);
             && Compacts(w, i, h) && Compaction.Fires(h, 1)
             && w.rounds(i).compacting.result == Some(Compaction.Compacted(h, 1, summarize))
    ensures !WellPaired(History(w, opening, i + 1))
  {
    SummarizedRound(w, opening, i, 1, summarize);
    RoundAppends(w, i, History(w, opening, i));
  }

  /** Such a turn: one user message, one call, and a compactor that fires after it. */
  lemma KeepingOneHappens() returns (w: World, opening: seq<Message>, summarize: Compaction.Summarizer)
    ensures WellPaired(History(w, opening, 0))
    ensures var h := History(w, opening, 0) + RoundMessages(w, 0);
            && Compacts(w, 0, h) && Compaction.Fires(h, 1)
            && w.rounds(0).compacting.result == Some(Compaction.Compacted(h, 1, summarize))
    ensures !WellPaired(History(w, opening, 1))
  {
    opening, summarize := [Message(User, [])], _ => "";
    var evs := [P.ToolCallEvent("c", "t", "{}")];
    var answer := Answer(Allow, Hooks.CONTINUE, [], Returned(Result(true, "null", "")));
    var h := opening + [AssistantMessage(evs), ToolMessage([Call("c", "t", "{}")], _ => answer, {"t"})];
    var round := Round(evs, _ => answer, Compacting(true, Some(Compaction.Compacted(h, 1, summarize))));
    w := World(_ => round, {"t"}, 2, Some(0), ms => |ms|);
    assert evs == [] + [evs[0]];
    OneMoreEvent([], evs[0]);
    NothingHeard();
    assert CallsAt(w, 0) == [Call("c", "t", "{}")];
    assert RoundMessages(w, 0) == h[1..];
    assert opening + RoundMessages(w, 0) == h;
    assert Compaction.SystemRun(h) == [];
    KeepingOneBreaksPairs(w, opening, 0, summarize);
  }

  // ---- a conversation of many turns --------------------------------------------------------------

  /** One completed turn: the user's message, the oracles, and the number of rounds it took. */
  datatype Played = Played(user: Message, w: World, n: nat)

  /** The stored messages after some completed turns. */
  function Conversation(base: seq<Message>, turns: seq<Played>): seq<Message> {
    if turns == [] then base
    else
      var last := turns[|turns| - 1];
      History(last.w, Conversation(base, turns[..|turns| - 1]) + [last.user], last.n)
  }

  predicate Plain(t: Played) {
    t.user.role == User && t.w.trigger == None
  }

  lemma {:induction false} ConversationPaired(base: seq<Message>, turns: seq<Played>)
    requires WellPaired(base) && forall k :: 0 <= k < |turns| ==> Plain(turns[k])
    ensures WellPaired(Conversation(base, turns))
  {
    if turns != [] {
      var front, last := turns[..|turns| - 1], turns[|turns| - 1];
      ConversationPaired(base, front);
      assert Plain(last);
      PlainKeepsPaired(Conversation(base, front), last.user);
      NoCompactorPaired(last.w, Conversation(base, front) + [last.user], last.n);
      HistoryPaired(last.w, Conversation(base, front) + [last.user], last.n);
    }
  }

  /** From a well-paired history, over any number of completed turns without compaction, the k-th
      request of the next turn is well paired and converts to a correctly paired wire list. */
  lemma RequestsStayPaired(base: seq<Message>, turns: seq<Played>, next: Played, k: nat,
                           systemPrompt: string, replay: bool)
    requires WellPaired(base) && forall j :: 0 <= j < |turns| ==> Plain(turns[j])
    requires Plain(next) && k < next.n
    ensures var request := History(next.w, Conversation(base, turns) + [next.user], k);
            && WellPaired(request)
            && OpenAIConverter.WirePaired(OpenAIConverter.Opening(systemPrompt)
                                          + OpenAIConverter.ConvertedAll(request, replay))
  {
    var opening := Conversation(base, turns) + [next.user];
    ConversationPaired(base, turns);
    PlainKeepsPaired(Conversation(base, turns), next.user);
    NoCompactorPaired(next.w, opening, next.n);
    SnapshotIs(next.w, opening, next.n, k);
    EveryRequestPaired(next.w, opening, next.n, k, systemPrompt, replay);
  }

  // ---- interrupted turns ---------------------------------------------------------------------------

  lemma {:induction false} HistoryGrows(w: World, opening: seq<Message>, i: nat, n: nat)
    requires w.trigger == None && i <= n
    ensures History(w, opening, i) <= History(w, opening, n)
  {
    hide History, RoundMessages;
    if i < n {
      HistoryGrows(w, opening, i, n - 1);
      NextHistory(w, opening, n - 1);
    }
  }

  lemma InterruptedRound(w: World, loaded: Record, user: Message, at: nat, t: Trace)
    requires w.trigger == None && WellPaired(History(w, loaded.messages + [user], at))
    requires PartOfRound(w, at, TraceAt(w, loaded, user, at), t)
    ensures var opening, ms := loaded.messages + [user], t.session.messages;
            History(w, opening, at) <= ms <= History(w, opening, at + 1) && PairedButLast(ms)
  {
    hide History, RoundMessages, WellPaired, PairedButLast, SessionInRound;
    var h := History(w, loaded.messages + [user], at);
    NextHistory(w, loaded.messages + [user], at);
    RoundKeepsPaired(w, at, h);
    PairedIff(h);
    PairedIff(h + RoundMessages(w, at));
    MessagesInRound(w, at, SessionAt(w, loaded, user, at), t.session, t.pending);
    OneAtLeast(w, at);
    assert h + RoundMessages(w, at)[..1] <= h + RoundMessages(w, at);
  }

  /** However a turn ends, without compaction its history is a prefix of what the same oracles
      give an undisturbed turn, and at most its last message waits for an answer. */
  lemma InterruptedHistory(w: World, loaded: Record, user: Message, at: nat, t: Trace, n: nat)
    requires w.trigger == None && WellPaired(loaded.messages + [user]) && Unwound(w, loaded, user, at, t)
    ensures loaded.messages + [user] <= t.session.messages && PairedButLast(t.session.messages)
    ensures Rounds(w, n) ==> at <= n && t.session.messages <= History(w, loaded.messages + [user], n)
  {
    hide History, WellPaired, PairedButLast, PartOfRound, Reached, Over;
    var opening := loaded.messages + [user];
    var end := if Over(w, at) then at else at + 1;
    NoCompactorPaired(w, opening, at);
    HistoryPaired(w, opening, at);
    NoRounds(w, opening);
    HistoryGrows(w, opening, 0, at);
    if Over(w, at) {
      PairedIff(History(w, opening, at));
    } else {
      InterruptedRound(w, loaded, user, at, t);
    }
    if Rounds(w, n) {
      RoundsUnique(w, at, n);
      HistoryGrows(w, opening, end, n);
    }
  }

  lemma OneAtLeast(w: World, i: nat)
    ensures RoundMessages(w, i) != []
  {
  }

  lemma NoRounds(w: World, opening: seq<Message>)
    ensures History(w, opening, 0) == opening
  {
  }

  /** A reached round is not after the last one, and before it unless nothing follows. */
  lemma {:induction false} RoundsUnique(w: World, at: nat, n: nat)
    requires Reached(w, at) && Rounds(w, n)
    ensures at <= n && (!Over(w, at) ==> at < n)
    decreases at
  {
    if at > n {
      NotOverBefore(w, at, n);
    }
  }

  lemma {:induction false} NotOverBefore(w: World, at: nat, j: nat)
    requires Reached(w, at) && j < at
    ensures !Over(w, j)
  {
    if j < at - 1 {
      NotOverBefore(w, at - 1, j);
    }
  }

  /** A world whose one round has one call, to a tool that saves the session once. */
  lemma SavingWorld(write: Write) returns (w: World)
    ensures !Over(w, 0) && ToolLogAt(w, 0).writes == [write]
  {
    var evs := [P.ToolCallEvent("c", "t", "{}")];
    var answer := Answer(Allow, Hooks.CONTINUE, [write], Returned(Result(true, "null", "")));
    w := World(_ => Round(evs, _ => answer, Compacting(false, None)), {"t"}, 1, None, ms => |ms|);
    assert evs == [] + [evs[0]];
    OneMoreEvent([], evs[0]);
    NothingHeard();
    var call := Call("c", "t", "{}");
    assert CallsAt(w, 0) == [call];
    assert CallsLog([call], w.rounds(0).answers, w.tools, 0).Then(CallLog(call, answer, w.tools)) == ToolLogAt(w, 0);
  }

  /** A turn can lose its history: a tool saves the session, the turn is broken off before the resync,
      and what stays stored is the tool's save, without the user's message. */
  lemma HistoryLost() returns (w: World, loaded: Record, user: Message, t: Trace)
    ensures !Over(w, 0) && Unwound(w, loaded, user, 0, t)
    ensures user in t.session.messages && user !in LeftRecord(t).messages
  {
    loaded, user := Record("s", None, 1, [], map[], map[]), Message(User, []);
    var write := Write(None, [], map[], map[]);
    w := SavingWorld(write);
    hide ToolLogAt, CallsAt;
    var before := TraceAt(w, loaded, user, 0);
    t := Trace(Spoke(w, 0, before.session), before.events, before.executions + ToolLogAt(w, 0).executions, [write],
               before.snapshots + [before.session.messages]);
    assert t.session.messages[0] == user;
  }
}
