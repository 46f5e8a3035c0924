/** No tool is let through the bridge's permission resolver without a client's say: over every
    run, each grant rests on an answer the client gave before it. */
module BridgePermissions {
  import opened Prelude
  import opened BridgeModel
  import opened BridgeSystem

  function AskFrames(q: seq<ToClient>, oid: Oid): nat {
    if q == [] then 0 else (if q[0].Ask? && q[0].oid == oid then 1 else 0) + AskFrames(q[1..], oid)
  }

  function GrantsBy(grants: seq<Grant>, oid: Oid): nat {
    if grants == [] then 0
    else
      var g := grants[|grants| - 1];
      (if g.ByAnswer? && g.oid == oid then 1 else 0) + GrantsBy(grants[..|grants| - 1], oid)
  }

  lemma {:induction false} AskFramesPut(q: seq<ToClient>, m: ToClient, oid: Oid)
    ensures AskFrames(q + [m], oid) == AskFrames(q, oid) + if m.Ask? && m.oid == oid then 1 else 0
  {
    if q == [] {
      assert [m][1..] == [];
    } else {
      AskFramesPut(q[1..], m, oid);
      assert (q + [m])[1..] == q[1..] + [m];
    }
  }

  lemma {:induction false} AskFramesCut(q: seq<ToClient>, k: nat, oid: Oid)
    requires k <= |q|
    ensures AskFrames(q[..k], oid) <= AskFrames(q, oid)
  {
    if k > 0 {
      AskFramesCut(q[1..], k - 1, oid);
      assert q[..k][1..] == q[1..][..k - 1];
    }
  }

  lemma GrantsByPut(grants: seq<Grant>, g: Grant, oid: Oid)
    ensures GrantsBy(grants + [g], oid) == GrantsBy(grants, oid) + if g.ByAnswer? && g.oid == oid then 1 else 0
  {
    assert (grants + [g])[..|grants|] == grants;
  }

  // ---- the invariant -----------------------------------------------------------------------

  /** How often the request is on its way, being answered, or answered. */
  function Reach(s: State, oid: Oid): nat {
    AskFrames(s.toClient, oid) + (if oid in s.client.answering then 1 else 0) + (if oid in s.past.answers then 1 else 0)
  }

  /** All there is to say about one outbound request id. */
  predicate AskAt(s: State, oid: Oid) {
    // ids are handed out downwards from -1, each once
    && s.server.nextOut <= -1
    && (oid in s.past.asked ==> s.server.nextOut < oid <= -1)
    && (oid in s.server.pending || oid in s.server.asks || Reach(s, oid) > 0 || GrantsBy(s.past.grants, oid) > 0 ==>
          oid in s.past.asked)
    // the client sees it once at most, and not before it is written
    && Reach(s, oid) <= 1
    && (oid in s.server.asks ==>
          var a := s.server.asks[oid];
          && a.tool == s.past.asked[oid]
          && (!a.written ==> Reach(s, oid) == 0)
          && (oid in s.server.pending ==> a.answer == None)
          && (a.answer.Some? && Grants(a.answer.value) ==>
                oid in s.past.answers && s.past.answers[oid] == a.answer.value)
          && GrantsBy(s.past.grants, oid) == 0)
    && (oid in s.client.answering ==> s.client.answering[oid] == s.past.asked[oid])
    && GrantsBy(s.past.grants, oid) <= 1
  }

  predicate Allowed(s: State, tool: Tool, oid: Oid) {
    oid in s.past.answers && Grants(s.past.answers[oid]) && oid in s.past.asked && s.past.asked[oid] == tool
  }

  /** Some earlier answer for this very tool was allow_always. */
  ghost predicate Remembered(s: State, tool: Tool) {
    exists oid :: oid in s.past.answers && s.past.answers[oid] == AllowAlways
                  && oid in s.past.asked && s.past.asked[oid] == tool
  }

  ghost predicate Justified(s: State, g: Grant) {
    match g
    case ByAnswer(tool, oid) => Allowed(s, tool, oid)
    case ByCache(tool) => Remembered(s, tool)
  }

  ghost predicate Permissions(s: State) {
    && (forall oid :: AskAt(s, oid))
    && (forall m :: m in s.toServer && m.Answered? && Grants(m.answer) ==>
          m.oid in s.past.answers && s.past.answers[m.oid] == m.answer)
    && (forall m :: m in s.toServer && m.Answered? ==> m.oid in s.past.answers)
    && (forall m :: m in s.toClient && m.Ask? ==> m.oid in s.past.asked && s.past.asked[m.oid] == m.tool)
    && (forall tool :: tool in s.server.alwaysAllow ==> Remembered(s, tool))
  }

  // ---- every step keeps it, id by id ---------------------------------------------------------

  /** A step that touches nothing about this id. */
  lemma UntouchedAsk(s: State, t: State, oid: Oid)
    requires AskAt(s, oid)
    requires t.server.nextOut <= s.server.nextOut
    requires (oid in t.server.pending <==> oid in s.server.pending)
    requires (oid in t.server.asks <==> oid in s.server.asks)
    requires oid in s.server.asks ==> t.server.asks[oid] == s.server.asks[oid]
    requires (oid in t.past.asked <==> oid in s.past.asked)
    requires oid in s.past.asked ==> t.past.asked[oid] == s.past.asked[oid]
    requires (oid in t.past.answers <==> oid in s.past.answers)
    requires oid in s.past.answers ==> t.past.answers[oid] == s.past.answers[oid]
    requires (oid in t.client.answering <==> oid in s.client.answering)
    requires oid in s.client.answering ==> t.client.answering[oid] == s.client.answering[oid]
    requires AskFrames(t.toClient, oid) <= AskFrames(s.toClient, oid)
    requires GrantsBy(t.past.grants, oid) == GrantsBy(s.past.grants, oid)
    ensures AskAt(t, oid)
  {
  }

  lemma AskOpensAt(s: State, tool: Tool, oid: Oid)
    requires AskAt(s, oid)
    ensures AskAt(AfterAskOpens(s, tool), oid)
  {
  }

  lemma AskWrittenAt(s: State, x: Oid, oid: Oid)
    requires AskAt(s, oid) && Enabled(s, AskWritten(x))
    ensures AskAt(Next(s, AskWritten(x)), oid)
  {
    AskFramesPut(s.toClient, Ask(x, s.server.asks[x].tool), oid);
  }

  lemma AskCancelledAt(s: State, x: Oid, oid: Oid)
    requires AskAt(s, oid) && Enabled(s, AskCancelled(x))
    ensures AskAt(Next(s, AskCancelled(x)), oid)
  {
  }

  lemma AskFinishesAt(s: State, x: Oid, oid: Oid)
    requires AskAt(s, oid) && Enabled(s, AskFinishes(x))
    ensures AskAt(AfterAskFinishes(s, x), oid)
  {
    if x != oid {
      FinishLeavesAsk(s, x, oid);
      GrantsByPut(s.past.grants, ByAnswer(s.server.asks[x].tool, x), oid);
      UntouchedAsk(s, AfterAskFinishes(s, x), oid);
    } else {
      ThisAskFinishes(s, oid);
    }
  }

  lemma FinishLeavesAsk(s: State, x: Oid, oid: Oid)
    requires x in s.server.asks && s.server.asks[x].answer.Some? && x != oid
    ensures var t := AfterAskFinishes(s, x);
            && t.client == s.client && t.toClient == s.toClient && t.past.asked == s.past.asked
            && t.past.answers == s.past.answers && t.server == FinishAsk(s.server, x)
            && (t.past.grants == s.past.grants || t.past.grants == s.past.grants + [ByAnswer(s.server.asks[x].tool, x)])
  {
  }

  lemma ThisAskFinishes(s: State, oid: Oid)
    requires AskAt(s, oid) && Enabled(s, AskFinishes(oid))
    ensures AskAt(AfterAskFinishes(s, oid), oid)
  {
    GrantsByPut(s.past.grants, ByAnswer(s.server.asks[oid].tool, oid), oid);
    var t := AfterAskFinishes(s, oid);
    assert oid !in t.server.asks && oid !in t.server.pending && GrantsBy(t.past.grants, oid) <= 1;
    assert Reach(t, oid) == Reach(s, oid);
  }

  lemma AnswersAt(s: State, x: Oid, answer: Answer, written: bool, again: bool, oid: Oid)
    requires AskAt(s, oid) && x in s.client.answering
    ensures AskAt(AfterAnswers(s, x, answer, written, again), oid)
  {
  }

  lemma ClientReadsAt(s: State, oid: Oid)
    requires Permissions(s) && Enabled(s, ClientReads)
    ensures AskAt(AfterClientReads(s), oid)
  {
    var m := s.toClient[0];
    assert m in s.toClient;
    assert AskAt(s, oid);
    if !(m.Ask? && m.oid == oid) {
      UntouchedAsk(s, AfterClientReads(s), oid);
    }
  }

  lemma ServerReceivesAt(s: State, oid: Oid)
    requires Permissions(s) && Enabled(s, ServerReceives)
    ensures AskAt(AfterReceives(s), oid)
  {
    var m := s.toServer[0];
    assert m in s.toServer;
    assert AskAt(s, oid);
    if m.Answered? && m.oid == oid {
      AnswerReceivedAt(s, m.oid, m.answer);
    } else {
      OtherReceivedAt(s, m, oid);
    }
  }

  lemma AnswerReceivedAt(s: State, oid: Oid, answer: Answer)
    requires AskAt(s, oid) && s.toServer != [] && s.toServer[0] == Answered(oid, answer)
    requires Grants(answer) ==> oid in s.past.answers && s.past.answers[oid] == answer
    ensures AskAt(AfterReceives(s), oid)
  {
    hide AskFrames, GrantsBy, ResolveAsk;
    ResolvedAsk(s.server, oid, answer);
  }

  lemma ResolvedAsk(v: Server, oid: Oid, answer: Answer)
    ensures var w := ResolveAsk(v, oid, answer);
            && w.nextOut == v.nextOut
            && oid !in w.pending
            && (oid in w.asks <==> oid in v.asks)
            && (oid in v.asks ==> w.asks[oid] == v.asks[oid] || w.asks[oid] == v.asks[oid].(answer := Some(answer)))
  {
  }

  lemma OtherReceivedAt(s: State, m: ToServer, oid: Oid)
    requires AskAt(s, oid) && s.toServer != [] && s.toServer[0] == m && !(m.Answered? && m.oid == oid)
    ensures AskAt(AfterReceives(s), oid)
  {
    hide AskAt, Receive;
    ReceiveLeavesAsk(s.server, m, oid);
    UntouchedAsk(s, AfterReceives(s), oid);
  }

  lemma ReceiveLeavesAsk(v: Server, m: ToServer, oid: Oid)
    requires !(m.Answered? && m.oid == oid)
    ensures var w := Receive(v, m);
            && w.nextOut == v.nextOut
            && (oid in w.pending <==> oid in v.pending)
            && (oid in w.asks <==> oid in v.asks)
            && (oid in v.asks ==> w.asks[oid] == v.asks[oid])
  {
  }

  predicate OnAsks(step: Step) {
    step.ClientReads? || step.Answers? || step.ServerReceives? || step.AskOpens? || step.AskWritten?
    || step.AskCancelled? || step.AskFinishes?
  }

  lemma AskStepAt(s: State, step: Step, oid: Oid)
    requires Permissions(s) && Enabled(s, step) && OnAsks(step)
    ensures AskAt(Next(s, step), oid)
  {
    assert AskAt(s, oid);
    if step.ClientReads? {
      ClientReadsAt(s, oid);
    } else if step.Answers? {
      AnswersAt(s, step.oid, step.answer, step.written, step.again, oid);
    } else if step.ServerReceives? {
      ServerReceivesAt(s, oid);
    } else if step.AskOpens? {
      AskOpensAt(s, step.tool, oid);
    } else if step.AskWritten? {
      AskWrittenAt(s, step.oid, oid);
    } else if step.AskCancelled? {
      AskCancelledAt(s, step.oid, oid);
    } else {
      AskFinishesAt(s, step.oid, oid);
    }
  }

  predicate SameAsks(s: State, t: State) {
    && t.server.nextOut == s.server.nextOut && t.server.pending == s.server.pending
    && t.server.asks == s.server.asks && t.server.alwaysAllow == s.server.alwaysAllow
    && t.past.asked == s.past.asked && t.past.answers == s.past.answers
    && t.client.answering == s.client.answering
  }

  lemma StartLeavesAsks(s: State, x: Id)
    requires x in s.server.tasks
    ensures SameAsks(s, AfterStart(s, x))
  {
    hide Start;
    StartKeepsAsks(s.server, x);
  }

  predicate SameTables(v: Server, w: Server) {
    w.nextOut == v.nextOut && w.pending == v.pending && w.asks == v.asks && w.alwaysAllow == v.alwaysAllow
  }

  lemma StartKeepsAsks(v: Server, x: Id)
    requires x in v.tasks
    ensures SameTables(v, Start(v, x))
  {
    hide StartCancel;
    if v.tasks[x].call.Cancel? {
      StartCancelKeepsAsks(Register(v, x), x, v.tasks[x].call.target);
    }
  }

  lemma StartCancelKeepsAsks(w: Server, x: Id, target: Option<Id>)
    requires x in w.tasks
    ensures SameTables(w, StartCancel(w, x, target))
  {
  }

  predicate OnClient(step: Step) {
    step.Send? || step.SendWriteFails? || step.SendCancel? || step.SendExit? || step.ClientReadFails?
  }

  /** The other steps leave asks alone; frames they put on the channel are not asks. */
  lemma OtherStepsLeaveAsks(s: State, step: Step)
    requires Enabled(s, step) && !OnAsks(step)
    ensures SameAsks(s, Next(s, step))
  {
    hide SameAsks, Start, Receive, Dispatch, FailAll;
    if step.TaskStarts? {
      StartLeavesAsks(s, step.id);
    } else if OnClient(step) {
      ClientStepsLeaveAsks(s, step);
    } else {
      TaskStepsLeaveAsks(s, step);
    }
  }

  lemma ClientStepsLeaveAsks(s: State, step: Step)
    requires Enabled(s, step) && OnClient(step)
    ensures SameAsks(s, Next(s, step))
  {
    hide Start, Receive, AfterStart, AfterReceives, AfterAskOpens, AfterAskFinishes, AfterAnswers, AfterClientReads;
  }

  lemma TaskStepsLeaveAsks(s: State, step: Step)
    requires Enabled(s, step) && !OnAsks(step) && !OnClient(step) && !step.TaskStarts?
    ensures SameAsks(s, Next(s, step))
  {
    hide Start, Receive, Dispatch, FailAll, RejectWrite, AfterSend, AfterAnswers, AfterClientReads, AfterReceives,
         AfterStart, AfterAskOpens, AfterAskFinishes;
  }

  lemma OtherStepsFrames(s: State, step: Step, oid: Oid)
    requires Enabled(s, step) && !OnAsks(step)
    ensures AskFrames(Next(s, step).toClient, oid) <= AskFrames(s.toClient, oid)
    ensures GrantsBy(Next(s, step).past.grants, oid) == GrantsBy(s.past.grants, oid)
  {
    if step.ServerCloses? {
      AskFramesPut(s.toClient, EndOfStream, oid);
    } else if step.EventWritten? {
      AskFramesPut(s.toClient, StreamEvent(step.id, s.server.tasks[step.id].phase.event), oid);
    } else if step.ReplyWritten? {
      AskFramesPut(s.toClient, Response(step.id, s.server.tasks[step.id].phase.reply), oid);
    } else if step.TransportBreaks? {
      AskFramesCut(s.toClient, step.keepToClient, oid);
      AskFramesPut(s.toClient[..step.keepToClient], EndOfStream, oid);
    } else if step.ResolveCached? {
      GrantsByPut(s.past.grants, ByCache(step.tool), oid);
    }
  }

  // ---- frames and the always-allow set --------------------------------------------------------

  lemma OpenedIsFresh(s: State)
    requires Permissions(s)
    ensures s.server.nextOut !in s.past.asked
  {
    assert AskAt(s, s.server.nextOut);
  }

  lemma AnsweringIsFresh(s: State, oid: Oid)
    requires Permissions(s) && oid in s.client.answering
    ensures oid !in s.past.answers
  {
    assert AskAt(s, oid);
  }

  /** Asked tools and given answers stand for ever. */
  lemma AnswersStand(s: State, step: Step)
    requires Permissions(s) && Enabled(s, step)
    ensures var t := Next(s, step);
            && (forall oid :: oid in s.past.asked ==> oid in t.past.asked && t.past.asked[oid] == s.past.asked[oid])
            && (forall oid :: oid in s.past.answers ==>
                  oid in t.past.answers && t.past.answers[oid] == s.past.answers[oid])
  {
    hide AskAt, Start, Receive, Dispatch;
    OpenedIsFresh(s);
    if step.Answers? {
      AnsweringIsFresh(s, step.oid);
    } else if !OnAsks(step) {
      OtherStepsLeaveAsks(s, step);
    } else {
      AskStepsAnswers(s, step);
    }
  }

  lemma AskStepsAnswers(s: State, step: Step)
    requires Enabled(s, step) && OnAsks(step) && !step.Answers?
    ensures Next(s, step).past.answers == s.past.answers
    ensures Next(s, step).past.asked
         == if step.AskOpens? then s.past.asked[s.server.nextOut := step.tool] else s.past.asked
  {
    hide Start, Receive, Dispatch, AfterSend, AfterStart, AfterAnswers, FinishAsk, OpenAsk;
  }

  lemma RememberedStands(s: State, step: Step, tool: Tool)
    requires Permissions(s) && Enabled(s, step) && Remembered(s, tool)
    ensures Remembered(Next(s, step), tool)
  {
    AnswersStand(s, step);
    var oid :| oid in s.past.answers && s.past.answers[oid] == AllowAlways
               && oid in s.past.asked && s.past.asked[oid] == tool;
    assert oid in Next(s, step).past.answers;
  }

  /** What a step may put on the channel towards the server, and towards the client. */
  lemma FramesToServer(s: State, step: Step, m: ToServer)
    requires Enabled(s, step) && m in Next(s, step).toServer && m.Answered?
    ensures m in s.toServer
            || (step.Answers? && m.oid == step.oid && (m.answer == step.answer || m.answer == ClientError))
  {
    if step.Answers? {
      AnswerFrames(s, step.oid, step.answer, step.written, step.again, m);
    }
  }

  lemma AnswerFrames(s: State, oid: Oid, answer: Answer, written: bool, again: bool, m: ToServer)
    requires m in AfterAnswers(s, oid, answer, written, again).toServer
    ensures m in s.toServer || m == Answered(oid, answer) || m == Answered(oid, ClientError)
  {
  }

  lemma FramesToClient(s: State, step: Step, m: ToClient)
    requires Enabled(s, step) && m in Next(s, step).toClient && m.Ask?
    ensures m in s.toClient || (step.AskWritten? && m == Ask(step.oid, s.server.asks[step.oid].tool))
  {
  }

  /** Only a finished ask answered allow_always adds to the set. */
  lemma AlwaysAllowGrows(s: State, step: Step, tool: Tool)
    requires Enabled(s, step) && tool in Next(s, step).server.alwaysAllow
    ensures tool in s.server.alwaysAllow
            || (step.AskFinishes? && s.server.asks[step.oid].tool == tool
                && s.server.asks[step.oid].answer == Some(AllowAlways))
  {
    hide Start, Receive, Dispatch, AfterSend, AfterStart, AfterAnswers;
    if !OnAsks(step) {
      OtherStepsLeaveAsks(s, step);
    } else if step.Answers? {
      AnswersLeaveServer(s, step);
    } else if step.ServerReceives? {
      ReceiveAllowsNothing(s.server, s.toServer[0]);
    }
  }

  lemma AnswersLeaveServer(s: State, step: Step)
    requires Enabled(s, step) && step.Answers?
    ensures Next(s, step).server == s.server
  {
  }

  lemma ReceiveAllowsNothing(v: Server, m: ToServer)
    ensures Receive(v, m).alwaysAllow == v.alwaysAllow && Receive(v, m).pending <= v.pending
  {
  }

  lemma AskKept(s: State, step: Step, oid: Oid)
    requires Permissions(s) && Enabled(s, step)
    ensures AskAt(Next(s, step), oid)
  {
    if OnAsks(step) {
      AskStepAt(s, step, oid);
    } else {
      assert AskAt(s, oid);
      OtherStepsLeaveAsks(s, step);
      OtherStepsFrames(s, step, oid);
      UntouchedAsk(s, Next(s, step), oid);
    }
  }

  lemma AnswerFrameKept(s: State, step: Step, m: ToServer)
    requires Permissions(s) && Enabled(s, step) && m in Next(s, step).toServer && m.Answered?
    ensures var t := Next(s, step);
            m.oid in t.past.answers && (Grants(m.answer) ==> t.past.answers[m.oid] == m.answer)
  {
    AnswersStand(s, step);
    FramesToServer(s, step, m);
  }

  lemma AskFrameKept(s: State, step: Step, m: ToClient)
    requires Permissions(s) && Enabled(s, step) && m in Next(s, step).toClient && m.Ask?
    ensures m.oid in Next(s, step).past.asked && Next(s, step).past.asked[m.oid] == m.tool
  {
    AnswersStand(s, step);
    FramesToClient(s, step, m);
    assert AskAt(s, m.oid);
  }

  lemma RememberKept(s: State, step: Step, tool: Tool)
    requires Permissions(s) && Enabled(s, step) && tool in Next(s, step).server.alwaysAllow
    ensures Remembered(Next(s, step), tool)
  {
    AlwaysAllowGrows(s, step, tool);
    if tool !in s.server.alwaysAllow {
      assert AskAt(s, step.oid);
      assert step.oid in s.past.answers;
    }
    RememberedStands(s, step, tool);
  }

  lemma PermissionsKept(s: State, step: Step)
    requires Permissions(s) && Enabled(s, step)
    ensures Permissions(Next(s, step))
  {
    var t := Next(s, step);
    forall oid ensures AskAt(t, oid) {
      AskKept(s, step, oid);
    }
    forall m | m in t.toServer && m.Answered?
      ensures m.oid in t.past.answers && (Grants(m.answer) ==> t.past.answers[m.oid] == m.answer)
    {
      AnswerFrameKept(s, step, m);
    }
    forall m | m in t.toClient && m.Ask? ensures m.oid in t.past.asked && t.past.asked[m.oid] == m.tool {
      AskFrameKept(s, step, m);
    }
    forall tool | tool in t.server.alwaysAllow ensures Remembered(t, tool) {
      RememberKept(s, step, tool);
    }
  }

  lemma {:induction false} PermissionsHold(states: seq<State>, steps: seq<Step>, k: nat)
    requires IsRun(states, steps) && k < |states|
    ensures Permissions(states[k])
  {
    if k > 0 {
      PermissionsHold(states, steps, k - 1);
      PermissionsKept(states[k - 1], steps[k - 1]);
    }
  }

  // ---- what a run guarantees -----------------------------------------------------------------

  /** Whenever the resolver lets a tool through, the client had already allowed that very
      request, or had answered allow_always to an earlier request for the same tool. */
  lemma GrantsRestOnAnswers(states: seq<State>, steps: seq<Step>, k: nat)
    requires IsRun(states, steps) && k < |steps|
    ensures var before, after := states[k].past.grants, states[k + 1].past.grants;
            after == before || (|after| == |before| + 1 && after[..|before|] == before
                                && Justified(states[k], after[|before|]))
  {
    PermissionsHold(states, steps, k);
    if steps[k].AskFinishes? {
      assert AskAt(states[k], steps[k].oid);
    } else if !steps[k].ResolveCached? {
      GrantsOnlyThere(states[k], steps[k]);
    }
  }

  lemma GrantsOnlyThere(s: State, step: Step)
    requires Enabled(s, step) && !step.AskFinishes? && !step.ResolveCached?
    ensures Next(s, step).past.grants == s.past.grants
  {
    hide Start, Receive, Dispatch, FailAll, RejectWrite, AfterSend, AfterStart, AfterReceives, AfterClientReads,
         AfterAnswers, AfterAskOpens, AfterAskFinishes;
    if OnAsks(step) {
      AsksGrantNothing(s, step);
    } else if OnClient(step) || step.TaskStarts? {
      ClientGrantsNothing(s, step);
    }
  }

  lemma AsksGrantNothing(s: State, step: Step)
    requires Enabled(s, step) && OnAsks(step) && !step.AskFinishes?
    ensures Next(s, step).past.grants == s.past.grants
  {
    hide Start, Receive, Dispatch, FailAll, RejectWrite, OpenAsk, FinishAsk, AfterSend, AfterStart, AfterReceives,
         AfterAnswers;
    if step.ServerReceives? {
      ReceivesGrantNothing(s);
    } else if step.Answers? {
      AnswersGrantNothing(s, step.oid, step.answer, step.written, step.again);
    }
  }

  lemma ReceivesGrantNothing(s: State)
    requires s.toServer != []
    ensures AfterReceives(s).past.grants == s.past.grants
  {
    hide Receive;
  }

  lemma AnswersGrantNothing(s: State, oid: Oid, answer: Answer, written: bool, again: bool)
    ensures AfterAnswers(s, oid, answer, written, again).past.grants == s.past.grants
  {
  }

  lemma ClientGrantsNothing(s: State, step: Step)
    requires Enabled(s, step) && (OnClient(step) || step.TaskStarts?)
    ensures Next(s, step).past.grants == s.past.grants
  {
    hide Start, Receive, Dispatch, FailAll, RejectWrite, AfterReceives, AfterAnswers, AfterAskOpens, AfterAskFinishes;
  }

  /** One answer lets one execution through. */
  lemma OneGrantPerAnswer(states: seq<State>, steps: seq<Step>, k: nat, oid: Oid)
    requires IsRun(states, steps) && k < |states|
    ensures GrantsBy(states[k].past.grants, oid) <= 1
  {
    PermissionsHold(states, steps, k);
    assert AskAt(states[k], oid);
  }

  /** Handed out once and no longer in the table of pending futures. */
  predicate Gone(s: State, oid: Oid) {
    oid in s.past.asked && oid !in s.server.pending
  }

  lemma AnsweredIsGone(s: State)
    requires Permissions(s) && Enabled(s, ServerReceives) && s.toServer[0].Answered?
    ensures Gone(AfterReceives(s), s.toServer[0].oid)
  {
    assert s.toServer[0] in s.toServer;
    assert AskAt(s, s.toServer[0].oid);
  }

  lemma {:induction false} GoneForGood(states: seq<State>, steps: seq<Step>, j: nat, k: nat, oid: Oid)
    requires IsRun(states, steps) && j <= k < |states| && Gone(states[j], oid)
    ensures Gone(states[k], oid)
    decreases k
  {
    if j < k {
      GoneForGood(states, steps, j, k - 1, oid);
      PermissionsHold(states, steps, k - 1);
      PendingIsFresh(states[k - 1], steps[k - 1], oid);
    }
  }

  /** Once a response to an outbound request has been taken in, no further response to it has
      any effect, however much later it comes. */
  lemma RepeatedAnswerChangesNothing(states: seq<State>, steps: seq<Step>, j: nat, k: nat, answer: Answer)
    requires IsRun(states, steps) && j < k < |states|
    requires steps[j].ServerReceives? && states[j].toServer[0].Answered?
    ensures ResolveAsk(states[k].server, states[j].toServer[0].oid, answer) == states[k].server
  {
    PermissionsHold(states, steps, j);
    AnsweredIsGone(states[j]);
    GoneForGood(states, steps, j + 1, k, states[j].toServer[0].oid);
  }

  lemma PendingIsFresh(s: State, step: Step, oid: Oid)
    requires Permissions(s) && Enabled(s, step) && Gone(s, oid)
    ensures Gone(Next(s, step), oid)
  {
    hide AskAt, Permissions, Next, Enabled;
    OpenedIsFresh(s);
    AnswersStand(s, step);
    if !OnAsks(step) {
      OtherStepsLeaveAsks(s, step);
    } else {
      AskStepsPending(s, step, oid);
    }
  }

  lemma AskStepsPending(s: State, step: Step, oid: Oid)
    requires Enabled(s, step) && OnAsks(step) && oid !in s.server.pending && oid != s.server.nextOut
    ensures oid !in Next(s, step).server.pending
  {
    hide Start, Receive, Dispatch, AfterSend, AfterStart, AfterAnswers;
    if step.Answers? {
      AnswersLeaveServer(s, step);
    } else if step.ServerReceives? {
      ReceiveAllowsNothing(s.server, s.toServer[0]);
    }
  }
}
