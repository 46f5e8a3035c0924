/** The Anthropic stream: content blocks, freely interleaved by index, become one event per
    finished block and one final Done. */
module AnthropicStream {
  import opened Prelude
  import opened ProviderEvents

  datatype Kind = ToolUseBlock(id: string, name: string) | ThoughtBlock | RedactedBlock(data: string) | OtherBlock

  datatype Piece =
    | TextPiece(text: string)
    | ThoughtPiece(text: string)
    | SignaturePiece(text: string)
    | ArgumentPiece(text: string)
    | OtherPiece

  datatype Event =
    | Start(index: int, kind: Kind)
    | Delta(index: int, piece: Piece)
    | Stop(index: int)
    | MessageStop(reason: string, input: Option<int>, output: Option<int>)
    | OtherEvent

  // ---- meaning: what the events of one index add up to ----------------------------------------

  predicate Concerns(e: Event, index: int) {
    (e.Start? || e.Delta? || e.Stop?) && e.index == index
  }

  function Of(es: seq<Event>, index: int): seq<Event> {
    if es == [] then []
    else Of(es[..|es| - 1], index) + if Concerns(es[|es| - 1], index) then [es[|es| - 1]] else []
  }

  function Arguments(own: seq<Event>): seq<string> {
    if own == [] then []
    else
      Arguments(own[..|own| - 1])
      + var e := own[|own| - 1]; if e.Delta? && e.piece.ArgumentPiece? then [e.piece.text] else []
  }

  function Thoughts(own: seq<Event>): seq<string> {
    if own == [] then []
    else
      Thoughts(own[..|own| - 1])
      + var e := own[|own| - 1]; if e.Delta? && e.piece.ThoughtPiece? then [e.piece.text] else []
  }

  function Signatures(own: seq<Event>): seq<string> {
    if own == [] then []
    else
      Signatures(own[..|own| - 1])
      + var e := own[|own| - 1]; if e.Delta? && e.piece.SignaturePiece? then [e.piece.text] else []
  }

  /** The one event a finished block stands for: assembled from the events of its index alone. */
  function BlockEvent(own: seq<Event>, loads: Decoder): seq<ProviderEvent> {
    if own == [] || !own[0].Start? then []
    else
      match own[0].kind
      case ToolUseBlock(id, name) => [ToolCallEvent(id, name, ParsedArgs(Flatten(Arguments(own)), loads))]
      case ThoughtBlock => [ThinkingBlock(Flatten(Thoughts(own)), Flatten(Signatures(own)))]
      case RedactedBlock(_) => []
      case OtherBlock => []
  }

  /** A block as the API sends it: a start, its deltas, a stop. */
  predicate IsBlock(own: seq<Event>) {
    && |own| >= 2
    && own[0].Start?
    && own[|own| - 1].Stop?
    && forall k :: 0 < k < |own| - 1 ==> own[k].Delta?
  }

  predicate WellFormed(es: seq<Event>, index: int) {
    Of(es, index) == [] || IsBlock(Of(es, index))
  }

  predicate NoMessageStop(es: seq<Event>) {
    forall k :: 0 <= k < |es| ==> !es[k].MessageStop?
  }

  /** The indices of finished blocks, in the order in which they finished. */
  function Stopped(es: seq<Event>): seq<int> {
    if es == [] then []
    else Stopped(es[..|es| - 1]) + if es[|es| - 1].Stop? then [es[|es| - 1].index] else []
  }

  function BlockEvents(es: seq<Event>, order: seq<int>, loads: Decoder): seq<ProviderEvent> {
    if order == [] then []
    else BlockEvents(es, order[..|order| - 1], loads) + BlockEvent(Of(es, order[|order| - 1]), loads)
  }

  predicate Assembled(e: ProviderEvent) {
    e.ToolCallEvent? || e.ThinkingBlock?
  }

  function AssembledIn(events: seq<ProviderEvent>): seq<ProviderEvent> {
    if events == [] then []
    else
      AssembledIn(events[..|events| - 1]) + if Assembled(events[|events| - 1]) then [events[|events| - 1]] else []
  }

  // ---- what the loop holds for one index ---------------------------------------------------------

  datatype Tool = Tool(id: string, name: string, chunks: seq<string>)
  datatype Thought = Thought(texts: seq<string>, signatures: seq<string>)
  datatype Slot = Slot(tool: Option<Tool>, thought: Option<Thought>)

  const EMPTY := Slot(None, None)

  function Next(s: Slot, e: Event): Slot {
    match e
    case Start(_, kind) =>
      if kind.ToolUseBlock? then s.(tool := Some(Tool(kind.id, kind.name, [])))
      else if kind.ThoughtBlock? then s.(thought := Some(Thought([], [])))
      else s
    case Delta(_, ArgumentPiece(t)) =>
      if s.tool.Some? then s.(tool := Some(s.tool.value.(chunks := s.tool.value.chunks + [t]))) else s
    case Delta(_, ThoughtPiece(t)) =>
      if s.thought.Some? then s.(thought := Some(s.thought.value.(texts := s.thought.value.texts + [t]))) else s
    case Delta(_, SignaturePiece(t)) =>
      if s.thought.Some? then s.(thought := Some(s.thought.value.(signatures := s.thought.value.signatures + [t])))
      else s
    case Stop(_) => if s.tool.Some? then s.(tool := None) else s.(thought := None)
    case _ => s
  }

  function SlotAfter(own: seq<Event>): Slot {
    if own == [] then EMPTY else Next(SlotAfter(own[..|own| - 1]), own[|own| - 1])
  }

  function Closing(s: Slot, loads: Decoder): seq<ProviderEvent> {
    if s.tool.Some? then
      [ToolCallEvent(s.tool.value.id, s.tool.value.name, ParsedArgs(Flatten(s.tool.value.chunks), loads))]
    else if s.thought.Some? then
      [ThinkingBlock(Flatten(s.thought.value.texts), Flatten(s.thought.value.signatures))]
    else []
  }

  function StopFor(reason: string): StopReason {
    if reason == "tool_use" then ToolUse
    else if reason == "max_tokens" then MaxTokens
    else if reason == "error" then StopError
    else EndTurn
  }

  /** What one event makes the stream yield, given everything before it. */
  function Emitted(before: seq<Event>, e: Event, loads: Decoder): seq<ProviderEvent> {
    match e
    case Start(_, RedactedBlock(data)) => [RedactedThinking(data)]
    case Delta(_, TextPiece(text)) => [TextDelta(text)]
    case Delta(_, ThoughtPiece(text)) => [ThinkingDelta(text)]
    case Stop(index) => Closing(SlotAfter(Of(before, index)), loads)
    case MessageStop(reason, input, output) => [Done(StopFor(reason), input, output)]
    case _ => []
  }

  function Output(es: seq<Event>, loads: Decoder): seq<ProviderEvent> {
    if es == [] then [] else Output(es[..|es| - 1], loads) + Emitted(es[..|es| - 1], es[|es| - 1], loads)
  }

  function SlotOf(tools: map<int, Tool>, thoughts: map<int, Thought>, index: int): Slot {
    Slot(if index in tools then Some(tools[index]) else None, if index in thoughts then Some(thoughts[index]) else None)
  }

  ghost predicate SlotsFit(tools: map<int, Tool>, thoughts: map<int, Thought>, es: seq<Event>) {
    forall index :: SlotOf(tools, thoughts, index) == SlotAfter(Of(es, index))
  }

  /** How much of the stream is read: all of it, or up to and including the first message_stop. */
  function Read(es: seq<Event>): seq<Event> {
    if es == [] then []
    else if es[0].MessageStop? then [es[0]]
    else [es[0]] + Read(es[1..])
  }

  lemma {:induction false} ReadStops(es: seq<Event>, k: nat)
    requires k < |es| && es[k].MessageStop? && forall j :: 0 <= j < k ==> !es[j].MessageStop?
    ensures Read(es) == es[..k + 1]
  {
    if k > 0 {
      ReadStops(es[1..], k - 1);
      assert es[..k + 1] == [es[0]] + es[1..][..k];
    } else {
      assert es[..1] == [es[0]];
    }
  }

  lemma {:induction false} ReadAll(es: seq<Event>)
    requires NoMessageStop(es)
    ensures Read(es) == es
  {
    if es != [] {
      assert NoMessageStop(es[1..]) by {
        assert forall j :: 0 <= j < |es| - 1 ==> es[1..][j] == es[j + 1];
      }
      ReadAll(es[1..]);
    }
  }

  method Stream(es: seq<Event>, loads: Decoder)
    returns (events: seq<ProviderEvent>, ghost open: set<int>)
    ensures events == Output(Read(es), loads)
    ensures forall index :: index in open <==> SlotAfter(Of(Read(es), index)) != EMPTY
  {
    hide Output, Of, SlotAfter, SlotsFit, Emitted, Moved, Read;
    events := [];
    var tools: map<int, Tool> := map[];
    var thoughts: map<int, Thought> := map[];
    ghost var seen: seq<Event> := [];
    NothingSeen(loads);
    for k := 0 to |es|
      invariant seen == es[..k] && forall j :: 0 <= j < k ==> !es[j].MessageStop?
      invariant events == Output(seen, loads)
      invariant SlotsFit(tools, thoughts, seen)
    {
      var now;
      now, tools, thoughts := Take(es[k], tools, thoughts, seen, loads);
      events := events + now;
      OneMoreEvent(seen, es[k], loads);
      FitsOneMore(seen, es[k], tools, thoughts);
      seen := seen + [es[k]];
      if es[k].MessageStop? {
        ReadStops(es, k);
        assert Read(es) == seen;
        open := StillOpen(tools, thoughts, seen);
        return;
      }
    }
    ReadAll(es);
    assert Read(es) == seen;
    open := StillOpen(tools, thoughts, seen);
  }

  lemma NothingSeen(loads: Decoder)
    ensures Output([], loads) == [] && SlotsFit(map[], map[], [])
  {
  }

  ghost method StillOpen(tools: map<int, Tool>, thoughts: map<int, Thought>, es: seq<Event>) returns (open: set<int>)
    requires SlotsFit(tools, thoughts, es)
    ensures forall index :: index in open <==> SlotAfter(Of(es, index)) != EMPTY
  {
    open := tools.Keys + thoughts.Keys;
    forall index ensures index in open <==> SlotAfter(Of(es, index)) != EMPTY {
      assert SlotOf(tools, thoughts, index) == SlotAfter(Of(es, index));
    }
  }

  lemma OneMoreEvent(es: seq<Event>, e: Event, loads: Decoder)
    ensures Output(es + [e], loads) == Output(es, loads) + Emitted(es, e, loads)
  {
    assert (es + [e])[..|es|] == es;
  }

  ghost predicate Moved(before: Slot, after: Slot, e: Event, index: int) {
    after == if Concerns(e, index) then Next(before, e) else before
  }

  lemma OfOneMore(es: seq<Event>, e: Event, index: int)
    ensures Of(es + [e], index) == if Concerns(e, index) then Of(es, index) + [e] else Of(es, index)
  {
    assert (es + [e])[..|es|] == es;
  }

  lemma SlotOneMore(own: seq<Event>, e: Event)
    ensures SlotAfter(own + [e]) == Next(SlotAfter(own), e)
  {
    assert (own + [e])[..|own|] == own;
  }

  lemma FitsOneMore(es: seq<Event>, e: Event, tools: map<int, Tool>, thoughts: map<int, Thought>)
    requires forall index :: Moved(SlotAfter(Of(es, index)), SlotOf(tools, thoughts, index), e, index)
    ensures SlotsFit(tools, thoughts, es + [e])
  {
    forall index ensures SlotOf(tools, thoughts, index) == SlotAfter(Of(es + [e], index)) {
      assert Moved(SlotAfter(Of(es, index)), SlotOf(tools, thoughts, index), e, index);
      OfOneMore(es, e, index);
      SlotOneMore(Of(es, index), e);
    }
  }

  /** One turn of the loop. */
  method Take(e: Event, tools0: map<int, Tool>, thoughts0: map<int, Thought>, ghost before: seq<Event>, loads: Decoder)
    returns (now: seq<ProviderEvent>, tools: map<int, Tool>, thoughts: map<int, Thought>)
    requires SlotsFit(tools0, thoughts0, before)
    ensures now == Emitted(before, e, loads)
    ensures forall index :: Moved(SlotAfter(Of(before, index)), SlotOf(tools, thoughts, index), e, index)
  {
    now, tools, thoughts := [], tools0, thoughts0;
    if e.Start? {
      if e.kind.ToolUseBlock? {
        tools := tools[e.index := Tool(e.kind.id, e.kind.name, [])];
      } else if e.kind.ThoughtBlock? {
        thoughts := thoughts[e.index := Thought([], [])];
      } else if e.kind.RedactedBlock? {
        now := [RedactedThinking(e.kind.data)];
      }
    } else if e.Delta? {
      if e.piece.TextPiece? {
        now := [TextDelta(e.piece.text)];
      } else if e.piece.ThoughtPiece? {
        now := [ThinkingDelta(e.piece.text)];
        if e.index in thoughts {
          var t := thoughts[e.index];
          thoughts := thoughts[e.index := t.(texts := t.texts + [e.piece.text])];
        }
      } else if e.piece.SignaturePiece? {
        if e.index in thoughts {
          var t := thoughts[e.index];
          thoughts := thoughts[e.index := t.(signatures := t.signatures + [e.piece.text])];
        }
      } else if e.piece.ArgumentPiece? {
        if e.index in tools {
          var t := tools[e.index];
          tools := tools[e.index := t.(chunks := t.chunks + [e.piece.text])];
        }
      }
    } else if e.Stop? {
      assert SlotOf(tools, thoughts, e.index) == SlotAfter(Of(before, e.index));
      if e.index in tools {
        var t := tools[e.index];
        tools := tools - {e.index};
        now := [ToolCallEvent(t.id, t.name, ParsedArgs(Flatten(t.chunks), loads))];
      } else if e.index in thoughts {
        var t := thoughts[e.index];
        thoughts := thoughts - {e.index};
        now := [ThinkingBlock(Flatten(t.texts), Flatten(t.signatures))];
      }
    } else if e.MessageStop? {
      now := [Done(StopFor(e.reason), e.input, e.output)];
    }
    forall index ensures Moved(SlotAfter(Of(before, index)), SlotOf(tools, thoughts, index), e, index) {
      assert SlotOf(tools0, thoughts0, index) == SlotAfter(Of(before, index));
    }
  }

  // ---- well-formed streams ------------------------------------------------------------------------

  lemma {:induction false} OfConcat(a: seq<Event>, b: seq<Event>, index: int)
    ensures Of(a + b, index) == Of(a, index) + Of(b, index)
  {
    if b == [] {
      assert a + b == a;
    } else {
      var n := |b| - 1;
      assert (a + b)[..|a| + n] == a + b[..n];
      OfConcat(a, b[..n], index);
      Associative(Of(a, index), Of(b[..n], index), if Concerns(b[n], index) then [b[n]] else []);
    }
  }

  /** The slot of a block that has started but not stopped. */
  function SlotFor(own: seq<Event>): Slot
    requires own != [] && own[0].Start?
  {
    if own[0].kind.ToolUseBlock? then
      Slot(Some(Tool(own[0].kind.id, own[0].kind.name, Arguments(own))), None)
    else if own[0].kind.ThoughtBlock? then
      Slot(None, Some(Thought(Thoughts(own), Signatures(own))))
    else EMPTY
  }

  lemma OnePieceMore(own: seq<Event>, e: Event)
    ensures Arguments(own + [e])
         == if e.Delta? && e.piece.ArgumentPiece? then Arguments(own) + [e.piece.text] else Arguments(own)
    ensures Thoughts(own + [e])
         == if e.Delta? && e.piece.ThoughtPiece? then Thoughts(own) + [e.piece.text] else Thoughts(own)
    ensures Signatures(own + [e])
         == if e.Delta? && e.piece.SignaturePiece? then Signatures(own) + [e.piece.text] else Signatures(own)
  {
    assert (own + [e])[..|own|] == own;
  }

  predicate IsOpenBlock(own: seq<Event>) {
    own != [] && own[0].Start? && forall k :: 0 < k < |own| ==> own[k].Delta?
  }

  lemma {:induction false} OpenBlock(own: seq<Event>)
    requires IsOpenBlock(own)
    ensures SlotAfter(own) == SlotFor(own)
  {
    var front, last := own[..|own| - 1], own[|own| - 1];
    if front == [] {
      assert own == [last];
      JustStarted(last);
    } else {
      assert forall k :: 0 < k < |front| ==> front[k] == own[k];
      OpenBlock(front);
      PieceMoves(front, last);
      assert own == front + [last];
    }
  }

  lemma JustStarted(e: Event)
    requires e.Start?
    ensures SlotAfter([e]) == SlotFor([e])
  {
    OnePieceMore([], e);
    SlotOneMore([], e);
    assert [] + [e] == [e];
  }

  lemma PieceMoves(front: seq<Event>, last: Event)
    requires front != [] && front[0].Start? && last.Delta? && SlotAfter(front) == SlotFor(front)
    ensures SlotAfter(front + [last]) == SlotFor(front + [last])
  {
    hide SlotAfter, Arguments, Thoughts, Signatures;
    OnePieceMore(front, last);
    SlotOneMore(front, last);
    assert (front + [last])[0] == front[0];
  }

  lemma StoppedBlock(own: seq<Event>, loads: Decoder)
    requires IsBlock(own)
    ensures Closing(SlotAfter(own[..|own| - 1]), loads) == BlockEvent(own, loads)
    ensures SlotAfter(own) == EMPTY
  {
    var front, last := own[..|own| - 1], own[|own| - 1];
    assert IsOpenBlock(front);
    StopCloses(front, last, loads);
    SplitLast(own);
  }

  lemma StopCloses(front: seq<Event>, last: Event, loads: Decoder)
    requires IsOpenBlock(front) && last.Stop?
    ensures Closing(SlotAfter(front), loads) == BlockEvent(front + [last], loads)
    ensures SlotAfter(front + [last]) == EMPTY
  {
    hide SlotAfter, Arguments, Thoughts, Signatures;
    OpenBlock(front);
    OnePieceMore(front, last);
    SlotOneMore(front, last);
    assert (front + [last])[0] == front[0];
  }

  lemma OfAround(es: seq<Event>, k: nat)
    requires k < |es| && es[k].Stop?
    ensures var index := es[k].index; Of(es, index) == Of(es[..k], index) + [es[k]] + Of(es[k + 1..], index)
  {
    hide Of;
    var before, e, after := es[..k], es[k], es[k + 1..];
    assert es == before + [e] + after;
    OfConcat(before + [e], after, e.index);
    OfOneMore(before, e, e.index);
  }

  lemma OnlyStop(before: seq<Event>, e: Event, after: seq<Event>)
    requires e.Stop? && IsBlock(before + [e] + after)
    ensures before == (before + [e] + after)[..|before + [e] + after| - 1]
  {
    assert (before + [e] + after)[|before|] == e;
  }

  /** A stop event of a well-formed index is the last event of that index. */
  lemma StopIsLast(es: seq<Event>, k: nat)
    requires k < |es| && es[k].Stop? && WellFormed(es, es[k].index)
    ensures var own := Of(es, es[k].index);
            IsBlock(own) && Of(es[..k], es[k].index) == own[..|own| - 1]
  {
    OfAround(es, k);
    OnlyStop(Of(es[..k], es[k].index), es[k], Of(es[k + 1..], es[k].index));
  }

  lemma {:induction false} AssembledConcat(a: seq<ProviderEvent>, b: seq<ProviderEvent>)
    ensures AssembledIn(a + b) == AssembledIn(a) + AssembledIn(b)
  {
    if b == [] {
      assert a + b == a;
    } else {
      var n := |b| - 1;
      assert (a + b)[..|a| + n] == a + b[..n];
      AssembledConcat(a, b[..n]);
    }
  }

  lemma AssembledFew(events: seq<ProviderEvent>)
    requires |events| <= 1
    ensures AssembledIn(events) == if events != [] && Assembled(events[0]) then events else []
  {
    if events != [] {
      SplitLast(events);
      assert events[..0] == [];
    }
  }

  ghost predicate AllWellFormed(es: seq<Event>) {
    forall index :: WellFormed(es, index)
  }

  lemma OnlyStopsAssemble(before: seq<Event>, e: Event, loads: Decoder)
    requires !e.Stop?
    ensures AssembledIn(Emitted(before, e, loads)) == []
  {
    AssembledFew(Emitted(before, e, loads));
  }

  lemma ClosingAssembles(s: Slot, loads: Decoder)
    ensures AssembledIn(Closing(s, loads)) == Closing(s, loads)
  {
    AssembledFew(Closing(s, loads));
  }

  /** What a stop event adds, seen from the whole stream. */
  lemma EmittedAtStop(es: seq<Event>, k: nat, loads: Decoder)
    requires AllWellFormed(es) && k < |es| && es[k].Stop?
    ensures AssembledIn(Emitted(es[..k], es[k], loads)) == BlockEvent(Of(es, es[k].index), loads)
  {
    hide AssembledIn, BlockEvent, Of, SlotAfter, Closing, IsBlock;
    var index := es[k].index;
    assert WellFormed(es, index);
    StopIsLast(es, k);
    StoppedBlock(Of(es, index), loads);
    ClosingAssembles(SlotAfter(Of(es[..k], index)), loads);
  }

  lemma {:induction false} AssembledUpTo(es: seq<Event>, k: nat, loads: Decoder)
    requires AllWellFormed(es) && k <= |es|
    ensures AssembledIn(Output(es[..k], loads)) == BlockEvents(es, Stopped(es[..k]), loads)
  {
    hide Of, AllWellFormed, BlockEvent, Emitted;
    if k > 0 {
      var front, e := es[..k - 1], es[k - 1];
      AssembledUpTo(es, k - 1, loads);
      assert es[..k] == front + [e];
      AssembledOneMore(front, e, loads);
      StoppedOneMore(front, e);
      if e.Stop? {
        EmittedAtStop(es, k - 1, loads);
        OneMoreBlock(es, Stopped(front), e.index, loads);
      } else {
        OnlyStopsAssemble(front, e, loads);
      }
    }
  }

  lemma AssembledOneMore(es: seq<Event>, e: Event, loads: Decoder)
    ensures AssembledIn(Output(es + [e], loads)) == AssembledIn(Output(es, loads)) + AssembledIn(Emitted(es, e, loads))
  {
    OneMoreEvent(es, e, loads);
    AssembledConcat(Output(es, loads), Emitted(es, e, loads));
  }

  lemma StoppedOneMore(es: seq<Event>, e: Event)
    ensures Stopped(es + [e]) == if e.Stop? then Stopped(es) + [e.index] else Stopped(es)
  {
    assert (es + [e])[..|es|] == es;
  }

  lemma OneMoreBlock(es: seq<Event>, order: seq<int>, index: int, loads: Decoder)
    ensures BlockEvents(es, order + [index], loads) == BlockEvents(es, order, loads) + BlockEvent(Of(es, index), loads)
  {
    assert (order + [index])[..|order|] == order;
  }

  /** Every finished block is announced once, in stop order, from its own chunks only. */
  lemma BlocksInStopOrder(es: seq<Event>, loads: Decoder)
    requires AllWellFormed(es)
    ensures AssembledIn(Output(es, loads)) == BlockEvents(es, Stopped(es), loads)
  {
    AssembledUpTo(es, |es|, loads);
    assert es[..|es|] == es;
  }

  lemma {:induction false} StoppedAt(es: seq<Event>, index: int)
    ensures index in Stopped(es) <==> exists k :: 0 <= k < |es| && es[k] == Stop(index)
  {
    if es != [] {
      var front := es[..|es| - 1];
      StoppedAt(front, index);
      if exists k :: 0 <= k < |es| && es[k] == Stop(index) {
        var k :| 0 <= k < |es| && es[k] == Stop(index);
        if k < |front| {
          assert front[k] == Stop(index);
        }
      }
      if index in Stopped(front) {
        var k :| 0 <= k < |front| && front[k] == Stop(index);
        assert es[k] == Stop(index);
      }
    }
  }

  lemma {:induction false} FromOf(es: seq<Event>, index: int)
    ensures forall e :: e in Of(es, index) ==> e in es && Concerns(e, index)
  {
    if es != [] {
      FromOf(es[..|es| - 1], index);
    }
  }

  predicate Distinct(s: seq<int>) {
    forall i, j :: 0 <= i < j < |s| ==> s[i] != s[j]
  }

  lemma {:induction false} StoppedOnce(es: seq<Event>, k: nat)
    requires AllWellFormed(es) && k <= |es|
    ensures Distinct(Stopped(es[..k]))
  {
    if k > 0 {
      var j := k - 1;
      StoppedOnce(es, j);
      assert es[..k] == es[..j] + [es[j]];
      StoppedOneMore(es[..j], es[j]);
      if es[j].Stop? {
        StopAppearsOnce(es, j);
      }
    }
  }

  lemma StopAppearsOnce(es: seq<Event>, j: nat)
    requires AllWellFormed(es) && j < |es| && es[j].Stop?
    ensures es[j].index !in Stopped(es[..j])
  {
    var index := es[j].index;
    StoppedAt(es[..j], index);
    if index in Stopped(es[..j]) {
      var i :| 0 <= i < j && es[..j][i] == Stop(index);
      assert WellFormed(es, index);
      StopIsLast(es, i);
      StopIsLast(es, j);
      OfGrows(es, i, j, index);
    }
  }

  lemma {:induction false} OfGrows(es: seq<Event>, i: nat, j: nat, index: int)
    requires i < j <= |es| && Concerns(es[i], index)
    ensures |Of(es[..i], index)| < |Of(es[..j], index)|
  {
    assert es[..j] == es[..j - 1] + [es[j - 1]];
    OfOneMore(es[..j - 1], es[j - 1], index);
    if i < j - 1 {
      OfGrows(es, i, j - 1, index);
    }
  }

  /** A finished block per index that occurs: no block is dropped and none is given twice. */
  lemma EveryBlockOnce(es: seq<Event>, index: int)
    requires AllWellFormed(es)
    ensures Distinct(Stopped(es))
    ensures index in Stopped(es) <==> Of(es, index) != []
    ensures SlotAfter(Of(es, index)) == EMPTY
  {
    StoppedOnce(es, |es|);
    assert es[..|es|] == es;
    StoppedAt(es, index);
    assert WellFormed(es, index);
    var own := Of(es, index);
    if own != [] {
      StoppedBlock(own, _ => None);
      FromOf(es, index);
      assert own[|own| - 1] in es;
    }
    if index in Stopped(es) {
      var k :| 0 <= k < |es| && es[k] == Stop(index);
      StopIsLast(es, k);
    }
  }

  lemma {:induction false} NoEarlyDone(es: seq<Event>, loads: Decoder)
    requires NoMessageStop(es)
    ensures NoDone(Output(es, loads))
  {
    if es != [] {
      var front := es[..|es| - 1];
      assert forall k :: 0 <= k < |front| ==> front[k] == es[k];
      NoEarlyDone(front, loads);
    }
  }

  /** A whole response: the blocks, freely interleaved, then message_stop. What follows it is
      not read; the one Done is last; both buffers are empty by then. */
  lemma WholeResponse(es: seq<Event>, stop: Event, rest: seq<Event>, loads: Decoder)
    requires AllWellFormed(es) && NoMessageStop(es) && stop.MessageStop?
    ensures Read(es + [stop] + rest) == es + [stop]
    ensures Output(es + [stop], loads) == Output(es, loads) + [Done(StopFor(stop.reason), stop.input, stop.output)]
    ensures NoDone(Output(es, loads))
    ensures AssembledIn(Output(es + [stop], loads)) == BlockEvents(es, Stopped(es), loads)
    ensures forall index :: SlotAfter(Of(es + [stop], index)) == EMPTY
  {
    hide Read, Output, Of, SlotAfter, AssembledIn, BlockEvents, Stopped, AllWellFormed, NoMessageStop, NoDone;
    ReadToStop(es, stop, rest);
    OneMoreEvent(es, stop, loads);
    NoEarlyDone(es, loads);
    StopAddsNothing(es, stop, loads);
    forall index ensures SlotAfter(Of(es + [stop], index)) == EMPTY {
      EveryBlockOnce(es, index);
      OfOneMore(es, stop, index);
    }
  }

  lemma ReadToStop(es: seq<Event>, stop: Event, rest: seq<Event>)
    requires NoMessageStop(es) && stop.MessageStop?
    ensures Read(es + [stop] + rest) == es + [stop]
  {
    hide Read;
    var all := es + [stop] + rest;
    assert forall j :: 0 <= j < |es| ==> all[j] == es[j];
    ReadStops(all, |es|);
    assert all[..|es| + 1] == es + [stop];
  }

  lemma StopAddsNothing(es: seq<Event>, stop: Event, loads: Decoder)
    requires AllWellFormed(es) && stop.MessageStop?
    ensures AssembledIn(Output(es, loads) + [Done(StopFor(stop.reason), stop.input, stop.output)])
         == BlockEvents(es, Stopped(es), loads)
  {
    BlocksInStopOrder(es, loads);
    var done := Done(StopFor(stop.reason), stop.input, stop.output);
    AssembledConcat(Output(es, loads), [done]);
    AssembledFew([done]);
  }
}
