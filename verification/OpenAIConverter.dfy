/** History to OpenAI wire messages: a well-paired history becomes a list in which every
    assistant's tool_calls are directly followed by one tool entry per call, in order. */
module OpenAIConverter {
  import opened Prelude
  import opened Messages

  datatype Part = TextPart(text: string) | ImagePart(url: string)

  datatype Body = Absent | Plain(text: string) | Parts(parts: seq<Part>)

  datatype WireCall = WireCall(id: string, name: string, arguments: Json)

  datatype Wire =
    | SystemWire(text: string)
    | ToolWire(callId: string, text: string)
    | ChatWire(role: Role, body: Body, reasoning: Option<string>, calls: seq<WireCall>)

  // ---- meaning ------------------------------------------------------------------------------

  function Texts(content: seq<Block>): seq<string> {
    if content == [] then []
    else Texts(content[..|content| - 1]) + var b := content[|content| - 1]; if b.Text? then [b.text] else []
  }

  function PartsOf(content: seq<Block>): seq<Part> {
    if content == [] then []
    else
      PartsOf(content[..|content| - 1])
      + var b := content[|content| - 1];
        if b.Text? then [TextPart(b.text)] else if b.Image? then [ImagePart(b.url)] else []
  }

  function WireCalls(content: seq<Block>): seq<WireCall> {
    if content == [] then []
    else
      WireCalls(content[..|content| - 1])
      + var b := content[|content| - 1]; if b.ToolCall? then [WireCall(b.id, b.name, b.args)] else []
  }

  function Thoughts(content: seq<Block>): seq<string> {
    if content == [] then []
    else Thoughts(content[..|content| - 1]) + var b := content[|content| - 1]; if b.Thinking? then [b.text] else []
  }

  predicate HasImage(content: seq<Block>) {
    exists k :: 0 <= k < |content| && content[k].Image?
  }

  function ToolWires(content: seq<Block>): seq<Wire> {
    if content == [] then []
    else
      ToolWires(content[..|content| - 1])
      + var b := content[|content| - 1];
        if b.ToolResult? then [ToolWire(b.id, if b.success then b.output else b.error)] else []
  }

  function BodyOf(content: seq<Block>): Body {
    if HasImage(content) then Parts(PartsOf(content))
    else if Texts(content) != [] then Plain(Flatten(Texts(content)))
    else Absent
  }

  function ReasoningOf(m: Message, replay: bool): Option<string> {
    if m.role != Assistant then None
    else if Thoughts(m.content) != [] then Some(Flatten(Thoughts(m.content)))
    else if WireCalls(m.content) != [] && replay then Some("")
    else None
  }

  function Converted(m: Message, replay: bool): seq<Wire> {
    match m.role
    case System => [SystemWire(Flatten(Texts(m.content)))]
    case ToolRole => ToolWires(m.content)
    case _ => [ChatWire(m.role, BodyOf(m.content), ReasoningOf(m, replay), WireCalls(m.content))]
  }

  function ConvertedAll(ms: seq<Message>, replay: bool): seq<Wire> {
    if ms == [] then [] else ConvertedAll(ms[..|ms| - 1], replay) + Converted(ms[|ms| - 1], replay)
  }

  function Opening(systemPrompt: string): seq<Wire> {
    if systemPrompt == "" then [] else [SystemWire(systemPrompt)]
  }

  // ---- the two nested loops -------------------------------------------------------------------

  method Convert(ms: seq<Message>, systemPrompt: string, replay: bool) returns (out: seq<Wire>)
    ensures out == Opening(systemPrompt) + ConvertedAll(ms, replay)
  {
    out := [];
    if systemPrompt != "" {
      out := out + [SystemWire(systemPrompt)];
    }
    ghost var head, done: seq<Wire> := out, [];
    for k := 0 to |ms|
      invariant done == ConvertedAll(ms[..k], replay)
      invariant out == head + done
    {
      OneMoreMessage(ms, k, replay);
      var entries := ConvertOne(ms[k], replay);
      Associative(head, done, entries);
      done := done + entries;
      out := out + entries;
    }
    assert ms[..|ms|] == ms;
  }

  lemma OneMoreMessage(ms: seq<Message>, k: nat, replay: bool)
    requires k < |ms|
    ensures ConvertedAll(ms[..k + 1], replay) == ConvertedAll(ms[..k], replay) + Converted(ms[k], replay)
  {
    assert ms[..k + 1][..k] == ms[..k];
  }

  method ConvertOne(m: Message, replay: bool) returns (out: seq<Wire>)
    ensures out == Converted(m, replay)
  {
    hide Texts, PartsOf, WireCalls, Thoughts, ToolWires;
    NoBlocks();
    if m.role == System {
      var texts := TextsOf(m.content);
      return [SystemWire(Flatten(texts))];
    }
    if m.role == ToolRole {
      out := [];
      for k := 0 to |m.content|
        invariant out == ToolWires(m.content[..k])
      {
        OneMoreBlock(m.content, k);
        var b := m.content[k];
        if b.ToolResult? {
          out := out + [ToolWire(b.id, if b.success then b.output else b.error)];
        }
      }
      assert m.content[..|m.content|] == m.content;
      return;
    }
    var texts: seq<string>, parts: seq<Part>, calls: seq<WireCall>, thoughts: seq<string> := [], [], [], [];
    var hasNonText := false;
    for k := 0 to |m.content|
      invariant texts == Texts(m.content[..k]) && parts == PartsOf(m.content[..k])
      invariant calls == WireCalls(m.content[..k]) && thoughts == Thoughts(m.content[..k])
      invariant hasNonText <==> exists j :: 0 <= j < k && m.content[j].Image?
    {
      OneMoreBlock(m.content, k);
      match m.content[k] {
        case Text(text) =>
          texts := texts + [text];
          parts := parts + [TextPart(text)];
        case Image(url) =>
          hasNonText := true;
          parts := parts + [ImagePart(url)];
        case ToolCall(id, name, args) => calls := calls + [WireCall(id, name, args)];
        case Thinking(text, _) => thoughts := thoughts + [text];
        case Redacted(_) =>
        case ToolResult(_, _, _, _) =>
      }
    }
    assert m.content[..|m.content|] == m.content;
    var body := if hasNonText then Parts(parts) else if texts != [] then Plain(Flatten(texts)) else Absent;
    var reasoning: Option<string> := None;
    if m.role == Assistant {
      if thoughts != [] {
        reasoning := Some(Flatten(thoughts));
      } else if calls != [] && replay {
        reasoning := Some("");
      }
    }
    out := [ChatWire(m.role, body, reasoning, calls)];
  }

  lemma NoBlocks()
    ensures Texts([]) == [] && PartsOf([]) == [] && WireCalls([]) == [] && Thoughts([]) == [] && ToolWires([]) == []
  {
  }

  lemma OneMoreBlock(content: seq<Block>, k: nat)
    requires k < |content|
    ensures var before, after, b := content[..k], content[..k + 1], content[k];
            && Texts(after) == Texts(before) + (if b.Text? then [b.text] else [])
            && PartsOf(after) == PartsOf(before)
                                 + (if b.Text? then [TextPart(b.text)] else if b.Image? then [ImagePart(b.url)] else [])
            && WireCalls(after) == WireCalls(before)
                                   + (if b.ToolCall? then [WireCall(b.id, b.name, b.args)] else [])
            && Thoughts(after) == Thoughts(before) + (if b.Thinking? then [b.text] else [])
            && ToolWires(after) == ToolWires(before)
                                   + (if b.ToolResult? then [ToolWire(b.id, if b.success then b.output else b.error)]
                                      else [])
  {
    assert content[..k + 1][..k] == content[..k];
  }

  method TextsOf(content: seq<Block>) returns (texts: seq<string>)
    ensures texts == Texts(content)
  {
    texts := [];
    for k := 0 to |content|
      invariant texts == Texts(content[..k])
    {
      assert content[..k + 1][..k] == content[..k];
      if content[k].Text? {
        texts := texts + [content[k].text];
      }
    }
    assert content[..|content|] == content;
  }

  // ---- the wire guarantee -----------------------------------------------------------------------

  function Ids(calls: seq<WireCall>): seq<string> {
    seq(|calls|, i requires 0 <= i < |calls| => calls[i].id)
  }

  predicate AreToolWires(ws: seq<Wire>, ids: seq<string>) {
    |ws| == |ids| && forall i :: 0 <= i < |ws| ==> ws[i].ToolWire? && ws[i].callId == ids[i]
  }

  /** What the API demands: directly after an assistant entry with tool_calls, one tool entry
      per call with the same ids in the same order, and no tool entry anywhere else. */
  predicate WirePaired(ws: seq<Wire>)
    decreases |ws|
  {
    if ws == [] then true
    else
      match ws[0]
      case ToolWire(_, _) => false
      case SystemWire(_) => WirePaired(ws[1..])
      case ChatWire(role, _, _, calls) =>
        var n := if role == Assistant then |calls| else 0;
        && n < |ws|
        && AreToolWires(ws[1..n + 1], if role == Assistant then Ids(calls) else [])
        && WirePaired(ws[n + 1..])
  }

  lemma {:induction false} WireCallIds(content: seq<Block>)
    ensures Ids(WireCalls(content)) == CallIds(content)
  {
    if content != [] {
      var front, last := content[..|content| - 1], content[|content| - 1];
      WireCallIds(front);
      CallIdsConcat(front, [last]);
      assert content == front + [last];
      assert CallIds([last]) == (if last.ToolCall? then [last.id] else []) + CallIds([last][1..]);
    }
  }

  lemma {:induction false} ToolWireIds(content: seq<Block>)
    ensures AreToolWires(ToolWires(content), ResultIds(content))
  {
    if content != [] {
      var front, last := content[..|content| - 1], content[|content| - 1];
      ToolWireIds(front);
      ResultIdsConcat(front, [last]);
      assert content == front + [last];
      assert ResultIds([last]) == (if last.ToolResult? then [last.id] else []) + ResultIds([last][1..]);
    }
  }

  lemma ConvertedLast(ms: seq<Message>, m: Message, replay: bool)
    ensures ConvertedAll(ms + [m], replay) == ConvertedAll(ms, replay) + Converted(m, replay)
  {
    assert (ms + [m])[..|ms|] == ms;
  }

  lemma {:induction false} ConvertedConcat(a: seq<Message>, b: seq<Message>, replay: bool)
    ensures ConvertedAll(a + b, replay) == ConvertedAll(a, replay) + ConvertedAll(b, replay)
  {
    if b == [] {
      assert a + b == a;
    } else {
      var front, last := b[..|b| - 1], b[|b| - 1];
      assert a + b == (a + front) + [last] && b == front + [last];
      ConvertedConcat(a, front, replay);
      ConvertedLast(a + front, last, replay);
      ConvertedLast(front, last, replay);
      Associative(ConvertedAll(a, replay), ConvertedAll(front, replay), Converted(last, replay));
    }
  }

  lemma ConvertedSplit(ms: seq<Message>, k: nat, replay: bool)
    requires k <= |ms|
    ensures ConvertedAll(ms, replay) == ConvertedAll(ms[..k], replay) + ConvertedAll(ms[k..], replay)
  {
    assert ms == ms[..k] + ms[k..];
    ConvertedConcat(ms[..k], ms[k..], replay);
  }

  lemma ConvertedOne(m: Message, replay: bool)
    ensures ConvertedAll([m], replay) == Converted(m, replay)
  {
    assert [m][..0] == [];
  }

  /** The conversion of a well-paired history meets the wire format. */
  lemma {:induction false} PairedHistoryConverts(ms: seq<Message>, replay: bool)
    requires WellPaired(ms)
    ensures WirePaired(ConvertedAll(ms, replay))
    decreases |ms|
  {
    if ms != [] {
      assert Placed(ms, 0) && Answered(ms, 0);
      if Calls(ms[0]) {
        ConvertedPair(ms, replay);
      } else {
        TailPaired(ms, 1);
        PairedHistoryConverts(ms[1..], replay);
        ConvertedSplit(ms, 1, replay);
        assert ms[..1] == [ms[0]];
        ConvertedOne(ms[0], replay);
        SoloPaired(ms[0], ConvertedAll(ms[1..], replay), replay);
      }
    }
  }

  /** A message that neither calls nor answers becomes one entry that needs no tool entry. */
  lemma SoloPaired(m: Message, rest: seq<Wire>, replay: bool)
    requires m.role != ToolRole && !Calls(m) && WirePaired(rest)
    ensures WirePaired(Converted(m, replay) + rest)
  {
    WireCallIds(m.content);
    var ws := Converted(m, replay) + rest;
    assert ws[1..] == rest;
    if m.role == Assistant {
      assert AreToolWires(ws[1..1], []);
    }
  }

  lemma TailPaired(ms: seq<Message>, k: nat)
    requires WellPaired(ms) && 1 <= k <= |ms| && !Calls(ms[k - 1])
    ensures WellPaired(ms[k..])
  {
    if k < |ms| {
      assert Placed(ms, k);
      SuffixPaired(ms, k);
    }
  }

  lemma {:induction false} ConvertedPair(ms: seq<Message>, replay: bool)
    requires WellPaired(ms) && ms != [] && Calls(ms[0])
    ensures WirePaired(ConvertedAll(ms, replay))
    decreases |ms|, 0
  {
    hide WirePaired, ToolWires, WireCalls, Texts, PartsOf, Thoughts, ConvertedAll, CallIds, ResultIds;
    assert Answered(ms, 0);
    TailPaired(ms, 2);
    PairedHistoryConverts(ms[2..], replay);
    ConvertedSplit(ms, 2, replay);
    ConvertedTwo(ms[0], ms[1], replay);
    assert ms[..2] == [ms[0], ms[1]];
    WireCallIds(ms[0].content);
    ToolWireIds(ms[1].content);
    GroupPaired(Converted(ms[0], replay)[0], ToolWires(ms[1].content), ConvertedAll(ms[2..], replay));
  }

  lemma ConvertedTwo(a: Message, b: Message, replay: bool)
    requires Answers(a, b)
    ensures ConvertedAll([a, b], replay) == [Converted(a, replay)[0]] + ToolWires(b.content)
  {
    hide ConvertedAll, ToolWires, WireCalls, Texts, PartsOf, Thoughts, CallIds, ResultIds;
    assert [a, b] == [a] + [b];
    ConvertedLast([a], b, replay);
    ConvertedOne(a, replay);
    assert Converted(a, replay) == [Converted(a, replay)[0]];
  }

  /** One assistant entry, its tool entries, and whatever correct list follows. */
  lemma GroupPaired(chat: Wire, tools: seq<Wire>, rest: seq<Wire>)
    requires chat.ChatWire? && chat.role == Assistant && AreToolWires(tools, Ids(chat.calls)) && WirePaired(rest)
    ensures WirePaired([chat] + tools + rest)
  {
    var ws := [chat] + tools + rest;
    assert ws[1..|tools| + 1] == tools && ws[|tools| + 1..] == rest;
  }

  /** The whole request: the system prompt changes nothing about it. */
  lemma RequestIsPaired(ms: seq<Message>, systemPrompt: string, replay: bool)
    requires WellPaired(ms)
    ensures WirePaired(Opening(systemPrompt) + ConvertedAll(ms, replay))
  {
    PairedHistoryConverts(ms, replay);
    var rest := ConvertedAll(ms, replay);
    var ws := Opening(systemPrompt) + rest;
    if systemPrompt == "" {
      assert ws == rest;
    } else {
      assert ws[1..] == rest;
    }
  }
}
