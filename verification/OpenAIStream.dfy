/** The OpenAI stream: interleaved deltas in, one thinking block, the tool calls by index and
    one final Done out. */
module OpenAIStream {
  import opened Prelude
  import opened ProviderEvents

  datatype CallDelta = CallDelta(index: int, id: Option<string>, name: Option<string>, arguments: Option<string>)

  datatype Choice = Choice(
    reasoning: Option<string>,
    content: Option<string>,
    calls: seq<CallDelta>,
    finish: Option<string>)

  datatype Usage = Usage(prompt: Option<int>, completion: Option<int>)

  datatype Chunk = Chunk(usage: Option<Usage>, choice: Option<Choice>)

  // ---- meaning: project the input on each index ---------------------------------------------

  function Text(t: Option<string>): seq<string> {
    if t.Some? && t.value != "" then [t.value] else []
  }

  /** What one chunk yields at once: its reasoning, then its content. */
  function Immediate(c: Chunk): seq<ProviderEvent> {
    if c.choice.None? then []
    else
      (if c.choice.value.reasoning.Some? && c.choice.value.reasoning.value != ""
       then [ThinkingDelta(c.choice.value.reasoning.value)] else [])
      + (if c.choice.value.content.Some? && c.choice.value.content.value != ""
         then [TextDelta(c.choice.value.content.value)] else [])
  }

  function Deltas(chunks: seq<Chunk>): seq<ProviderEvent> {
    if chunks == [] then [] else Deltas(chunks[..|chunks| - 1]) + Immediate(chunks[|chunks| - 1])
  }

  function Reasoning(chunks: seq<Chunk>): seq<string> {
    if chunks == [] then []
    else
      Reasoning(chunks[..|chunks| - 1])
      + var last := chunks[|chunks| - 1]; if last.choice.Some? then Text(last.choice.value.reasoning) else []
  }

  function CallDeltas(chunks: seq<Chunk>): seq<CallDelta> {
    if chunks == [] then []
    else
      CallDeltas(chunks[..|chunks| - 1])
      + var last := chunks[|chunks| - 1]; if last.choice.Some? then last.choice.value.calls else []
  }

  function Indices(ds: seq<CallDelta>): set<int> {
    if ds == [] then {} else Indices(ds[..|ds| - 1]) + {ds[|ds| - 1].index}
  }

  /** The deltas of one index, in arrival order. */
  function Of(ds: seq<CallDelta>, index: int): seq<CallDelta> {
    if ds == [] then []
    else
      var last := ds[|ds| - 1];
      Of(ds[..|ds| - 1], index) + if last.index == index then [last] else []
  }

  function LastId(ds: seq<CallDelta>): Option<string> {
    if ds == [] then None
    else if ds[|ds| - 1].id.Some? then ds[|ds| - 1].id
    else LastId(ds[..|ds| - 1])
  }

  function LastName(ds: seq<CallDelta>): Option<string> {
    if ds == [] then None
    else if ds[|ds| - 1].name.Some? then ds[|ds| - 1].name
    else LastName(ds[..|ds| - 1])
  }

  function Arguments(ds: seq<CallDelta>): seq<string> {
    if ds == [] then [] else Arguments(ds[..|ds| - 1]) + Text(ds[|ds| - 1].arguments)
  }

  function IntText(n: int): string {
    if n < 0 then "-" + NatText(-n) else NatText(n)
  }

  function NatText(n: nat): string {
    var digit := [('0' as int + n % 10) as char];
    if n < 10 then digit else NatText(n / 10) + digit
  }

  function OrDefault(t: Option<string>, default: string): string {
    if t.Some? && t.value != "" then t.value else default
  }

  /** The call assembled from the deltas of one index alone. */
  function CallFor(ds: seq<CallDelta>, index: int, loads: Decoder): ProviderEvent {
    var own := Of(ds, index);
    ToolCallEvent(OrDefault(LastId(own), "openai-tc-" + IntText(index)),
                  OrDefault(LastName(own), ""),
                  ParsedArgs(Flatten(Arguments(own)), loads))
  }

  predicate Ascending(order: seq<int>) {
    forall i, j :: 0 <= i < j < |order| ==> order[i] < order[j]
  }

  predicate IsLeast(m: int, s: set<int>) {
    m in s && forall x :: x in s ==> m <= x
  }

  /** The elements of a set in ascending order. */
  ghost function Sorted(s: set<int>): (r: seq<int>)
    ensures Ascending(r)
    ensures forall x :: x in s <==> x in r
  {
    if s == {} then []
    else
      LeastExists(s);
      var m :| IsLeast(m, s);
      var r := Sorted(s - {m});
      assert forall i :: 0 <= i < |r| ==> r[i] in r;
      [m] + r
  }

  /** `Prelude.SomeMember` at the type whose elements the solver keeps unboxed. */
  lemma SomeIndex(s: set<int>)
    requires s != {}
    ensures exists x: int :: x in s
  {
    if forall x: int :: x !in s {
      assert false;
    }
  }

  lemma {:induction false} LeastExists(s: set<int>)
    requires s != {}
    ensures exists m :: IsLeast(m, s)
  {
    SomeIndex(s);
    var x :| x in s;
    assert forall y :: y in s ==> y == x || y in s - {x};
    if s - {x} == {} {
      assert IsLeast(x, s);
    } else {
      LeastExists(s - {x});
      var m :| IsLeast(m, s - {x});
      assert IsLeast(if x < m then x else m, s);
    }
  }

  function CallsIn(ds: seq<CallDelta>, order: seq<int>, loads: Decoder): seq<ProviderEvent> {
    if order == [] then [] else [CallFor(ds, order[0], loads)] + CallsIn(ds, order[1..], loads)
  }

  /** One call per index that occurs, in ascending order of index. */
  ghost function AllCalls(ds: seq<CallDelta>, loads: Decoder): seq<ProviderEvent> {
    CallsIn(ds, Sorted(Indices(ds)), loads)
  }

  function ThinkingOf(chunks: seq<Chunk>): seq<ProviderEvent> {
    if Reasoning(chunks) == [] then [] else [ThinkingBlock(Flatten(Reasoning(chunks)), "")]
  }

  function FinishOf(chunks: seq<Chunk>): Option<string> {
    if chunks == [] then None
    else
      var last := chunks[|chunks| - 1];
      if last.choice.Some? && last.choice.value.finish.Some? then last.choice.value.finish
      else FinishOf(chunks[..|chunks| - 1])
  }

  function UsageOf(chunks: seq<Chunk>): Usage {
    if chunks == [] then Usage(None, None)
    else
      var last := chunks[|chunks| - 1];
      if last.usage.Some? then last.usage.value else UsageOf(chunks[..|chunks| - 1])
  }

  function StopFor(finish: Option<string>): StopReason {
    var reason := OrDefault(finish, "stop");
    if reason == "stop" then EndTurn
    else if reason == "length" then MaxTokens
    else if reason == "tool_calls" || reason == "function_call" then ToolUse
    else StopError
  }

  function DoneOf(chunks: seq<Chunk>): ProviderEvent {
    Done(StopFor(FinishOf(chunks)), UsageOf(chunks).prompt, UsageOf(chunks).completion)
  }

  // ---- the accumulating loop ------------------------------------------------------------------

  datatype Buffer = Buffer(id: Option<string>, name: Option<string>, args: seq<string>)

  function BufferOf(own: seq<CallDelta>): Buffer {
    Buffer(LastId(own), LastName(own), Arguments(own))
  }

  ghost predicate BuffersFit(buffers: map<int, Buffer>, ds: seq<CallDelta>) {
    && buffers.Keys == Indices(ds)
    && forall index :: index in buffers ==> buffers[index] == BufferOf(Of(ds, index))
  }

  lemma OneMoreChunk(chunks: seq<Chunk>, k: nat)
    requires k < |chunks|
    ensures var before, after, c := chunks[..k], chunks[..k + 1], chunks[k];
            && Deltas(after) == Deltas(before) + Immediate(c)
            && Reasoning(after) == Reasoning(before) + (if c.choice.Some? then Text(c.choice.value.reasoning) else [])
            && CallDeltas(after) == CallDeltas(before) + (if c.choice.Some? then c.choice.value.calls else [])
            && FinishOf(after) == (if c.choice.Some? && c.choice.value.finish.Some?
                                   then c.choice.value.finish else FinishOf(before))
            && UsageOf(after) == (if c.usage.Some? then c.usage.value else UsageOf(before))
  {
    assert chunks[..k + 1][..k] == chunks[..k];
  }

  method Stream(chunks: seq<Chunk>, loads: Decoder) returns (events: seq<ProviderEvent>)
    ensures events == Deltas(chunks) + ThinkingOf(chunks) + AllCalls(CallDeltas(chunks), loads) + [DoneOf(chunks)]
  {
    events := [];
    var finish: Option<string> := None;
    var usage := Usage(None, None);
    var buffers: map<int, Buffer> := map[];
    var reasoning: seq<string> := [];
    ghost var ds: seq<CallDelta> := [];
    for k := 0 to |chunks|
      invariant events == Deltas(chunks[..k]) && reasoning == Reasoning(chunks[..k])
      invariant finish == FinishOf(chunks[..k]) && usage == UsageOf(chunks[..k])
      invariant ds == CallDeltas(chunks[..k]) && BuffersFit(buffers, ds)
    {
      OneMoreChunk(chunks, k);
      var chunk := chunks[k];
      if chunk.usage.Some? {
        usage := chunk.usage.value;
      }
      if chunk.choice.None? {
        continue;
      }
      var choice := chunk.choice.value;
      var now;
      now, reasoning := TakeText(choice, reasoning);
      events := events + now;
      buffers := Absorb(buffers, choice.calls, ds);
      ds := ds + choice.calls;
      if choice.finish.Some? {
        finish := choice.finish;
      }
    }
    assert chunks[..|chunks|] == chunks;
    if reasoning != [] {
      events := events + [ThinkingBlock(Flatten(reasoning), "")];
    }
    assert events == Deltas(chunks) + ThinkingOf(chunks);
    var calls := EmitCalls(buffers, loads, ds);
    events := events + calls;
    events := events + [Done(StopFor(finish), usage.prompt, usage.completion)];
  }

  /** One chunk's reasoning and content: yielded at once, the reasoning also kept. */
  method TakeText(choice: Choice, reasoning: seq<string>) returns (now: seq<ProviderEvent>, kept: seq<string>)
    ensures now == Immediate(Chunk(None, Some(choice)))
    ensures kept == reasoning + Text(choice.reasoning)
  {
    now, kept := [], reasoning;
    if choice.reasoning.Some? && choice.reasoning.value != "" {
      kept := kept + [choice.reasoning.value];
      now := now + [ThinkingDelta(choice.reasoning.value)];
    }
    if choice.content.Some? && choice.content.value != "" {
      now := now + [TextDelta(choice.content.value)];
    }
  }

  /** The inner loop over one chunk's tool-call deltas. */
  method Absorb(buffers: map<int, Buffer>, calls: seq<CallDelta>, ghost before: seq<CallDelta>)
    returns (out: map<int, Buffer>)
    requires BuffersFit(buffers, before)
    ensures BuffersFit(out, before + calls)
  {
    hide BuffersFit;
    out := buffers;
    ghost var seen := before;
    for k := 0 to |calls|
      invariant seen == before + calls[..k]
      invariant BuffersFit(out, seen)
    {
      out := AbsorbOne(out, calls[k], seen);
      seen := seen + [calls[k]];
    }
    assert seen == before + calls;
  }

  method AbsorbOne(buffers: map<int, Buffer>, d: CallDelta, ghost before: seq<CallDelta>)
    returns (out: map<int, Buffer>)
    requires BuffersFit(buffers, before)
    ensures BuffersFit(out, before + [d])
  {
    hide Of, Indices, LastId, LastName, Arguments;
    out := buffers;
    OneMoreDelta(before, d);
    if d.index !in out {
      out := out[d.index := Buffer(None, None, [])];
    }
    var b := out[d.index];
    if d.id.Some? {
      b := b.(id := d.id);
    }
    if d.name.Some? {
      b := b.(name := d.name);
    }
    if d.arguments.Some? && d.arguments.value != "" {
      b := b.(args := b.args + [d.arguments.value]);
    }
    out := out[d.index := b];
    assert b == BufferOf(Of(before, d.index) + [d]);
    forall index | index in out ensures out[index] == BufferOf(Of(before + [d], index)) {
      OneMoreOf(before, d, index);
      assert index == d.index || index in buffers;
    }
  }

  lemma OneMoreOf(ds: seq<CallDelta>, d: CallDelta, index: int)
    ensures Of(ds + [d], index) == if d.index == index then Of(ds, index) + [d] else Of(ds, index)
  {
    assert (ds + [d])[..|ds|] == ds;
  }

  lemma OneMoreDelta(ds: seq<CallDelta>, d: CallDelta)
    ensures Indices(ds + [d]) == Indices(ds) + {d.index}
    ensures d.index !in Indices(ds) ==> Of(ds, d.index) == []
    ensures BufferOf([]) == Buffer(None, None, [])
    ensures var own := Of(ds, d.index);
            BufferOf(own + [d]) == Buffer(if d.id.Some? then d.id else LastId(own),
                                          if d.name.Some? then d.name else LastName(own),
                                          Arguments(own) + Text(d.arguments))
  {
    assert (ds + [d])[..|ds|] == ds;
    var own := Of(ds, d.index);
    assert (own + [d])[..|own|] == own;
    AbsentIndex(ds, d.index);
  }

  lemma {:induction false} AbsentIndex(ds: seq<CallDelta>, index: int)
    ensures index !in Indices(ds) ==> Of(ds, index) == []
  {
    if ds != [] {
      AbsentIndex(ds[..|ds| - 1], index);
    }
  }

  /** `for idx in sorted(tool_call_buffer)`. */
  method EmitCalls(buffers: map<int, Buffer>, loads: Decoder, ghost ds: seq<CallDelta>)
    returns (calls: seq<ProviderEvent>)
    requires BuffersFit(buffers, ds)
    ensures calls == AllCalls(ds, loads)
  {
    calls := [];
    var left := buffers.Keys;
    ghost var later := AllCalls(ds, loads);
    assert calls + later == later;
    while left != {}
      invariant left <= buffers.Keys
      invariant later == CallsIn(ds, Sorted(left), loads)
      invariant calls + later == AllCalls(ds, loads)
      decreases left
    {
      var index := Least(left);
      var call := CallFrom(buffers[index], index, loads, ds);
      LeastFirst(left, index);
      left := left - {index};
      later := CallsIn(ds, Sorted(left), loads);
      Shift(calls, call, later);
      calls := calls + [call];
    }
  }

  method CallFrom(b: Buffer, index: int, loads: Decoder, ghost ds: seq<CallDelta>) returns (call: ProviderEvent)
    requires b == BufferOf(Of(ds, index))
    ensures call == CallFor(ds, index, loads)
  {
    var raw := Flatten(b.args);
    var id := OrDefault(b.id, "openai-tc-" + IntText(index));
    call := ToolCallEvent(id, OrDefault(b.name, ""), ParsedArgs(raw, loads));
  }

  lemma LeastFirst(s: set<int>, m: int)
    requires IsLeast(m, s)
    ensures Sorted(s) == [m] + Sorted(s - {m})
  {
  }

  method Least(s: set<int>) returns (m: int)
    requires s != {}
    ensures IsLeast(m, s)
  {
    SomeIndex(s);
    m :| m in s;
    var left := s - {m};
    while left != {}
      invariant left <= s && m in s && forall x :: x in s ==> x in left || m <= x
      decreases left
    {
      SomeIndex(left);
      var x :| x in left;
      left := left - {x};
      if x < m {
        m := x;
      }
    }
  }

  // ---- what the output means --------------------------------------------------------------------

  lemma {:induction false} OfConcat(a: seq<CallDelta>, b: seq<CallDelta>, index: int)
    ensures Of(a + b, index) == Of(a, index) + Of(b, index)
  {
    if b == [] {
      assert a + b == a;
    } else {
      var n := |b| - 1;
      assert (a + b)[..|a| + n] == a + b[..n];
      OfConcat(a, b[..n], index);
    }
  }

  /** Deltas of different calls may arrive in either order: each call is built from its own. */
  lemma SwapNeighbours(a: seq<CallDelta>, x: CallDelta, y: CallDelta, b: seq<CallDelta>, loads: Decoder)
    requires x.index != y.index
    ensures AllCalls(a + [x, y] + b, loads) == AllCalls(a + [y, x] + b, loads)
  {
    var d, e := a + [x, y] + b, a + [y, x] + b;
    forall index ensures Of(d, index) == Of(e, index) {
      OfConcat(a + [x, y], b, index);
      OfConcat(a + [y, x], b, index);
      OfConcat(a, [x, y], index);
      OfConcat(a, [y, x], index);
      assert [x, y] == [x] + [y] && [y, x] == [y] + [x];
      OfConcat([x], [y], index);
      OfConcat([y], [x], index);
    }
    IndicesSwap(a, x, y, b);
    SameOfSameCalls(d, e, Sorted(Indices(d)), loads);
  }

  lemma {:induction false} SameOfSameCalls(d: seq<CallDelta>, e: seq<CallDelta>, order: seq<int>, loads: Decoder)
    requires forall index :: Of(d, index) == Of(e, index)
    ensures CallsIn(d, order, loads) == CallsIn(e, order, loads)
  {
    if order != [] {
      SameOfSameCalls(d, e, order[1..], loads);
    }
  }

  lemma IndicesSwap(a: seq<CallDelta>, x: CallDelta, y: CallDelta, b: seq<CallDelta>)
    ensures Indices(a + [x, y] + b) == Indices(a + [y, x] + b)
  {
    IndicesConcat(a + [x, y], b);
    IndicesConcat(a + [y, x], b);
    IndicesConcat(a, [x, y]);
    IndicesConcat(a, [y, x]);
    assert [x, y] == [x] + [y] && [y, x] == [y] + [x];
    IndicesConcat([x], [y]);
    IndicesConcat([y], [x]);
  }

  lemma {:induction false} IndicesConcat(a: seq<CallDelta>, b: seq<CallDelta>)
    ensures Indices(a + b) == Indices(a) + Indices(b)
  {
    if b == [] {
      assert a + b == a;
    } else {
      var n := |b| - 1;
      assert (a + b)[..|a| + n] == a + b[..n];
      IndicesConcat(a, b[..n]);
    }
  }

  function ThinkingTexts(events: seq<ProviderEvent>): seq<string> {
    if events == [] then []
    else
      var last := events[|events| - 1];
      ThinkingTexts(events[..|events| - 1]) + if last.ThinkingDelta? then [last.text] else []
  }

  lemma {:induction false} ThinkingTextsConcat(a: seq<ProviderEvent>, b: seq<ProviderEvent>)
    ensures ThinkingTexts(a + b) == ThinkingTexts(a) + ThinkingTexts(b)
  {
    if b == [] {
      assert a + b == a;
    } else {
      var n := |b| - 1;
      assert (a + b)[..|a| + n] == a + b[..n];
      ThinkingTextsConcat(a, b[..n]);
    }
  }

  /** The one thinking block is the join of the thinking deltas the consumer saw. */
  lemma {:induction false} ThinkingDeltasJoin(chunks: seq<Chunk>)
    ensures ThinkingTexts(Deltas(chunks)) == Reasoning(chunks)
  {
    if chunks != [] {
      var front, last := chunks[..|chunks| - 1], chunks[|chunks| - 1];
      ThinkingDeltasJoin(front);
      ThinkingTextsConcat(Deltas(front), Immediate(last));
      ImmediateThinking(last);
    }
  }

  lemma ImmediateThinking(c: Chunk)
    ensures ThinkingTexts(Immediate(c)) == if c.choice.Some? then Text(c.choice.value.reasoning) else []
  {
    if c.choice.Some? {
      var r := if c.choice.value.reasoning.Some? && c.choice.value.reasoning.value != ""
               then [ThinkingDelta(c.choice.value.reasoning.value)] else [];
      var t := if c.choice.value.content.Some? && c.choice.value.content.value != ""
               then [TextDelta(c.choice.value.content.value)] else [];
      ThinkingTextsConcat(r, t);
    }
  }

  lemma {:induction false} DeltasNoDone(chunks: seq<Chunk>)
    ensures NoDone(Deltas(chunks))
  {
    if chunks != [] {
      DeltasNoDone(chunks[..|chunks| - 1]);
    }
  }

  lemma {:induction false} CallsInNoDone(ds: seq<CallDelta>, order: seq<int>, loads: Decoder)
    ensures NoDone(CallsIn(ds, order, loads)) && |CallsIn(ds, order, loads)| == |order|
    ensures forall k :: 0 <= k < |order| ==> CallsIn(ds, order, loads)[k] == CallFor(ds, order[k], loads)
  {
    if order != [] {
      CallsInNoDone(ds, order[1..], loads);
    }
  }

  lemma NoDoneConcat(a: seq<ProviderEvent>, b: seq<ProviderEvent>)
    requires NoDone(a) && NoDone(b)
    ensures NoDone(a + b)
  {
  }

  /** Nothing before the final Done is a Done, and the calls are one per index that occurred,
      with strictly ascending indices, each assembled from the deltas of its own index. */
  lemma StreamShape(chunks: seq<Chunk>, loads: Decoder)
    ensures NoDone(Deltas(chunks) + ThinkingOf(chunks) + AllCalls(CallDeltas(chunks), loads))
    ensures OneCallPerIndex(CallDeltas(chunks), AllCalls(CallDeltas(chunks), loads), loads)
  {
    var ds := CallDeltas(chunks);
    DeltasNoDone(chunks);
    NoDoneConcat(Deltas(chunks), ThinkingOf(chunks));
    CallsShape(ds, loads);
    NoDoneConcat(Deltas(chunks) + ThinkingOf(chunks), AllCalls(ds, loads));
  }

  ghost predicate OneCallPerIndex(ds: seq<CallDelta>, calls: seq<ProviderEvent>, loads: Decoder) {
    exists order: seq<int> ::
      && Ascending(order)
      && (forall x :: x in order <==> x in Indices(ds))
      && |calls| == |order|
      && forall k :: 0 <= k < |order| ==> calls[k] == CallFor(ds, order[k], loads)
  }

  lemma CallsShape(ds: seq<CallDelta>, loads: Decoder)
    ensures NoDone(AllCalls(ds, loads)) && OneCallPerIndex(ds, AllCalls(ds, loads), loads)
  {
    var order := Sorted(Indices(ds));
    CallsInNoDone(ds, order, loads);
    assert forall k :: 0 <= k < |order| ==> CallsIn(ds, order, loads)[k] == CallFor(ds, order[k], loads);
  }
}
