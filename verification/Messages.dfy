/** Messages, their content blocks, and what it means for tool calls and results to pair up. */
module Messages {
  import opened Prelude

  datatype Role = User | Assistant | System | ToolRole

  datatype Block =
    | Text(text: string)
    | Image(url: string)
    | ToolCall(id: string, name: string, args: Json)
    | ToolResult(id: string, success: bool, output: Json, error: Json)
    | Thinking(text: string, signature: string)
    | Redacted(data: string)

  datatype Message = Message(role: Role, content: seq<Block>)

  function CallIds(content: seq<Block>): seq<string> {
    if content == [] then []
    else (if content[0].ToolCall? then [content[0].id] else []) + CallIds(content[1..])
  }

  function ResultIds(content: seq<Block>): seq<string> {
    if content == [] then []
    else (if content[0].ToolResult? then [content[0].id] else []) + ResultIds(content[1..])
  }

  lemma {:induction false} CallIdsConcat(a: seq<Block>, b: seq<Block>)
    ensures CallIds(a + b) == CallIds(a) + CallIds(b)
  {
    if a == [] {
      assert a + b == b;
    } else {
      var own := if a[0].ToolCall? then [a[0].id] else [];
      assert (a + b)[1..] == a[1..] + b && (a + b)[0] == a[0];
      CallIdsConcat(a[1..], b);
      Associative(own, CallIds(a[1..]), CallIds(b));
    }
  }

  lemma {:induction false} ResultIdsConcat(a: seq<Block>, b: seq<Block>)
    ensures ResultIds(a + b) == ResultIds(a) + ResultIds(b)
  {
    if a == [] {
      assert a + b == b;
    } else {
      var own := if a[0].ToolResult? then [a[0].id] else [];
      assert (a + b)[1..] == a[1..] + b && (a + b)[0] == a[0];
      ResultIdsConcat(a[1..], b);
      Associative(own, ResultIds(a[1..]), ResultIds(b));
    }
  }

  predicate Calls(m: Message) {
    m.role == Assistant && CallIds(m.content) != []
  }

  /** `b` is the tool message that answers `a`. */
  predicate Answers(a: Message, b: Message) {
    Calls(a) && b.role == ToolRole && ResultIds(b.content) == CallIds(a.content)
  }

  predicate Answered(ms: seq<Message>, i: nat)
    requires i < |ms|
  {
    Calls(ms[i]) ==> i + 1 < |ms| && Answers(ms[i], ms[i + 1])
  }

  predicate Placed(ms: seq<Message>, i: nat)
    requires i < |ms|
  {
    ms[i].role == ToolRole ==> 0 < i && Answers(ms[i - 1], ms[i])
  }

  /** Every assistant message with calls is followed at once by the one tool message with the
      same ids in the same order, and tool messages stand nowhere else. */
  predicate WellPaired(ms: seq<Message>) {
    forall i :: 0 <= i < |ms| ==> Answered(ms, i) && Placed(ms, i)
  }

  /** Well paired but for a last assistant message that still waits for its tool message. */
  predicate PairedButLast(ms: seq<Message>) {
    && (forall i :: 0 <= i < |ms| ==> Placed(ms, i))
    && (forall i :: 0 <= i < |ms| - 1 ==> Answered(ms, i))
  }

  /** The last message still waits for its answer. */
  predicate Waits(ms: seq<Message>) {
    ms != [] && Calls(ms[|ms| - 1])
  }

  lemma PairedIff(ms: seq<Message>)
    ensures WellPaired(ms) <==> PairedButLast(ms) && !Waits(ms)
  {
    if PairedButLast(ms) && !Waits(ms) {
      forall i | 0 <= i < |ms| ensures Answered(ms, i) && Placed(ms, i) {
        assert Placed(ms, i);
      }
    }
    if WellPaired(ms) {
      if ms != [] {
        assert Answered(ms, |ms| - 1);
      }
    }
  }

  /** A message that is no tool message can follow a well-paired history. */
  lemma PlainKeepsPaired(ms: seq<Message>, m: Message)
    requires WellPaired(ms) && m.role != ToolRole
    ensures PairedButLast(ms + [m])
    ensures Calls(m) ==> !WellPaired(ms + [m])
    ensures !Calls(m) ==> WellPaired(ms + [m])
  {
    var all := ms + [m];
    forall i | 0 <= i < |ms| ensures Placed(all, i) && Answered(all, i) {
      assert Placed(ms, i) && Answered(ms, i);
    }
    assert Placed(all, |ms|);
    PairedIff(all);
  }

  lemma AnswerKeepsPaired(ms: seq<Message>, a: Message, b: Message)
    requires WellPaired(ms) && Answers(a, b)
    ensures WellPaired(ms + [a, b])
  {
    var all := ms + [a, b];
    forall i | 0 <= i < |all| ensures Placed(all, i) && Answered(all, i) {
      if i < |ms| {
        assert Placed(ms, i) && Answered(ms, i);
      }
    }
  }

  lemma SuffixPaired(ms: seq<Message>, k: nat)
    requires WellPaired(ms) && k < |ms| && ms[k].role != ToolRole
    ensures WellPaired(ms[k..])
  {
    forall i | 0 <= i < |ms| - k ensures Placed(ms[k..], i) && Answered(ms[k..], i) {
      assert Placed(ms, i + k) && Answered(ms, i + k);
    }
  }

  lemma SystemsBeforePaired(a: seq<Message>, b: seq<Message>)
    requires WellPaired(b) && forall i :: 0 <= i < |a| ==> a[i].role == System
    ensures WellPaired(a + b)
  {
    forall i | 0 <= i < |a + b| ensures Placed(a + b, i) && Answered(a + b, i) {
      if i >= |a| {
        assert Placed(b, i - |a|) && Answered(b, i - |a|);
      }
    }
  }
}
