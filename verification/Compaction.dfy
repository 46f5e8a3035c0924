/** The summarization compactor: what it keeps, when it shortens, and when it breaks pairs. */
module Compaction {
  import opened Prelude
  import opened Messages

  type Summarizer = seq<Message> -> string

  /** The leading run of system messages. */
  function SystemRun(ms: seq<Message>): (run: seq<Message>)
    ensures run <= ms
    ensures forall i :: 0 <= i < |run| ==> run[i].role == System
    ensures |run| < |ms| ==> ms[|run|].role != System
  {
    if ms != [] && ms[0].role == System then [ms[0]] + SystemRun(ms[1..]) else []
  }

  function Rest(ms: seq<Message>): seq<Message> {
    ms[|SystemRun(ms)|..]
  }

  /** Python's slice index `-k` on a sequence of length `n`, zero and negative `k` included. */
  function FromEnd(n: nat, k: int): (i: nat)
    ensures i <= n
  {
    if k > 0 then (if k <= n then n - k else 0)
    else if -k <= n then -k else n
  }

  function Summary(middle: seq<Message>, summarize: Summarizer): Message {
    Message(System, [Text(summarize(middle))])
  }

  predicate Fires(ms: seq<Message>, keep: int) {
    ms != [] && |Rest(ms)| > keep
  }

  function Recent(ms: seq<Message>, keep: int): seq<Message> {
    Rest(ms)[FromEnd(|Rest(ms)|, keep)..]
  }

  function Compacted(ms: seq<Message>, keep: int, summarize: Summarizer): seq<Message> {
    if !Fires(ms, keep) then ms
    else
      var middle := Rest(ms)[..FromEnd(|Rest(ms)|, keep)];
      SystemRun(ms) + [Summary(middle, summarize)] + Recent(ms, keep)
  }

  /** `compact` on the stored messages, None when the session is not in the store. */
  method Compact(stored: Option<seq<Message>>, keep: int, summarize: Summarizer) returns (out: seq<Message>)
    ensures out == if stored.None? then [] else Compacted(stored.value, keep, summarize)
  {
    if stored.None? || stored.value == [] {
      return [];
    }
    var msgs := stored.value;
    var systemMsgs := [];
    var i := 0;
    while i < |msgs| && msgs[i].role == System
      invariant 0 <= i <= |msgs| && systemMsgs == msgs[..i]
      invariant forall j :: 0 <= j < i ==> msgs[j].role == System
    {
      systemMsgs := systemMsgs + [msgs[i]];
      i := i + 1;
    }
    RunIs(msgs, i);
    var rest := msgs[i..];
    if |rest| <= keep {
      return msgs;
    }
    var cut := FromEnd(|rest|, keep);
    var recent := rest[cut..];
    var middle := rest[..cut];
    out := systemMsgs + [Message(System, [Text(summarize(middle))])] + recent;
  }

  lemma {:induction false} RunIs(ms: seq<Message>, i: nat)
    requires i <= |ms| && forall j :: 0 <= j < i ==> ms[j].role == System
    requires i < |ms| ==> ms[i].role != System
    ensures SystemRun(ms) == ms[..i]
  {
    if i > 0 {
      RunIs(ms[1..], i - 1);
      assert ms[..i] == [ms[0]] + ms[1..][..i - 1];
    }
  }

  // ---- length -------------------------------------------------------------------------------

  /** Compaction lengthens the history only with a `keep_recent` of zero, or a negative one on
      a history of system messages alone; with at least 1 it never does. */
  lemma LengthensIff(ms: seq<Message>, keep: int, summarize: Summarizer)
    ensures |Compacted(ms, keep, summarize)| > |ms| <==>
            ms != [] && ((keep == 0 && Rest(ms) != []) || (keep < 0 && Rest(ms) == []))
  {
  }

  // ---- keep_recent at least 1 ----------------------------------------------------------------

  /** When it fires: the system run, one summary, the last `keep` messages. */
  lemma CompactedShape(ms: seq<Message>, keep: nat, summarize: Summarizer)
    requires keep >= 1 && Fires(ms, keep)
    ensures var out := Compacted(ms, keep, summarize); var n := |SystemRun(ms)|;
            && |out| == n + 1 + keep <= |ms|
            && out[..n] == ms[..n]
            && out[n].role == System
            && out[n + 1..] == ms[|ms| - keep..]
  {
    hide SystemRun, Recent;
    RecentIs(ms, keep);
    var run, recent := SystemRun(ms), Recent(ms, keep);
    var summary := Summary(Rest(ms)[..FromEnd(|Rest(ms)|, keep)], summarize);
    assert (run + [summary] + recent)[..|run|] == run;
    assert (run + [summary] + recent)[|run| + 1..] == recent;
  }

  lemma RecentIs(ms: seq<Message>, keep: nat)
    requires keep >= 1 && Fires(ms, keep)
    ensures keep <= |ms| && Recent(ms, keep) == ms[|ms| - keep..]
  {
    hide SystemRun;
  }

  lemma {:induction false} RunOver(a: seq<Message>, b: seq<Message>)
    requires forall i :: 0 <= i < |a| ==> a[i].role == System
    ensures |SystemRun(a + b)| >= |a|
  {
    if a == [] {
      assert a + b == b;
    } else {
      assert (a + b)[1..] == a[1..] + b;
      RunOver(a[1..], b);
    }
  }

  /** Compacting what compaction stored changes nothing more, whatever the summarizer. */
  lemma CompactedTwice(ms: seq<Message>, keep: nat, first: Summarizer, second: Summarizer)
    requires keep >= 1
    ensures Compacted(Compacted(ms, keep, first), keep, second) == Compacted(ms, keep, first)
  {
    if Fires(ms, keep) {
      var middle := Rest(ms)[..FromEnd(|Rest(ms)|, keep)];
      RunOver(SystemRun(ms) + [Summary(middle, first)], Recent(ms, keep));
    }
  }

  /** A well-paired history stays so exactly when the cut is not between a call and its answer. */
  lemma CompactionKeepsPairsIff(ms: seq<Message>, keep: nat, summarize: Summarizer)
    requires keep >= 1 && WellPaired(ms) && Fires(ms, keep)
    ensures WellPaired(Compacted(ms, keep, summarize)) <==> ms[|ms| - keep].role != ToolRole
  {
    hide SystemRun, Recent, WellPaired, Fires;
    RecentIs(ms, keep);
    var head := SystemRun(ms) + [Summary(Rest(ms)[..FromEnd(|Rest(ms)|, keep)], summarize)];
    var recent := ms[|ms| - keep..];
    if recent[0].role == ToolRole {
      ToolAfterSystem(head, recent);
    } else {
      SuffixPaired(ms, |ms| - keep);
      SystemsBeforePaired(head, recent);
    }
  }

  lemma ToolAfterSystem(a: seq<Message>, b: seq<Message>)
    requires a != [] && a[|a| - 1].role == System && b != [] && b[0].role == ToolRole
    ensures !WellPaired(a + b)
  {
    assert !Placed(a + b, |a|);
  }
}
