/** Hook dispatch: in order, the first denial decides, a halt ends the turn, a failing hook is
    passed over, and argument transforms merge on pre_* events only. */
module Hooks {
  import opened Prelude

  type Transform = map<string, string>

  datatype Decision = Decision(allow: bool, transform: Option<Transform>, reason: string)

  /** What one hook in the list does with the event. */
  datatype Answer =
    | NotSubscribed
    | Raises
    | Halts
    | Decides(decision: Decision)

  datatype Outcome = Decided(decision: Decision) | Halted

  const CONTINUE := Decision(true, None, "")

  // ---- meaning: the hook that ends the dispatch, and the transforms before it -----------------

  predicate Ends(a: Answer) {
    a.Halts? || (a.Decides? && !a.decision.allow)
  }

  function Transforms(answers: seq<Answer>): seq<Transform> {
    if answers == [] then []
    else
      Transforms(answers[..|answers| - 1]) + OwnTransform(answers[|answers| - 1])
  }

  /** Later transforms win, key by key. */
  function Merged(ts: seq<Transform>): Transform {
    if ts == [] then map[] else Merged(ts[..|ts| - 1]) + ts[|ts| - 1]
  }

  /** The dispatch reaches hook k: no earlier one ended it. */
  predicate Reaches(answers: seq<Answer>, k: nat)
    requires k <= |answers|
  {
    forall j :: 0 <= j < k ==> !Ends(answers[j])
  }

  function MergedTransform(ts: seq<Transform>, pre: bool): Option<Transform> {
    if pre && ts != [] then Some(Merged(ts)) else None
  }

  function AllowedDecision(answers: seq<Answer>, pre: bool): Decision {
    Decision(true, MergedTransform(Transforms(answers), pre), "")
  }

  function OwnTransform(a: Answer): seq<Transform> {
    if a.Decides? && a.decision.transform.Some? then [a.decision.transform.value] else []
  }

  lemma OneMoreAnswer(answers: seq<Answer>, k: nat)
    requires k < |answers|
    ensures Transforms(answers[..k + 1]) == Transforms(answers[..k]) + OwnTransform(answers[k])
  {
    assert answers[..k + 1][..k] == answers[..k];
  }

  lemma MergeOne(ts: seq<Transform>, t: Transform)
    ensures Merged(ts + [t]) == Merged(ts) + t
  {
    assert (ts + [t])[..|ts|] == ts;
  }

  /** The dispatch is decided by the first hook that denies or halts, whatever comes after it;
      without one, it allows and hands on the merged transforms of all hooks. */
  method Dispatch(answers: seq<Answer>, pre: bool) returns (o: Outcome)
    ensures forall k :: 0 <= k < |answers| && Ends(answers[k]) && Reaches(answers, k) ==>
              o == if answers[k].Halts? then Halted else Decided(answers[k].decision)
    ensures Reaches(answers, |answers|) ==> o == Decided(AllowedDecision(answers, pre))
  {
    var merged: Option<Transform> := None;
    ghost var ts: seq<Transform> := [];
    for k := 0 to |answers|
      invariant Reaches(answers, k)
      invariant ts == Transforms(answers[..k])
      invariant merged == MergedTransform(ts, pre)
    {
      OneMoreAnswer(answers, k);
      var a := answers[k];
      if a.NotSubscribed? {
        continue;
      }
      if a.Halts? {
        return Halted;
      }
      if a.Raises? {
        continue;
      }
      var decision := a.decision;
      if !decision.allow {
        return Decided(decision);
      }
      if decision.transform.Some? {
        merged := Keep(merged, decision.transform.value, pre, ts);
        ts := ts + [decision.transform.value];
      }
    }
    assert answers[..|answers|] == answers;
    o := Decided(Decision(true, merged, ""));
  }

  /** `transform` is only honoured on pre_* events. */
  method Keep(merged: Option<Transform>, t: Transform, pre: bool, ghost ts: seq<Transform>)
    returns (out: Option<Transform>)
    requires merged == MergedTransform(ts, pre)
    ensures out == MergedTransform(ts + [t], pre)
  {
    MergeOne(ts, t);
    if !pre {
      return merged;
    }
    if merged.None? {
      assert map[] + t == t;
      return Some(t);
    }
    out := Some(merged.value + t);
  }

  /** Which transform a key ends up with: the last hook that set it. */
  lemma {:induction false} LastTransformWins(ts: seq<Transform>, key: string)
    ensures key in Merged(ts) <==> exists j :: 0 <= j < |ts| && key in ts[j]
    ensures forall j :: 0 <= j < |ts| && key in ts[j] && (forall l :: j < l < |ts| ==> key !in ts[l]) ==>
              key in Merged(ts) && Merged(ts)[key] == ts[j][key]
  {
    if ts != [] {
      var n := |ts| - 1;
      LastTransformWins(ts[..n], key);
      assert forall j :: 0 <= j < n ==> ts[..n][j] == ts[j];
      if key in ts[n] {
        assert key in Merged(ts);
      }
    }
  }
}
