/** A turn whose permission resolver is the bridge's: every tool it enters has a grant of its own. */
module BridgedTurns {
  import opened BridgeModel
  import opened BridgeSystem
  import BridgePermissions
  import T = TurnModel
  import TurnEvents

  /** Step t of the run appends a grant for this tool. */
  predicate GrantedAt(states: seq<State>, steps: seq<Step>, t: nat, tool: Tool) {
    && |states| == |steps| + 1 && t < |steps|
    && var before, after := states[t].past.grants, states[t + 1].past.grants;
       |after| == |before| + 1 && after[..|before|] == before && after[|before|].tool == tool
  }

  predicate ClearedCall(w: T.World, i: nat, k: nat) {
    k < |T.CallsAt(w, i)| && T.Cleared(T.CallsAt(w, i)[k], w.rounds(i).answers(k), w.tools)
  }

  /** The turn's resolver is the bridge's: each verdict `allow` comes from its own step of the bridge, one
      that grants the call's tool. */
  ghost predicate ResolvedByBridge(w: T.World, n: nat, states: seq<State>, steps: seq<Step>, at: (nat, nat) -> nat) {
    && (forall i: nat, k: nat :: i < n && ClearedCall(w, i, k) ==>
          GrantedAt(states, steps, at(i, k), T.CallsAt(w, i)[k].name))
    && (forall i: nat, k: nat, j: nat, l: nat ::
          (i < n && j < n && ClearedCall(w, i, k) && ClearedCall(w, j, l) && (i, k) != (j, l)) ==>
            at(i, k) != at(j, l))
  }

  lemma {:induction false} GrantsGrow(states: seq<State>, steps: seq<Step>, j: nat, k: nat)
    requires IsRun(states, steps) && j <= k < |states|
    ensures |states[j].past.grants| <= |states[k].past.grants|
    decreases k - j
  {
    hide Next, Enabled, BridgePermissions.Justified;
    if j < k {
      GrantsGrow(states, steps, j, k - 1);
      BridgePermissions.GrantsRestOnAnswers(states, steps, k - 1);
    }
  }

  /** Which grant of the run's list the call got. */
  function GrantOf(states: seq<State>, t: nat): nat
    requires t < |states|
  {
    |states[t].past.grants|
  }

  /** A tool the turn enters was granted to that very call: by the client's answer to an ask for that
      tool, or by an earlier allow_always for it. */
  lemma ExecutionsAreGranted(w: T.World, n: nat, e: T.Call, states: seq<State>, steps: seq<Step>, at: (nat, nat) -> nat)
    requires IsRun(states, steps) && ResolvedByBridge(w, n, states, steps, at)
    requires e in T.AllExecutions(w, n)
    ensures exists i: nat, k: nat ::
              && i < n && TurnEvents.RanAs(w, i, k, e)
              && GrantedAt(states, steps, at(i, k), e.name)
              && BridgePermissions.Justified(
                states[at(i, k)], states[at(i, k) + 1].past.grants[GrantOf(states, at(i, k))])
  {
    TurnEvents.OnlyAllowedCallsRun(w, n, e);
    var i :| 0 <= i < n && TurnEvents.RanIn(w, i, e);
    var k :| 0 <= k < |T.CallsAt(w, i)| && TurnEvents.RanAs(w, i, k, e);
    assert ClearedCall(w, i, k);
    BridgePermissions.GrantsRestOnAnswers(states, steps, at(i, k));
  }

  /** Two calls never share a grant. */
  lemma GrantsAreOwn(w: T.World, n: nat, states: seq<State>, steps: seq<Step>, at: (nat, nat) -> nat,
                     i: nat, k: nat, j: nat, l: nat)
    requires IsRun(states, steps) && ResolvedByBridge(w, n, states, steps, at)
    requires i < n && j < n && ClearedCall(w, i, k) && ClearedCall(w, j, l) && (i, k) != (j, l)
    ensures GrantedAt(states, steps, at(i, k), T.CallsAt(w, i)[k].name)
    ensures GrantedAt(states, steps, at(j, l), T.CallsAt(w, j)[l].name)
    ensures GrantOf(states, at(i, k)) != GrantOf(states, at(j, l))
  {
    var first, second := if at(i, k) < at(j, l) then at(i, k) else at(j, l),
                         if at(i, k) < at(j, l) then at(j, l) else at(i, k);
    assert first < second;
    GrantsGrow(states, steps, first + 1, second);
  }
}
