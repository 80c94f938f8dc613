/** The governed store from the empty database: what holds in every state that
    governed calls can reach. */
module Reachable {
  import opened Text
  import opened Facts
  import opened Ledger
  import opened LedgerRuns
  import opened Plans
  import opened Governance
  import opened GovernanceFrames
  import opened GovernanceSafety
  import opened Atomicity
  import opened EpochChain

  const START := Gov(EMPTY, map[], NOTHING, map[], map[])

  lemma StartHolds(w: World, key: string)
    ensures GovWf(w, START) && Chain(w, START) && Sound(w, key, START.store)
  {
    EmptyStart(w, key);
    forall project, n: nat ensures ChainAt(w, START, project, n) {
    }
  }

  /** Every reachable state: the proof chain is whole and every instance verifies,
      and every project's epoch history is one chain. */
  lemma EveryReachableState(w: World, key: string, acts: seq<Act>)
    requires WorldOk(w) && key != "" && AdmissibleRun(w, START, acts)
    requires forall i :: 0 <= i < |acts| ==> acts[i].PlanRun? || Keyed(key, acts[i].sess)
    ensures var g := RunTo(w, START, acts);
      && GovWf(w, g) && Chain(w, g) && Sound(w, key, g.store)
      && forall id :: id in g.store.instances ==> Verify(w, Some(key), g.store, id)
  {
    StartHolds(w, key);
    RunChain(w, START, acts);
    GovernedRunVerifies(w, key, START, acts);
  }

  /** From the empty database, a proposal that is applied was enacted once, from
      pending, by the declared owner where its target declares one, after at least
      as many distinct parties as its bar asks for had approving votes on it accepted
      under verified identities in this very run. */
  lemma AppliedNeedsVoters(w: World, acts: seq<Act>, pid: string) returns (i: nat, about: string)
    requires WorldOk(w) && AdmissibleRun(w, START, acts) && "proposal-" <= pid
    requires IsApplied(w, RunTo(w, START, acts).store, pid)
    ensures i < |acts| && acts[i].Enaction?
    ensures var at := RunTo(w, START, acts[..i]);
      && Permitted(w, at, acts[i].sess, pid)
      && Field(w, at.store.instances[pid], "@id") == Some(about)
      && |Voters(w, START, acts[..i], about)| >= Bar(w, at.store, Project(acts[i].sess), at.store.instances[pid])
  {
    StartHolds(w, "");
    i, about := AppliedWasGoverned(w, START, acts, pid);
    var at := RunTo(w, START, acts[..i]);
    assert Approvers(w, START.store, about) == {};
    assert Approvers(w, at.store, about) == Voters(w, START, acts[..i], about);
  }
}
