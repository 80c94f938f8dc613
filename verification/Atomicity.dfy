/** The governed calls against the proof chain, and what an apply leaves behind
    when it is refused, aborted or enacted. */
module Atomicity {
  import opened Text
  import opened Facts
  import opened Ledger
  import opened LedgerRuns
  import opened Plans
  import opened Governance
  import opened GovernanceFrames
  import opened GovernanceRuns
  import opened GovernanceSafety

  // -------------------------------------------------- the chain under governance

  /** A sound store whose counters have only moved forward. */
  ghost predicate Later(w: World, key: string, before: Store, s: Store) {
    Sound(w, key, s) && Forward(before, s)
  }

  ghost predicate Keyed(key: string, sess: Session) {
    IdentityKey(sess).Some? ==> IdentityKey(sess).value == key
  }

  lemma SealLater(w: World, key: string, sess: Session, before: Store, g: Gov, id: string, body: Body, nonce: string)
    requires Later(w, key, before, g.store) && Keyed(key, sess)
    ensures Later(w, key, before, SealIn(w, sess, g, id, body, nonce).store)
  {
    SealSound(w, key, sess, GraphOf(g, Project(sess)), g.store, id, body, nonce);
    SealForward(w, Call(sess, GraphOf(g, Project(sess)), id, body, nonce), g.store);
  }

  lemma AbortLater(w: World, key: string, before: Gov, after: Store)
    requires Later(w, key, before.store, before.store) && Forward(before.store, after)
    ensures Later(w, key, before.store, Abort(before, after).gov.store)
  {
    RollbackSound(w, key, before.store, after);
  }

  lemma UpdateLater(w: World, key: string, sess: Session, before: Store, g: Gov, ref: Option<string>, patch: Option<seq<(string, Json)>>, nonce: string)
    requires Later(w, key, before, g.store) && Keyed(key, sess)
    ensures Later(w, key, before, UpdateTyped(w, sess, g, ref, patch, nonce).gov.store)
  {
    var r := RewriteOf(w, sess, g, ref, patch);
    if r.Rewrite? {
      SealLater(w, key, sess, before, g, r.id, r.body, nonce);
    }
  }

  lemma CascadeLater(w: World, key: string, sess: Session, before: Store, g: Gov, nonce: string)
    requires Later(w, key, before, g.store) && Keyed(key, sess)
    ensures var c := CascadePhase(w, sess, g, nonce);
      Later(w, key, before, if c.Advanced? then c.gov.store else c.store)
  {
    var project := Project(sess);
    var g1 := g.(cache := Bump(g.cache, project));
    var n := BumpedTo(g, project);
    var eb := CascadeEpoch(w, g, project, n);
    SealLater(w, key, sess, before, g1, EpochId(project, n), eb, nonce);
    var e := SealIn(w, sess, g1, EpochId(project, n), eb, nonce);
    if e.Sealed? {
      var g2 := Pin(g1.(store := e.store), project, Surface(w, g, project));
      SealLater(w, key, sess, before, g2, MatId(project, n), CascadeMat(w, g, project, n), nonce);
    }
  }

  lemma RegistrationsLater(w: World, key: string, sess: Session, before: Store, g: Gov, prop: Body, epoch: nat, nonce: string)
    requires Later(w, key, before, g.store) && Keyed(key, sess)
    ensures var a := AffordancePhase(w, sess, g, prop, epoch, nonce);
      Later(w, key, before, if a.Go? then a.gov.store else a.out.gov.store)
  {
    var project := Project(sess);
    var a := w.affordance(prop);
    if a.Some? {
      var (verb, plan) := a.value;
      var g1 := g.(cache := g.cache.(plans := g.cache.plans[PlanKey(project, verb, epoch) := plan]),
                   routes := g.routes[(project, verb) := epoch]);
      SealLater(w, key, sess, before, g1, AffordanceId(project, verb), AffordanceBody(project, verb, epoch), nonce);
    }
  }

  lemma ObligationStore(w: World, sess: Session, g: Gov, prop: Body, epoch: nat)
    ensures var o := ObligationPhase(w, sess, g, prop, epoch);
      (if o.Go? then o.gov.store else o.out.gov.store) == g.store
  {
  }

  lemma FinishLater(w: World, key: string, sess: Session, before: Gov, g: Gov, gate: Gate, prop: Body, epoch: nat, nonce: string)
    requires Later(w, key, before.store, before.store) && Later(w, key, before.store, g.store) && Keyed(key, sess) && gate.Admitted?
    ensures Later(w, key, before.store, Finish(w, sess, before, g, gate, prop, epoch, nonce).gov.store)
  {
    RegistrationsLater(w, key, sess, before.store, g, prop, epoch, nonce);
    var a := AffordancePhase(w, sess, g, prop, epoch, nonce);
    if a.Go? {
      ObligationStore(w, sess, a.gov, prop, epoch);
      var o := ObligationPhase(w, sess, a.gov, prop, epoch);
      if o.Go? {
        SealLater(w, key, sess, before.store, o.gov, gate.pid, AppliedBody(prop, epoch), nonce);
        AbortLater(w, key, before, SealIn(w, sess, o.gov, gate.pid, AppliedBody(prop, epoch), nonce).store);
      }
    }
  }

  lemma PolicyLater(w: World, key: string, sess: Session, before: Store, g: Gov, prop: Body, nonce: string)
    requires Later(w, key, before, g.store) && Keyed(key, sess)
    ensures var p := PolicyPhase(w, sess, g, prop, nonce);
      Later(w, key, before, if p.Go? then p.gov.store else p.out.gov.store)
  {
    var field, value := Nested(w, prop, "proposalDetail", "field"), Detail(prop, "value");
    PolicyStores(w, sess, g, prop, nonce);
    if field.Some? && value.Some? {
      KernelRowLater(w, key, sess, before, g, Some([(CORE + field.value, value.value)]), nonce);
    }
  }

  /** A policy phase leaves the store alone or as its patch left it. */
  lemma PolicyStores(w: World, sess: Session, g: Gov, prop: Body, nonce: string)
    ensures var p := PolicyPhase(w, sess, g, prop, nonce);
      var store := if p.Go? then p.gov.store else p.out.gov.store;
      var field, value := Nested(w, prop, "proposalDetail", "field"), Detail(prop, "value");
      store == g.store || (field.Some? && value.Some? && store ==
        UpdateTyped(w, sess, g, Some(KernelRowIri(Project(sess))), Some([(CORE + field.value, value.value)]), nonce).gov.store)
  {
  }

  lemma KernelRowLater(w: World, key: string, sess: Session, before: Store, g: Gov, patch: Option<seq<(string, Json)>>, nonce: string)
    requires Later(w, key, before, g.store) && Keyed(key, sess)
    ensures Later(w, key, before, UpdateTyped(w, sess, g, Some(KernelRowIri(Project(sess))), patch, nonce).gov.store)
  {
    UpdateLater(w, key, sess, before, g, Some(KernelRowIri(Project(sess))), patch, nonce);
  }

  lemma EnactLater(w: World, key: string, sess: Session, g: Gov, gate: Gate, nonce: string)
    requires Later(w, key, g.store, g.store) && Keyed(key, sess) && gate.Admitted? && gate.pid in g.store.instances
    ensures Later(w, key, g.store, Enact(w, sess, g, gate, nonce).gov.store)
  {
    var prop := g.store.instances[gate.pid];
    var a := GraphPhase(w, Project(sess), g, prop);
    assert Rollback(g.store, g.store) == g.store;
    if a.Go? {
      PolicyLater(w, key, sess, g.store, a.gov, prop, nonce);
      var p := PolicyPhase(w, sess, a.gov, prop, nonce);
      if p.Go? {
        CascadeLater(w, key, sess, g.store, p.gov, nonce);
        var c := CascadePhase(w, sess, p.gov, nonce);
        if c.Advanced? {
          FinishLater(w, key, sess, g, c.gov, gate, prop, c.epoch, nonce);
        } else {
          AbortLater(w, key, g, c.store);
        }
      }
    }
  }

  lemma CarryOutLater(w: World, key: string, sess: Session, g: Gov, id: string, i: Intent, nonce: string)
    requires Later(w, key, g.store, g.store) && Keyed(key, sess)
    ensures Later(w, key, g.store, CarryOut(w, sess, g, id, i, nonce).gov.store)
  {
    if i.Write? {
      SealLater(w, key, sess, g.store, g, id, i.body, nonce);
      AbortLater(w, key, g, SealIn(w, sess, g, id, i.body, nonce).store);
    } else {
      AbortLater(w, key, g, g.store);
    }
  }

  lemma ApplySound(w: World, key: string, sess: Session, g: Gov, about: Option<string>, nonce: string)
    requires Sound(w, key, g.store) && Keyed(key, sess)
    ensures Sound(w, key, Apply(w, sess, g, about, nonce).gov.store)
  {
    var gate := ApplyGate(w, sess, g, about);
    if gate.Admitted? {
      EnactLater(w, key, sess, g, gate, nonce);
    } else {
      AbortLater(w, key, g, g.store);
    }
  }

  /** Every governed call, however it ends, keeps the proof chain sound. */
  lemma ActSound(w: World, key: string, g: Gov, a: Act)
    requires Sound(w, key, g.store) && (a.PlanRun? || Keyed(key, a.sess))
    ensures Sound(w, key, After(w, g, a).store)
  {
    match a
    case Propose(sess, urn, payload, tick, nonce) =>
      CarryOutLater(w, key, sess, g, ProposalId(tick), ProposeIntent(w, urn, payload, tick), nonce);
    case Vote(sess, about, value, tick, nonce) =>
      CarryOutLater(w, key, sess, g, VoteId(tick), VoteIntent(w, g.store, about, value, tick), nonce);
    case Enaction(sess, about, nonce) =>
      ApplySound(w, key, sess, g, about, nonce);
    case Update(sess, ref, patch, nonce) => UpdateLater(w, key, sess, g.store, g, ref, patch, nonce);
    case SealRow(sess, id, body, nonce) => CarryOutLater(w, key, sess, g, id, Write(body), nonce);
    case PlanRun(kernel, verb) =>
  }

  /** After any governed run under one key, every stored instance verifies. */
  lemma {:induction false} GovernedRunVerifies(w: World, key: string, g: Gov, acts: seq<Act>)
    requires Sound(w, key, g.store) && key != ""
    requires forall i :: 0 <= i < |acts| ==> acts[i].PlanRun? || Keyed(key, acts[i].sess)
    ensures var s := RunTo(w, g, acts).store;
      Sound(w, key, s) && forall id :: id in s.instances ==> Verify(w, Some(key), s, id)
    decreases |acts|
  {
    if acts == [] {
      SoundVerifies(w, key, g.store);
    } else {
      ActSound(w, key, g, acts[0]);
      GovernedRunVerifies(w, key, After(w, g, acts[0]), acts[1..]);
    }
  }

  // ------------------------------------------------------------------ atomicity

  /** Same tables, graphs, epochs, plans and registries; counters may differ. */
  ghost predicate SameContents(g: Gov, g': Gov) {
    g' == g.(store := Rollback(g.store, g'.store))
  }

  /** Refusals issued after the cascade, by the registration handlers. */
  predicate Registration(code: Code) { code == AffordanceFailed || code == ObligationFailed }

  lemma SealRaised(w: World, sess: Session, g: Gov, id: string, body: Body, nonce: string)
    ensures var r := SealIn(w, sess, g, id, body, nonce);
      r.Raised? ==> r.store == Rollback(g.store, r.store)
  {
  }

  lemma UpdateRefusedSame(w: World, sess: Session, g: Gov, ref: Option<string>, patch: Option<seq<(string, Json)>>, nonce: string)
    ensures var r := UpdateTyped(w, sess, g, ref, patch, nonce); r.reply.Refused? ==> SameContents(g, r.gov)
  {
    var r := RewriteOf(w, sess, g, ref, patch);
    if r.Rewrite? {
      SealRaised(w, sess, g, r.id, r.body, nonce);
    }
  }

  lemma PolicyRefusedSame(w: World, sess: Session, g: Gov, prop: Body, nonce: string)
    ensures var p := PolicyPhase(w, sess, g, prop, nonce); p.Halt? ==> SameContents(g, p.out.gov) && p.out.reply.Refused?
  {
    var field, value := Nested(w, prop, "proposalDetail", "field"), Detail(prop, "value");
    if field.Some? && value.Some? {
      KernelRowRefused(w, sess, g, Some([(CORE + field.value, value.value)]), nonce);
    }
  }

  lemma KernelRowRefused(w: World, sess: Session, g: Gov, patch: Option<seq<(string, Json)>>, nonce: string)
    ensures var r := UpdateTyped(w, sess, g, Some(KernelRowIri(Project(sess))), patch, nonce);
      (r.reply.Done? || r.reply.Refused?) && (!r.reply.Done? ==> SameContents(g, r.gov))
  {
    UpdateRefusedSame(w, sess, g, Some(KernelRowIri(Project(sess))), patch, nonce);
  }

  /** A refused registration leaves exactly what the cascade left. */
  lemma FinishContents(w: World, sess: Session, before: Gov, g: Gov, gate: Gate, prop: Body, epoch: nat, nonce: string)
    requires gate.Admitted?
    ensures var r := Finish(w, sess, before, g, gate, prop, epoch, nonce);
      && (r.reply.Aborted? ==> SameContents(before, r.gov))
      && (r.reply.Refused? ==> Registration(r.reply.code) && SameContents(g, r.gov))
      && (r.reply.Aborted? || r.reply.Refused? || r.reply.Enacted?)
  {
    var project := Project(sess);
    var ea := w.affordance(prop);
    if ea.Some? {
      var (verb, plan) := ea.value;
      var g1 := g.(cache := g.cache.(plans := g.cache.plans[PlanKey(project, verb, epoch) := plan]),
                   routes := g.routes[(project, verb) := epoch]);
      SealRaised(w, sess, g1, AffordanceId(project, verb), AffordanceBody(project, verb, epoch), nonce);
    }
    assert "add_affordance" != "add_proof_obligation";
  }

  /** The mid-point of an apply: graph and policy done, cascade not yet begun. */
  function MidPoint(w: World, sess: Session, g: Gov, prop: Body, nonce: string): Option<Gov> {
    var a := GraphPhase(w, Project(sess), g, prop);
    if a.Halt? then None
    else
      var p := PolicyPhase(w, sess, a.gov, prop, nonce);
      if p.Halt? then None else Some(p.gov)
  }

  /** A kernel policy carries no Turtle of its own. */
  predicate PolicyProjectsNothing(w: World, prop: Body) {
    Field(w, prop, PROPOSAL_OP) == Some("set_kernel_policy") ==> w.opToTtl(prop).NoTtl?
  }

  lemma PolicyCodes(w: World, sess: Session, g: Gov, prop: Body, nonce: string)
    ensures var p := PolicyPhase(w, sess, g, prop, nonce);
      p.Halt? ==>
        && Field(w, prop, PROPOSAL_OP) == Some("set_kernel_policy")
        && p.out.reply.Refused? && (p.out.reply.code == InvalidPatch || p.out.reply.code == PolicyRefused)
  {
  }

  lemma BeforeCascade(w: World, sess: Session, g: Gov, gate: Gate, nonce: string)
    requires gate.Admitted? && gate.pid in g.store.instances
    ensures var prop := g.store.instances[gate.pid];
      var mid := MidPoint(w, sess, g, prop, nonce);
      var r := Enact(w, sess, g, gate, nonce);
      && (mid.Some? ==> r == AfterPolicy(w, sess, g, mid.value, gate, nonce))
      && (mid.None? ==>
           && (r.reply.Aborted? || r.reply.Refused?)
           && (r.reply.Aborted? ==> SameContents(g, r.gov))
           && (r.reply.Refused? ==> !Registration(r.reply.code))
           && (PolicyProjectsNothing(w, prop) ==> SameContents(g, r.gov)))
  {
    var prop := g.store.instances[gate.pid];
    var a := GraphPhase(w, Project(sess), g, prop);
    assert Rollback(g.store, g.store) == g.store;
    if a.Go? {
      PolicyRefusedSame(w, sess, a.gov, prop, nonce);
      PolicyCodes(w, sess, a.gov, prop, nonce);
    }
  }

  lemma AfterPolicyContents(w: World, sess: Session, g: Gov, mid: Gov, gate: Gate, nonce: string)
    requires gate.Admitted? && gate.pid in g.store.instances
    ensures var r := AfterPolicy(w, sess, g, mid, gate, nonce);
      var c := CascadePhase(w, sess, mid, nonce);
      && (r.reply.Aborted? ==> SameContents(g, r.gov))
      && (r.reply.Refused? ==> c.Advanced? && Registration(r.reply.code) && SameContents(c.gov, r.gov))
  {
    var c := CascadePhase(w, sess, mid, nonce);
    if c.Advanced? {
      FinishContents(w, sess, g, c.gov, gate, g.store.instances[gate.pid], c.epoch, nonce);
    }
  }

  /** Whatever does not enact a proposal leaves its row alone. */
  lemma RefusedKeepsProposal(w: World, sess: Session, g: Gov, about: Option<string>, nonce: string)
    requires WorldOk(w) && GovWf(w, g)
    requires ApplyGate(w, sess, g, about).Admitted? && !Apply(w, sess, g, about, nonce).reply.Enacted?
    ensures var pid := ApplyGate(w, sess, g, about).pid; Get(Apply(w, sess, g, about, nonce).gov.store, pid) == Get(g.store, pid)
  {
    var pid := ApplyGate(w, sess, g, about).pid;
    assert RowWf(w, pid, g.store.instances[pid]);
    ApplyEffect(w, sess, g, about, nonce, pid);
  }
}
