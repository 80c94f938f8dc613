/** Exactly when an apply that does not succeed leaves something behind: the
    registration refusals, told from the proposal before the call. */
module Refusals {
  import opened Text
  import opened Facts
  import opened Ledger
  import opened Plans
  import opened Governance
  import opened GovernanceRuns
  import opened Atomicity

  // ------------------------------------------------- what fails, before the call

  /** A seal raises or not whatever the tables hold. */
  predicate SealFails(w: World, sess: Session, graph: Graph, id: string, body: Body, nonce: string) {
    var t, key := Field(w, body, "type"), IdentityKey(sess);
    || t.None? || key.None?
    || (var b := Canonical(w, sess, body, nonce);
        || !(w.required(graph, t.value) <= b.Keys)
        || !w.coreOk(LedgerOp(id, Sha(w, b), w.hmac(Sha(w, b), key.value)))
        || !w.coreOk(ProofOp(id, Sha(w, b))))
  }

  lemma SealFailsExactly(w: World, sess: Session, g: Gov, id: string, body: Body, nonce: string)
    ensures SealIn(w, sess, g, id, body, nonce).Raised? <==> SealFails(w, sess, GraphOf(g, Project(sess)), id, body, nonce)
  {
  }

  /** The sealed Epoch or Materialization of the next epoch would be refused. */
  predicate CascadeFails(w: World, sess: Session, g: Gov, nonce: string) {
    var p := Project(sess);
    var n := BumpedTo(g, p);
    || SealFails(w, sess, GraphOf(g, p), EpochId(p, n), CascadeEpoch(w, g, p, n), nonce)
    || SealFails(w, sess, GraphOf(g, p), MatId(p, n), CascadeMat(w, g, p, n), nonce)
  }

  lemma CascadeFailsExactly(w: World, sess: Session, g: Gov, nonce: string)
    ensures CascadePhase(w, sess, g, nonce).CascadeRaised? <==> CascadeFails(w, sess, g, nonce)
  {
    var p := Project(sess);
    var n := BumpedTo(g, p);
    var g1 := g.(cache := Bump(g.cache, p));
    SealFailsExactly(w, sess, g1, EpochId(p, n), CascadeEpoch(w, g, p, n), nonce);
    var e := SealIn(w, sess, g1, EpochId(p, n), CascadeEpoch(w, g, p, n), nonce);
    if e.Sealed? {
      var g2 := Pin(g1.(store := e.store), p, Surface(w, g, p));
      SealFailsExactly(w, sess, g2, MatId(p, n), CascadeMat(w, g, p, n), nonce);
    }
  }

  predicate AddsAffordance(w: World, prop: Body) {
    Field(w, prop, PROPOSAL_OP) == Some("add_affordance") && Detail(prop, "query").Some?
  }

  predicate AddsObligation(w: World, prop: Body) {
    Field(w, prop, PROPOSAL_OP) == Some("add_proof_obligation")
  }

  /** The proposed affordance does not validate, or its declaration would not seal. */
  predicate AffordanceFails(w: World, sess: Session, graph: Graph, prop: Body, epoch: nat, nonce: string) {
    var p, a := Project(sess), w.affordance(prop);
    && AddsAffordance(w, prop)
    && (a.None? || SealFails(w, sess, graph, AffordanceId(p, a.value.0), AffordanceBody(p, a.value.0, epoch), nonce))
  }

  /** The proposed obligation does not validate, or retires one that is not there. */
  predicate ObligationFails(w: World, sess: Session, held: map<(string, string), Obligation>, prop: Body, epoch: nat) {
    var o := w.obligation(prop, epoch);
    && AddsObligation(w, prop)
    && (o.None? || (!o.value.1.active && (Project(sess), o.value.0) !in held))
  }

  predicate RegistrationFails(w: World, sess: Session, graph: Graph, held: map<(string, string), Obligation>, prop: Body, epoch: nat, nonce: string) {
    AffordanceFails(w, sess, graph, prop, epoch, nonce) || ObligationFails(w, sess, held, prop, epoch)
  }

  /** An admitted proposal whose apply is refused with its cascade committed: the
      graph phase and the cascade go through, the registration does not. Everything
      here is known before the call. */
  predicate KeepsCascade(w: World, sess: Session, g: Gov, prop: Body, nonce: string) {
    var p := Project(sess);
    var a := GraphPhase(w, p, g, prop);
    && a.Go? && !CascadeFails(w, sess, a.gov, nonce)
    && RegistrationFails(w, sess, GraphOf(a.gov, p), g.obligations, prop, BumpedTo(g, p), nonce)
  }

  /** A kernel policy with Turtle of its own whose patch is refused: the graph phase
      has already been folded in. */
  predicate KeepsGraph(w: World, sess: Session, g: Gov, prop: Body, nonce: string) {
    var a := GraphPhase(w, Project(sess), g, prop);
    a.Go? && a.gov.graphs != g.graphs && PolicyPhase(w, sess, a.gov, prop, nonce).Halt?
  }

  // ------------------------------------------------------------ phase by phase

  lemma AffordanceHalts(w: World, sess: Session, g: Gov, prop: Body, epoch: nat, nonce: string)
    ensures AffordancePhase(w, sess, g, prop, epoch, nonce).Halt?
       <==> AffordanceFails(w, sess, GraphOf(g, Project(sess)), prop, epoch, nonce)
  {
    var p, a := Project(sess), w.affordance(prop);
    if AddsAffordance(w, prop) && a.Some? {
      var (verb, plan) := a.value;
      var g1 := g.(cache := g.cache.(plans := g.cache.plans[PlanKey(p, verb, epoch) := plan]),
                   routes := g.routes[(p, verb) := epoch]);
      SealFailsExactly(w, sess, g1, AffordanceId(p, verb), AffordanceBody(p, verb, epoch), nonce);
    }
  }

  lemma ObligationHalts(w: World, sess: Session, g: Gov, prop: Body, epoch: nat)
    ensures ObligationPhase(w, sess, g, prop, epoch).Halt? <==> ObligationFails(w, sess, g.obligations, prop, epoch)
  {
  }

  /** An affordance phase that goes on leaves the obligations alone. */
  lemma AffordanceKeepsHeld(w: World, sess: Session, g: Gov, prop: Body, epoch: nat, nonce: string)
    ensures var a := AffordancePhase(w, sess, g, prop, epoch, nonce); a.Go? ==> a.gov.obligations == g.obligations
  {
  }

  /** After the cascade, the call is refused exactly when the registration fails. */
  lemma FinishRefusedExactly(w: World, sess: Session, before: Gov, g: Gov, gate: Gate, prop: Body, epoch: nat, nonce: string)
    requires gate.Admitted?
    ensures Finish(w, sess, before, g, gate, prop, epoch, nonce).reply.Refused?
       <==> RegistrationFails(w, sess, GraphOf(g, Project(sess)), g.obligations, prop, epoch, nonce)
  {
    AffordanceHalts(w, sess, g, prop, epoch, nonce);
    FinishContents(w, sess, before, g, gate, prop, epoch, nonce);
    var a := AffordancePhase(w, sess, g, prop, epoch, nonce);
    if a.Go? {
      AffordanceKeepsHeld(w, sess, g, prop, epoch, nonce);
      ObligationHalts(w, sess, a.gov, prop, epoch);
    }
  }

  // ------------------------------------------------------------- the whole call

  /** A committed cascade is never nothing. */
  lemma CascadeMoves(w: World, sess: Session, g: Gov, nonce: string)
    requires CascadePhase(w, sess, g, nonce).Advanced?
    ensures var c := CascadePhase(w, sess, g, nonce);
      && c.epoch == BumpedTo(g, Project(sess)) && c.gov.graphs == g.graphs && c.gov.obligations == g.obligations
      && LiveEpoch(c.gov, Project(sess)) == c.epoch > LiveEpoch(g, Project(sess))
  {
    CascadeRows(w, sess, g, nonce, "");
  }

  lemma GraphPhaseShape(w: World, project: string, g: Gov, prop: Body)
    ensures var a := GraphPhase(w, project, g, prop);
      && (a.Go? ==> a.gov == g.(graphs := a.gov.graphs))
      && (a.Halt? ==> (a.out.reply.Refused? || a.out.reply.Aborted?) && SameContents(g, a.out.gov))
  {
    assert Rollback(g.store, g.store) == g.store;
  }

  /** No registration is asked for by a kernel policy. */
  lemma PolicyRegistersNothing(w: World, sess: Session, graph: Graph, held: map<(string, string), Obligation>, prop: Body, epoch: nat, nonce: string)
    requires RegistrationFails(w, sess, graph, held, prop, epoch, nonce)
    ensures Field(w, prop, PROPOSAL_OP) != Some("set_kernel_policy")
  {
    assert "set_kernel_policy" != "add_affordance" && "set_kernel_policy" != "add_proof_obligation";
  }

  /** After the graph phase, where the policy phase has nothing to do. */
  lemma NoPolicyExactly(w: World, sess: Session, g: Gov, mid: Gov, gate: Gate, nonce: string)
    requires gate.Admitted? && gate.pid in g.store.instances && mid == g.(graphs := mid.graphs)
    ensures var r := AfterPolicy(w, sess, g, mid, gate, nonce);
      var prop, p := g.store.instances[gate.pid], Project(sess);
      var kept := !CascadeFails(w, sess, mid, nonce) && RegistrationFails(w, sess, GraphOf(mid, p), g.obligations, prop, BumpedTo(g, p), nonce);
      && (r.reply.Refused? <==> kept)
      && (!r.reply.Enacted? ==> (SameContents(g, r.gov) <==> !kept))
      && (kept ==> Registration(r.reply.code))
      && (kept ==> (var c := CascadePhase(w, sess, mid, nonce); c.Advanced? && SameContents(c.gov, r.gov)))
  {
    CascadeFailsExactly(w, sess, mid, nonce);
    AfterPolicyContents(w, sess, g, mid, gate, nonce);
    var c := CascadePhase(w, sess, mid, nonce);
    if c.Advanced? {
      CascadeMoves(w, sess, mid, nonce);
      FinishContents(w, sess, g, c.gov, gate, g.store.instances[gate.pid], c.epoch, nonce);
      FinishRefusedExactly(w, sess, g, c.gov, gate, g.store.instances[gate.pid], c.epoch, nonce);
    }
  }

  /** After a policy phase that went on: nothing is refused any more. */
  lemma PolicyExactly(w: World, sess: Session, g: Gov, mid: Gov, gate: Gate, nonce: string)
    requires gate.Admitted? && gate.pid in g.store.instances
    requires Field(w, g.store.instances[gate.pid], PROPOSAL_OP) == Some("set_kernel_policy")
    ensures var r := AfterPolicy(w, sess, g, mid, gate, nonce); r.reply.Enacted? || (r.reply.Aborted? && SameContents(g, r.gov))
  {
    var prop := g.store.instances[gate.pid];
    AfterPolicyContents(w, sess, g, mid, gate, nonce);
    var c := CascadePhase(w, sess, mid, nonce);
    if c.Advanced? {
      FinishContents(w, sess, g, c.gov, gate, prop, c.epoch, nonce);
      FinishRefusedExactly(w, sess, g, c.gov, gate, prop, c.epoch, nonce);
      if RegistrationFails(w, sess, GraphOf(c.gov, Project(sess)), c.gov.obligations, prop, c.epoch, nonce) {
        PolicyRegistersNothing(w, sess, GraphOf(c.gov, Project(sess)), c.gov.obligations, prop, c.epoch, nonce);
      }
    }
  }

  /** What an enactment that is not a success leaves. */
  ghost predicate LeftExactly(w: World, sess: Session, g: Gov, prop: Body, nonce: string, r: Outcome) {
    && (!r.reply.Enacted? ==> (SameContents(g, r.gov) <==> !KeepsCascade(w, sess, g, prop, nonce) && !KeepsGraph(w, sess, g, prop, nonce)))
    && (KeepsCascade(w, sess, g, prop, nonce) <==> r.reply.Refused? && Registration(r.reply.code))
    && (KeepsCascade(w, sess, g, prop, nonce) ==>
         (var a := GraphPhase(w, Project(sess), g, prop);
          a.Go? && (var c := CascadePhase(w, sess, a.gov, nonce); c.Advanced? && SameContents(c.gov, r.gov))))
  }

  lemma EnactExactly(w: World, sess: Session, g: Gov, gate: Gate, nonce: string)
    requires gate.Admitted? && gate.pid in g.store.instances
    ensures LeftExactly(w, sess, g, g.store.instances[gate.pid], nonce, Enact(w, sess, g, gate, nonce))
  {
    var prop, p := g.store.instances[gate.pid], Project(sess);
    GraphPhaseShape(w, p, g, prop);
    BeforeCascade(w, sess, g, gate, nonce);
    var a := GraphPhase(w, p, g, prop);
    if a.Go? {
      PolicyCodes(w, sess, a.gov, prop, nonce);
      PolicyRefusedSame(w, sess, a.gov, prop, nonce);
      if Field(w, prop, PROPOSAL_OP) == Some("set_kernel_policy") {
        if KeepsCascade(w, sess, g, prop, nonce) {
          PolicyRegistersNothing(w, sess, GraphOf(a.gov, p), g.obligations, prop, BumpedTo(g, p), nonce);
        }
        var q := PolicyPhase(w, sess, a.gov, prop, nonce);
        if q.Go? {
          PolicyExactly(w, sess, g, q.gov, gate, nonce);
        }
      } else {
        NoPolicyExactly(w, sess, g, a.gov, gate, nonce);
      }
    }
  }

  /** APPLY ATOMICITY, EXACTLY. An apply that does not succeed changes something if and
      only if its proposal was admitted and is one of two kinds, told before the call:
      a registration that fails after its cascade went through, which leaves exactly
      the cascade, or a refused policy whose op had also changed the kernel graph. */
  lemma ApplyExactly(w: World, sess: Session, g: Gov, about: Option<string>, nonce: string)
    ensures var r, gate := Apply(w, sess, g, about, nonce), ApplyGate(w, sess, g, about);
      if gate.Admitted? then gate.pid in g.store.instances && LeftExactly(w, sess, g, g.store.instances[gate.pid], nonce, r)
      else !r.reply.Enacted? && SameContents(g, r.gov)
  {
    var gate := ApplyGate(w, sess, g, about);
    assert Rollback(g.store, g.store) == g.store;
    if gate.Admitted? {
      EnactExactly(w, sess, g, gate, nonce);
    }
  }

  /** Every op that registers nothing, and carries no Turtle if it is a policy, is
      atomic: enacted, or nothing moved. */
  lemma OtherOpsAtomic(w: World, sess: Session, g: Gov, about: Option<string>, nonce: string)
    requires var gate := ApplyGate(w, sess, g, about);
      gate.Admitted? && gate.pid in g.store.instances ==>
        var prop := g.store.instances[gate.pid];
        !AddsAffordance(w, prop) && !AddsObligation(w, prop) && PolicyProjectsNothing(w, prop)
    ensures var r := Apply(w, sess, g, about, nonce); r.reply.Enacted? || SameContents(g, r.gov)
  {
    ApplyExactly(w, sess, g, about, nonce);
    var gate := ApplyGate(w, sess, g, about);
    if gate.Admitted? {
      NothingKept(w, sess, g, g.store.instances[gate.pid], nonce);
    }
  }

  lemma NothingKept(w: World, sess: Session, g: Gov, prop: Body, nonce: string)
    requires !AddsAffordance(w, prop) && !AddsObligation(w, prop) && PolicyProjectsNothing(w, prop)
    ensures !KeepsCascade(w, sess, g, prop, nonce) && !KeepsGraph(w, sess, g, prop, nonce)
  {
    var a := GraphPhase(w, Project(sess), g, prop);
    if a.Go? {
      PolicyCodes(w, sess, a.gov, prop, nonce);
    }
  }
}
