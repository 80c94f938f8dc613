/** Governance safety over whole runs: how a proposal becomes applied, who
    approved it, and that it happens at most once. */
module GovernanceRuns {
  import opened Text
  import opened Facts
  import opened Ledger
  import opened Plans
  import opened Governance
  import opened GovernanceFrames

  // ------------------------------------------------------------- apply, phase by phase

  /** Rows only `propose`, `vote` and the last seal of `apply` may write. */
  predicate Ballot(id: string) { "proposal-" <= id || "vote-" <= id }

  lemma GraphPhaseKeeps(w: World, project: string, g: Gov, prop: Body)
    requires GovWf(w, g)
    ensures var p := GraphPhase(w, project, g, prop);
      && (p.Go? ==> p.gov == g.(graphs := p.gov.graphs) && GovWf(w, p.gov))
      && (p.Halt? ==> GovWf(w, p.out.gov) && p.out.gov == g && !p.out.reply.Enacted?)
  {
    assert Rollback(g.store, g.store) == g.store;
  }

  lemma PolicyPhaseKeeps(w: World, sess: Session, g: Gov, prop: Body, nonce: string, x: string)
    requires WorldOk(w) && GovWf(w, g)
    ensures var p := PolicyPhase(w, sess, g, prop, nonce);
      && (p.Go? ==> GovWf(w, p.gov) && (Reserved(x) ==> Get(p.gov.store, x) == Get(g.store, x)) && p.gov == g.(store := p.gov.store))
      && (p.Halt? ==> GovWf(w, p.out.gov) && Get(p.out.gov.store, x) == Get(g.store, x) && !p.out.reply.Enacted?)
  {
    if Nested(w, prop, "proposalDetail", "field").Some? && Detail(prop, "value").Some? {
      var patch := Some([(CORE + Nested(w, prop, "proposalDetail", "field").value, Detail(prop, "value").value)]);
      KernelRowUpdate(w, sess, g, patch, nonce, x);
    }
  }

  lemma KernelRowUpdate(w: World, sess: Session, g: Gov, patch: Option<seq<(string, Json)>>, nonce: string, x: string)
    requires WorldOk(w) && GovWf(w, g)
    ensures var r := UpdateTyped(w, sess, g, Some(KernelRowIri(Project(sess))), patch, nonce);
      && GovWf(w, r.gov) && r.gov == g.(store := r.gov.store)
      && (Reserved(x) || !r.reply.Done? ==> Get(r.gov.store, x) == Get(g.store, x))
  {
    var ref := Some(KernelRowIri(Project(sess)));
    KernelRowUnreserved(w, g, Project(sess));
    UpdateRows(w, sess, g, ref, patch, nonce, x);
    UpdateWf(w, sess, g, ref, patch, nonce);
  }

  lemma EpochBodyWf(w: World, project: string, n: nat, surface: string, structural: string)
    ensures RowWf(w, EpochId(project, n), EpochBody(project, n, surface, structural))
  {
    assert EpochId(project, n) == ("epoch-" + project + "-") + Print(n);
    PrintEndsInDigit("epoch-" + project + "-", n);
    PrintEndsInDigit("urn:ckp:" + project + "/epoch/", n);
    assert EpochId(project, n)[0] == 'e';
  }

  lemma MatBodyWf(w: World, project: string, from: nat, n: nat, source: string, surface: string)
    ensures RowWf(w, MatId(project, n), MatBody(project, from, n, source, surface))
  {
    assert MatId(project, n) == ("mat-" + project + "-") + Print(n);
    PrintEndsInDigit("mat-" + project + "-", n);
    PrintEndsInDigit("urn:ckp:" + project + "/materialization/", n);
    assert MatId(project, n)[0] == 'm';
  }

  /** The two bodies the cascade seals at epoch `n`. */
  function CascadeEpoch(w: World, g: Gov, project: string, n: nat): Body {
    EpochBody(project, n, Surface(w, g, project), w.structuralDigest(w.composed(g.graphs, project)))
  }

  function CascadeMat(w: World, g: Gov, project: string, n: nat): Body {
    MatBody(project, LiveEpoch(g, project), n, Source(w, g, project), Surface(w, g, project))
  }

  function BumpedTo(g: Gov, project: string): nat {
    EpochOf(Bump(g.cache, project), project)
  }

  /** The cascade writes the Epoch row, the Materialization row, the epoch and
      its digest, the plans, and nothing else. */
  lemma CascadeRows(w: World, sess: Session, g: Gov, nonce: string, x: string)
    requires CascadePhase(w, sess, g, nonce).Advanced?
    ensures var project := Project(sess);
      var c := CascadePhase(w, sess, g, nonce);
      var n := BumpedTo(g, project);
      && c.epoch == n
      && c.gov.graphs == g.graphs && c.gov.routes == g.routes && c.gov.obligations == g.obligations
      && c.gov.cache == Pin(g.(cache := Bump(g.cache, project)), project, Surface(w, g, project)).cache
      && Get(c.gov.store, x) ==
           if x == MatId(project, n) then Some(Canonical(w, sess, CascadeMat(w, g, project, n), nonce))
           else if x == EpochId(project, n) then Some(Canonical(w, sess, CascadeEpoch(w, g, project, n), nonce))
           else Get(g.store, x)
  {
    var project := Project(sess);
    var g1 := g.(cache := Bump(g.cache, project));
    var n := BumpedTo(g, project);
    var e := SealIn(w, sess, g1, EpochId(project, n), CascadeEpoch(w, g, project, n), nonce);
    SealRows(w, sess, g1, EpochId(project, n), CascadeEpoch(w, g, project, n), nonce, x);
    var g2 := Pin(g1.(store := e.store), project, Surface(w, g, project));
    SealRows(w, sess, g2, MatId(project, n), CascadeMat(w, g, project, n), nonce, x);
  }

  lemma CascadeBallots(w: World, sess: Session, g: Gov, nonce: string, x: string)
    requires CascadePhase(w, sess, g, nonce).Advanced? && Ballot(x)
    ensures Get(CascadePhase(w, sess, g, nonce).gov.store, x) == Get(g.store, x)
  {
    CascadeRows(w, sess, g, nonce, x);
    var n := BumpedTo(g, Project(sess));
    assert MatId(Project(sess), n)[0] == 'm' && EpochId(Project(sess), n)[0] == 'e';
  }

  lemma CascadeWf(w: World, sess: Session, g: Gov, nonce: string)
    requires GovWf(w, g) && CascadePhase(w, sess, g, nonce).Advanced?
    ensures GovWf(w, CascadePhase(w, sess, g, nonce).gov)
  {
    var project := Project(sess);
    var g1 := g.(cache := Bump(g.cache, project));
    var n := BumpedTo(g, project);
    var eb, mb := CascadeEpoch(w, g, project, n), CascadeMat(w, g, project, n);
    EpochBodyWf(w, project, n, Surface(w, g, project), w.structuralDigest(w.composed(g.graphs, project)));
    CanonicalWf(w, sess, EpochId(project, n), eb, nonce);
    SealWf(w, sess, g1, EpochId(project, n), eb, nonce);
    var g2 := Pin(g1.(store := SealIn(w, sess, g1, EpochId(project, n), eb, nonce).store), project, Surface(w, g, project));
    MatBodyWf(w, project, LiveEpoch(g, project), n, Source(w, g, project), Surface(w, g, project));
    CanonicalWf(w, sess, MatId(project, n), mb, nonce);
    SealWf(w, sess, g2, MatId(project, n), mb, nonce);
  }

  lemma AffordanceOrdinary(w: World, project: string, verb: string, epoch: nat)
    ensures Ordinary(w, AffordanceId(project, verb), AffordanceBody(project, verb, epoch))
  {
    assert AffordanceId(project, verb)[0] == 'a';
  }

  /** Sealing an ordinary row leaves every reserved row alone. */
  lemma OrdinarySealKeeps(w: World, sess: Session, g: Gov, id: string, body: Body, nonce: string, x: string)
    requires GovWf(w, g) && Ordinary(w, id, body)
    ensures var r := SealIn(w, sess, g, id, body, nonce);
      && GovWf(w, g.(store := r.store))
      && (Reserved(x) || r.Raised? ==> Get(r.store, x) == Get(g.store, x))
  {
    OrdinaryWf(w, sess, id, body, nonce);
    SealWf(w, sess, g, id, body, nonce);
    SealRows(w, sess, g, id, body, nonce, x);
  }

  /** A registration phase, run or refused, leaves reserved rows and epochs alone;
      refused, it leaves everything alone. */
  ghost predicate Registers(w: World, g: Gov, p: Phase, x: string) {
    var g' := if p.Go? then p.gov else p.out.gov;
    && GovWf(w, g') && (Reserved(x) ==> Get(g'.store, x) == Get(g.store, x))
    && g'.graphs == g.graphs && g'.cache.epochs == g.cache.epochs
    && (p.Halt? ==> p.out.reply.Refused? && Get(g'.store, x) == Get(g.store, x) && g' == g.(store := g'.store))
  }

  lemma AffordancePhaseKeeps(w: World, sess: Session, g: Gov, prop: Body, epoch: nat, nonce: string, x: string)
    requires GovWf(w, g)
    ensures Registers(w, g, AffordancePhase(w, sess, g, prop, epoch, nonce), x)
  {
    var project := Project(sess);
    var a := w.affordance(prop);
    if a.Some? {
      var (verb, plan) := a.value;
      var g1 := g.(cache := g.cache.(plans := g.cache.plans[PlanKey(project, verb, epoch) := plan]),
                   routes := g.routes[(project, verb) := epoch]);
      AffordanceOrdinary(w, project, verb, epoch);
      SealRegisters(w, sess, g, g1, AffordanceId(project, verb), AffordanceBody(project, verb, epoch), nonce, x);
    }
  }

  lemma SealRegisters(w: World, sess: Session, g: Gov, g1: Gov, id: string, body: Body, nonce: string, x: string)
    requires GovWf(w, g) && Ordinary(w, id, body)
    requires g1.store == g.store && g1.graphs == g.graphs && g1.cache.epochs == g.cache.epochs
    ensures var r := SealIn(w, sess, g1, id, body, nonce);
      Registers(w, g, if r.Sealed? then Go(g1.(store := r.store)) else Halt(Outcome(g.(store := r.store), Refused(AffordanceFailed))), x)
  {
    OrdinarySealKeeps(w, sess, g1, id, body, nonce, x);
  }

  lemma ObligationPhaseKeeps(w: World, sess: Session, g: Gov, prop: Body, epoch: nat, x: string)
    requires GovWf(w, g)
    ensures Registers(w, g, ObligationPhase(w, sess, g, prop, epoch), x)
    ensures var p := ObligationPhase(w, sess, g, prop, epoch); p.Go? ==> p.gov == g.(obligations := p.gov.obligations)
  {
  }

  lemma AppliedWf(w: World, id: string, prop: Body, epoch: nat)
    requires RowWf(w, id, prop)
    ensures RowWf(w, id, AppliedBody(prop, epoch))
    ensures Field(w, AppliedBody(prop, epoch), PROPOSAL_STATE) == Some("applied")
    ensures Field(w, AppliedBody(prop, epoch), "@id") == Field(w, prop, "@id")
    ensures Field(w, AppliedBody(prop, epoch), APPLIED_EPOCH) == Some(Print(epoch))
  {
  }

  /** What `apply` may do to ballot rows: nothing, or move the one proposal. */
  ghost predicate BallotEffect(w: World, sess: Session, g: Gov, out: Outcome, nonce: string, x: string) {
    && GovWf(w, out.gov)
    && (Ballot(x) ==>
         || Get(out.gov.store, x) == Get(g.store, x)
         || (out.reply.Enacted? && x == out.reply.pid && x in g.store.instances))
    && (out.reply.Enacted? ==>
         && out.reply.pid in g.store.instances
         && Get(out.gov.store, out.reply.pid)
            == Some(Canonical(w, sess, AppliedBody(g.store.instances[out.reply.pid], out.reply.epoch), nonce)))
  }

  /** The last seal of an apply. */
  lemma AppliedSeal(w: World, sess: Session, before: Gov, g: Gov, pid: string, epoch: nat, nonce: string, x: string)
    requires GovWf(w, before) && GovWf(w, g)
    requires pid in before.store.instances && "proposal-" <= pid
    requires Ballot(x) ==> Get(g.store, x) == Get(before.store, x)
    ensures var body := AppliedBody(before.store.instances[pid], epoch);
      var r := SealIn(w, sess, g, pid, body, nonce);
      r.Sealed? ==>
        && GovWf(w, g.(store := r.store))
        && Get(r.store, pid) == Some(Canonical(w, sess, body, nonce))
        && (Ballot(x) && x != pid ==> Get(r.store, x) == Get(before.store, x))
  {
    var prop := before.store.instances[pid];
    assert RowWf(w, pid, prop);
    AppliedWf(w, pid, prop, epoch);
    CanonicalWf(w, sess, pid, AppliedBody(prop, epoch), nonce);
    SealWf(w, sess, g, pid, AppliedBody(prop, epoch), nonce);
    SealRows(w, sess, g, pid, AppliedBody(prop, epoch), nonce, x);
    SealRows(w, sess, g, pid, AppliedBody(prop, epoch), nonce, pid);
  }

  lemma AbortEffect(w: World, sess: Session, g: Gov, after: Store, nonce: string, x: string)
    requires GovWf(w, g)
    ensures BallotEffect(w, sess, g, Abort(g, after), nonce, x)
  {
  }

  lemma FinishEffect(w: World, sess: Session, before: Gov, g: Gov, gate: Gate, prop: Body, epoch: nat, nonce: string, x: string)
    requires GovWf(w, before) && GovWf(w, g) && gate.Admitted?
    requires gate.pid in before.store.instances && prop == before.store.instances[gate.pid] && "proposal-" <= gate.pid
    requires Ballot(x) ==> Get(g.store, x) == Get(before.store, x)
    ensures BallotEffect(w, sess, before, Finish(w, sess, before, g, gate, prop, epoch, nonce), nonce, x)
    ensures var r := Finish(w, sess, before, g, gate, prop, epoch, nonce).reply;
      r.Enacted? ==> r == Enacted(gate.pid, epoch, gate.approvals, gate.quorum)
  {
    AffordancePhaseKeeps(w, sess, g, prop, epoch, nonce, x);
    var a := AffordancePhase(w, sess, g, prop, epoch, nonce);
    if a.Go? {
      ObligationPhaseKeeps(w, sess, a.gov, prop, epoch, x);
      var o := ObligationPhase(w, sess, a.gov, prop, epoch);
      if o.Go? {
        AppliedSeal(w, sess, before, o.gov, gate.pid, epoch, nonce, x);
        AbortEffect(w, sess, before, SealIn(w, sess, o.gov, gate.pid, AppliedBody(prop, epoch), nonce).store, nonce, x);
      }
    }
  }

  /** The state `apply` has reached when the cascade has advanced. */
  lemma ReachCascade(w: World, sess: Session, g: Gov, prop: Body, nonce: string, x: string) returns (mid: Option<Gov>)
    requires WorldOk(w) && GovWf(w, g)
    ensures var a := GraphPhase(w, Project(sess), g, prop);
      mid == if a.Go? && PolicyPhase(w, sess, a.gov, prop, nonce).Go? then Some(PolicyPhase(w, sess, a.gov, prop, nonce).gov) else None
    ensures mid.Some? ==> GovWf(w, mid.value) && (Reserved(x) ==> Get(mid.value.store, x) == Get(g.store, x)) && mid.value.cache == g.cache
    ensures var a := GraphPhase(w, Project(sess), g, prop);
      && (a.Halt? ==> a.out.gov == g && !a.out.reply.Enacted?)
      && (a.Go? ==> var p := PolicyPhase(w, sess, a.gov, prop, nonce);
            p.Halt? ==> GovWf(w, p.out.gov) && !p.out.reply.Enacted? && Get(p.out.gov.store, x) == Get(g.store, x))
  {
    GraphPhaseKeeps(w, Project(sess), g, prop);
    var a := GraphPhase(w, Project(sess), g, prop);
    mid := None;
    if a.Go? {
      PolicyPhaseKeeps(w, sess, a.gov, prop, nonce, x);
      var p := PolicyPhase(w, sess, a.gov, prop, nonce);
      if p.Go? {
        mid := Some(p.gov);
      }
    }
  }

  /** What `Enact` is once the cascade is reached. */
  function AfterPolicy(w: World, sess: Session, g: Gov, mid: Gov, gate: Gate, nonce: string): Outcome
    requires gate.Admitted? && gate.pid in g.store.instances
  {
    var c := CascadePhase(w, sess, mid, nonce);
    if c.CascadeRaised? then Abort(g, c.store)
    else Finish(w, sess, g, c.gov, gate, g.store.instances[gate.pid], c.epoch, nonce)
  }

  lemma AfterPolicyEffect(w: World, sess: Session, g: Gov, mid: Gov, gate: Gate, nonce: string, x: string)
    requires GovWf(w, g) && GovWf(w, mid) && gate.Admitted? && gate.pid in g.store.instances && "proposal-" <= gate.pid
    requires Ballot(x) ==> Get(mid.store, x) == Get(g.store, x)
    ensures BallotEffect(w, sess, g, AfterPolicy(w, sess, g, mid, gate, nonce), nonce, x)
    ensures var r := AfterPolicy(w, sess, g, mid, gate, nonce).reply;
      r.Enacted? ==> r.pid == gate.pid && r.approvals == gate.approvals && r.quorum == gate.quorum
  {
    var c := CascadePhase(w, sess, mid, nonce);
    if c.CascadeRaised? {
      AbortEffect(w, sess, g, c.store, nonce, x);
    } else {
      if Ballot(x) {
        CascadeBallots(w, sess, mid, nonce, x);
      }
      CascadeWf(w, sess, mid, nonce);
      FinishEffect(w, sess, g, c.gov, gate, g.store.instances[gate.pid], c.epoch, nonce, x);
    }
  }

  lemma EnactEffect(w: World, sess: Session, g: Gov, gate: Gate, nonce: string, x: string)
    requires WorldOk(w) && GovWf(w, g) && gate.Admitted? && gate.pid in g.store.instances && "proposal-" <= gate.pid
    ensures BallotEffect(w, sess, g, Enact(w, sess, g, gate, nonce), nonce, x)
    ensures var r := Enact(w, sess, g, gate, nonce).reply;
      r.Enacted? ==> r.pid == gate.pid && r.approvals == gate.approvals && r.quorum == gate.quorum
  {
    var mid := ReachCascade(w, sess, g, g.store.instances[gate.pid], nonce, x);
    if mid.Some? {
      AfterPolicyEffect(w, sess, g, mid.value, gate, nonce, x);
      assert Enact(w, sess, g, gate, nonce) == AfterPolicy(w, sess, g, mid.value, gate, nonce);
    }
  }

  lemma ApplyEffect(w: World, sess: Session, g: Gov, about: Option<string>, nonce: string, x: string)
    requires WorldOk(w) && GovWf(w, g)
    ensures BallotEffect(w, sess, g, Apply(w, sess, g, about, nonce), nonce, x)
  {
    var gate := ApplyGate(w, sess, g, about);
    if gate.Admitted? {
      assert RowWf(w, gate.pid, g.store.instances[gate.pid]);
      EnactEffect(w, sess, g, gate, nonce, x);
    }
  }
}
