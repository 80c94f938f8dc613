/** The sealed epoch history: per project, Epoch and Materialization records form
    one unbroken chain that ends at the live epoch and its digest. */
module EpochChain {
  import opened Text
  import opened Facts
  import opened Ledger
  import opened Plans
  import opened Governance
  import opened GovernanceFrames
  import opened GovernanceRuns
  import opened GovernanceSafety
  import opened Atomicity

  predicate Record(id: string) { "epoch-" <= id || "mat-" <= id }

  /** A sealed Materialization of `project` at epoch `n`: it starts where the
      previous epoch ended, or at 0 when there was no epoch row yet. */
  ghost predicate MatRec(w: World, b: Body, project: string, n: nat) {
    && n >= 2 && Field(w, b, "type") == Some(MAT_T)
    && FROM_EPOCH in b && (b[FROM_EPOCH] == Num(n - 1) || (n == 2 && b[FROM_EPOCH] == Num(0)))
    && TO_EPOCH in b && b[TO_EPOCH] == Num(n)
    && Field(w, b, PRODUCES_EPOCH) == Some(EpochIri(project, n))
    && Field(w, b, SURFACE_DIGEST).Some? && Field(w, b, SOURCE_DIGEST).Some?
  }

  ghost predicate EpochRec(w: World, b: Body, project: string, n: nat, digest: Option<string>) {
    && Field(w, b, "type") == Some(EPOCH_T)
    && Field(w, b, "@id") == Some(EpochIri(project, n))
    && EPOCH in b && b[EPOCH] == Num(n)
    && Field(w, b, SURFACE_DIGEST) == digest
    && Field(w, b, PRODUCED_BY) == Some(KernelIri(project))
  }

  /** The history of one project at one epoch number. */
  ghost predicate ChainAt(w: World, g: Gov, project: string, n: nat) {
    var mat, ep := Get(g.store, MatId(project, n)), Get(g.store, EpochId(project, n));
    && (mat.Some? <==> ep.Some?)
    && (mat.Some? ==>
         && project in g.cache.epochs && n <= g.cache.epochs[project].epoch
         && MatRec(w, mat.value, project, n)
         && EpochRec(w, ep.value, project, n, Field(w, mat.value, SURFACE_DIGEST))
         && (n == g.cache.epochs[project].epoch ==> g.cache.epochs[project].digest == Field(w, mat.value, SURFACE_DIGEST))
         && (n < g.cache.epochs[project].epoch ==> Get(g.store, MatId(project, n + 1)).Some?))
  }

  /** Every record id is the id of some project and epoch. */
  ghost predicate Named(id: string) {
    Record(id) ==> exists project: string, n: nat :: id == EpochId(project, n) || id == MatId(project, n)
  }

  ghost predicate Chain(w: World, g: Gov) {
    && (forall project, n: nat {:trigger ChainAt(w, g, project, n)} :: ChainAt(w, g, project, n))
    && (forall id {:trigger Named(id)} :: id in g.store.instances ==> Named(id))
    && Positive(g)
  }

  ghost predicate Positive(g: Gov) {
    forall p :: p in g.cache.epochs ==> g.cache.epochs[p].epoch >= 1
  }

  lemma RecordIdsInjective(p: string, m: nat, q: string, n: nat)
    ensures EpochId(p, m) == EpochId(q, n) ==> p == q && m == n
    ensures MatId(p, m) == MatId(q, n) ==> p == q && m == n
    ensures EpochId(p, m) != MatId(q, n)
    ensures Record(EpochId(p, m)) && Record(MatId(p, m))
  {
    var a, b := p + "-" + Print(m), q + "-" + Print(n);
    assert EpochId(p, m) == "epoch-" + a && EpochId(q, n) == "epoch-" + b;
    assert MatId(p, m) == "mat-" + a && MatId(q, n) == "mat-" + b;
    assert EpochId(p, m)[6..] == a && EpochId(q, n)[6..] == b && MatId(p, m)[4..] == a && MatId(q, n)[4..] == b;
    if a == b {
      SuffixedNameInjective(p, m, q, n, "-");
    }
    assert EpochId(p, m)[0] == 'e' && MatId(q, n)[0] == 'm';
  }

  // ------------------------------------------------- who can touch the history

  /** The state at which an admitted apply that is not undone runs its cascade. */
  function ReachedFrom(w: World, sess: Session, g: Gov, gate: Gate, nonce: string): Option<Gov>
    requires gate.Admitted? && gate.pid in g.store.instances
  {
    var mid := MidPoint(w, sess, g, g.store.instances[gate.pid], nonce);
    if mid.Some? && CascadePhase(w, sess, mid.value, nonce).Advanced? && !Enact(w, sess, g, gate, nonce).reply.Aborted?
    then mid else None
  }

  function Reached(w: World, sess: Session, g: Gov, about: Option<string>, nonce: string): Option<Gov> {
    var gate := ApplyGate(w, sess, g, about);
    if gate.Admitted? then ReachedFrom(w, sess, g, gate, nonce) else None
  }

  /** From `g` to `g'` the records and epoch rows did not change at `x`. */
  ghost predicate SameHistory(g: Gov, g': Gov, x: string) {
    g'.cache.epochs == g.cache.epochs && (Record(x) ==> Get(g'.store, x) == Get(g.store, x))
  }

  lemma FinishHistory(w: World, sess: Session, before: Gov, g: Gov, gate: Gate, prop: Body, epoch: nat, nonce: string, x: string)
    requires GovWf(w, g) && gate.Admitted? && "proposal-" <= gate.pid
    ensures var r := Finish(w, sess, before, g, gate, prop, epoch, nonce);
      !r.reply.Aborted? ==> SameHistory(g, r.gov, x) && r.gov.graphs == g.graphs
  {
    AffordancePhaseKeeps(w, sess, g, prop, epoch, nonce, x);
    var a := AffordancePhase(w, sess, g, prop, epoch, nonce);
    assert gate.pid[0] == 'p';
    if a.Go? {
      ObligationPhaseKeeps(w, sess, a.gov, prop, epoch, x);
      var o := ObligationPhase(w, sess, a.gov, prop, epoch);
      if o.Go? {
        SealRows(w, sess, o.gov, gate.pid, AppliedBody(prop, epoch), nonce, x);
      }
    }
  }

  lemma AfterPolicyHistory(w: World, sess: Session, g: Gov, mid: Gov, gate: Gate, nonce: string, x: string)
    requires GovWf(w, mid) && gate.Admitted? && gate.pid in g.store.instances && "proposal-" <= gate.pid
    ensures var r := AfterPolicy(w, sess, g, mid, gate, nonce);
      var c := CascadePhase(w, sess, mid, nonce);
      && (c.CascadeRaised? ==> r.reply.Aborted?)
      && (!r.reply.Aborted? ==> SameHistory(c.gov, r.gov, x) && r.gov.graphs == mid.graphs)
  {
    var c := CascadePhase(w, sess, mid, nonce);
    if c.Advanced? {
      CascadeWf(w, sess, mid, nonce);
      CascadeRows(w, sess, mid, nonce, x);
      FinishHistory(w, sess, g, c.gov, gate, g.store.instances[gate.pid], c.epoch, nonce, x);
    }
  }

  lemma SameContentsHistory(g: Gov, g': Gov, x: string)
    requires SameContents(g, g')
    ensures SameHistory(g, g', x)
  {
  }

  /** Before the cascade nothing of the history moves. */
  lemma HaltHistory(w: World, sess: Session, g: Gov, gate: Gate, nonce: string, x: string)
    requires WorldOk(w) && GovWf(w, g) && gate.Admitted? && gate.pid in g.store.instances
    requires MidPoint(w, sess, g, g.store.instances[gate.pid], nonce).None?
    ensures SameHistory(g, Enact(w, sess, g, gate, nonce).gov, x)
  {
    var prop := g.store.instances[gate.pid];
    GraphPhaseKeeps(w, Project(sess), g, prop);
    var a := GraphPhase(w, Project(sess), g, prop);
    if a.Go? {
      PolicyRefusedSame(w, sess, a.gov, prop, nonce);
      SameContentsHistory(a.gov, PolicyPhase(w, sess, a.gov, prop, nonce).out.gov, x);
    }
  }

  /** The history after a call: untouched, or what the cascade at `mid` made it. */
  ghost predicate HistoryVia(w: World, sess: Session, g: Gov, g': Gov, mid: Option<Gov>, nonce: string, x: string) {
    match mid
    case None => SameHistory(g, g', x)
    case Some(m) =>
      && m.cache == g.cache && SameHistory(g, m, x) && g'.graphs == m.graphs
      && CascadePhase(w, sess, m, nonce).Advanced? && SameHistory(CascadePhase(w, sess, m, nonce).gov, g', x)
  }

  lemma AbortedHistory(w: World, sess: Session, g: Gov, mid: Gov, gate: Gate, nonce: string, x: string)
    requires gate.Admitted? && gate.pid in g.store.instances
    requires AfterPolicy(w, sess, g, mid, gate, nonce).reply.Aborted?
    ensures SameHistory(g, AfterPolicy(w, sess, g, mid, gate, nonce).gov, x)
  {
    AfterPolicyContents(w, sess, g, mid, gate, nonce);
    SameContentsHistory(g, AfterPolicy(w, sess, g, mid, gate, nonce).gov, x);
  }

  lemma EnactHistory(w: World, sess: Session, g: Gov, gate: Gate, nonce: string, x: string)
    requires WorldOk(w) && GovWf(w, g) && gate.Admitted? && gate.pid in g.store.instances && "proposal-" <= gate.pid
    ensures HistoryVia(w, sess, g, Enact(w, sess, g, gate, nonce).gov, ReachedFrom(w, sess, g, gate, nonce), nonce, x)
  {
    var prop := g.store.instances[gate.pid];
    BeforeCascade(w, sess, g, gate, nonce);
    var mid := MidPoint(w, sess, g, prop, nonce);
    if mid.Some? {
      var m := ReachCascade(w, sess, g, prop, nonce, x);
      AfterPolicyHistory(w, sess, g, mid.value, gate, nonce, x);
      if AfterPolicy(w, sess, g, mid.value, gate, nonce).reply.Aborted? {
        AbortedHistory(w, sess, g, mid.value, gate, nonce, x);
      }
    } else {
      HaltHistory(w, sess, g, gate, nonce, x);
    }
  }

  /** An apply changes the history through its cascade or not at all. */
  lemma ApplyHistory(w: World, sess: Session, g: Gov, about: Option<string>, nonce: string, x: string)
    requires WorldOk(w) && GovWf(w, g)
    ensures HistoryVia(w, sess, g, Apply(w, sess, g, about, nonce).gov, Reached(w, sess, g, about, nonce), nonce, x)
  {
    var gate := ApplyGate(w, sess, g, about);
    if gate.Admitted? {
      assert RowWf(w, gate.pid, g.store.instances[gate.pid]);
      EnactHistory(w, sess, g, gate, nonce, x);
    }
  }

  // ------------------------------------------------------- the chain is kept

  lemma NewMat(w: World, sess: Session, project: string, from: nat, n: nat, source: string, surface: string, nonce: string)
    requires n >= 2 && (from == n - 1 || (n == 2 && from == 0))
    ensures var b := Canonical(w, sess, MatBody(project, from, n, source, surface), nonce);
      MatRec(w, b, project, n) && Field(w, b, SURFACE_DIGEST) == Some(surface) && Field(w, b, SOURCE_DIGEST) == Some(source)
      && b[FROM_EPOCH] == Num(from)
  {
    var b := MatBody(project, from, n, source, surface);
    RecordKeysUnstamped();
    CanonicalKeeps(w, sess, b, nonce, "type");
    CanonicalKeeps(w, sess, b, nonce, FROM_EPOCH);
    CanonicalKeeps(w, sess, b, nonce, TO_EPOCH);
    CanonicalKeeps(w, sess, b, nonce, PRODUCES_EPOCH);
    CanonicalKeeps(w, sess, b, nonce, SURFACE_DIGEST);
    CanonicalKeeps(w, sess, b, nonce, SOURCE_DIGEST);
  }

  lemma NewEpoch(w: World, sess: Session, n: nat, surface: string, structural: string, nonce: string)
    ensures EpochRec(w, Canonical(w, sess, EpochBody(Project(sess), n, surface, structural), nonce), Project(sess), n, Some(surface))
  {
    var b := EpochBody(Project(sess), n, surface, structural);
    RecordKeysUnstamped();
    CanonicalStamps(w, sess, b, nonce);
    CanonicalKeeps(w, sess, b, nonce, "type");
    CanonicalKeeps(w, sess, b, nonce, "@id");
    CanonicalKeeps(w, sess, b, nonce, EPOCH);
    CanonicalKeeps(w, sess, b, nonce, SURFACE_DIGEST);
  }

  /** The epoch row after a cascade, and how far it moved. */
  lemma CascadeEpochRow(w: World, sess: Session, g: Gov, nonce: string)
    requires CascadePhase(w, sess, g, nonce).Advanced?
    ensures var project := Project(sess);
      var n := BumpedTo(g, project);
      var c := CascadePhase(w, sess, g, nonce);
      && project in c.gov.cache.epochs && c.gov.cache.epochs[project] == EpochRow(n, Some(Surface(w, g, project)))
      && (project in g.cache.epochs ==> n == LiveEpoch(g, project) + 1)
      && (project !in g.cache.epochs ==> n == 2 && LiveEpoch(g, project) == 0)
      && (forall q :: q != project ==>
           && (q in c.gov.cache.epochs <==> q in g.cache.epochs)
           && (q in g.cache.epochs ==> c.gov.cache.epochs[q] == g.cache.epochs[q]))
  {
    CascadeEpochs(w, sess, g, nonce);
    PinnedBump(g.cache, Project(sess), Surface(w, g, Project(sess)));
  }

  /** The epoch table after a bump whose row got its digest. */
  function PinnedRows(c: Cache, p: string, digest: string): map<string, EpochRow> {
    var rows := Bump(c, p).epochs;
    if p in rows then rows[p := rows[p].(digest := Some(digest))] else rows
  }

  lemma CascadeEpochs(w: World, sess: Session, g: Gov, nonce: string)
    requires CascadePhase(w, sess, g, nonce).Advanced?
    ensures CascadePhase(w, sess, g, nonce).gov.cache.epochs == PinnedRows(g.cache, Project(sess), Surface(w, g, Project(sess)))
  {
    CascadeRows(w, sess, g, nonce, "");
  }

  lemma PinnedBump(c: Cache, p: string, digest: string)
    ensures var rows, n := PinnedRows(c, p, digest), EpochOf(Bump(c, p), p);
      && p in rows && rows[p] == EpochRow(n, Some(digest))
      && n == (if p in c.epochs then c.epochs[p].epoch + 1 else 2)
      && (forall q :: q != p ==> (q in rows <==> q in c.epochs) && (q in c.epochs ==> rows[q] == c.epochs[q]))
  {
    BumpRows(c, p);
  }

  /** The two new records, as the chain reads them. */
  lemma CascadeNew(w: World, sess: Session, g: Gov, nonce: string)
    requires CascadePhase(w, sess, g, nonce).Advanced? && BumpedTo(g, Project(sess)) >= 2
    ensures var project := Project(sess);
      var n := BumpedTo(g, project);
      var s' := CascadePhase(w, sess, g, nonce).gov.store;
      var mat, ep := Get(s', MatId(project, n)), Get(s', EpochId(project, n));
      && mat.Some? && ep.Some? && MatRec(w, mat.value, project, n)
      && mat.value[FROM_EPOCH] == Num(LiveEpoch(g, project))
      && Field(w, mat.value, SURFACE_DIGEST) == Some(Surface(w, g, project))
      && Field(w, mat.value, SOURCE_DIGEST) == Some(Source(w, g, project))
      && EpochRec(w, ep.value, project, n, Some(Surface(w, g, project)))
  {
    var project := Project(sess);
    var n := BumpedTo(g, project);
    CascadeEpochRow(w, sess, g, nonce);
    CascadeRows(w, sess, g, nonce, MatId(project, n));
    CascadeRows(w, sess, g, nonce, EpochId(project, n));
    RecordIdsInjective(project, n, project, n);
    NewMat(w, sess, project, LiveEpoch(g, project), n, Source(w, g, project), Surface(w, g, project), nonce);
    NewEpoch(w, sess, n, Surface(w, g, project), w.structuralDigest(w.composed(g.graphs, project)), nonce);
  }

  /** Every other record id is untouched by the cascade. */
  lemma CascadeOld(w: World, sess: Session, g: Gov, nonce: string, q: string, m: nat)
    requires CascadePhase(w, sess, g, nonce).Advanced?
    requires q != Project(sess) || m != BumpedTo(g, Project(sess))
    ensures var s' := CascadePhase(w, sess, g, nonce).gov.store;
      Get(s', MatId(q, m)) == Get(g.store, MatId(q, m)) && Get(s', EpochId(q, m)) == Get(g.store, EpochId(q, m))
  {
    var n := BumpedTo(g, Project(sess));
    RecordIdsInjective(q, m, Project(sess), n);
    RecordIdsInjective(Project(sess), n, q, m);
    CascadeRows(w, sess, g, nonce, MatId(q, m));
    CascadeRows(w, sess, g, nonce, EpochId(q, m));
  }

  /** The records at one place are the same, unless it is the new epoch's place. */
  ghost predicate OldKept(g: Gov, g': Gov, project: string, n: nat, q: string, m: nat) {
    q != project || m != n ==>
      Get(g'.store, MatId(q, m)) == Get(g.store, MatId(q, m)) && Get(g'.store, EpochId(q, m)) == Get(g.store, EpochId(q, m))
  }

  /** `g'` is `g` with the epoch row moved to `n` and the records of `n` added. */
  ghost predicate Extends(w: World, g: Gov, g': Gov, project: string, n: nat, digest: string) {
    && project in g'.cache.epochs && g'.cache.epochs[project] == EpochRow(n, Some(digest)) && n >= 2
    && (project in g.cache.epochs ==> n == g.cache.epochs[project].epoch + 1)
    && (forall q :: q != project ==>
         && (q in g'.cache.epochs <==> q in g.cache.epochs)
         && (q in g.cache.epochs ==> g'.cache.epochs[q] == g.cache.epochs[q]))
    && var mat, ep := Get(g'.store, MatId(project, n)), Get(g'.store, EpochId(project, n));
    && mat.Some? && ep.Some? && MatRec(w, mat.value, project, n) && EpochRec(w, ep.value, project, n, Some(digest))
    && Field(w, mat.value, SURFACE_DIGEST) == Some(digest)
  }

  /** Adding the records of the next epoch extends the chain. */
  lemma ExtendAt(w: World, g: Gov, g': Gov, project: string, n: nat, digest: string, q: string, m: nat)
    requires ChainAt(w, g, q, m) && Extends(w, g, g', project, n, digest)
    requires OldKept(g, g', project, n, q, m) && OldKept(g, g', project, n, q, m + 1)
    ensures ChainAt(w, g', q, m)
  {
  }

  lemma ExtendChain(w: World, g: Gov, g': Gov, project: string, n: nat, digest: string)
    requires Chain(w, g) && Extends(w, g, g', project, n, digest)
    requires forall q, m: nat {:trigger OldKept(g, g', project, n, q, m)} :: OldKept(g, g', project, n, q, m)
    requires forall id :: id in g'.store.instances ==> id in g.store.instances || id == MatId(project, n) || id == EpochId(project, n)
    ensures Chain(w, g')
  {
    forall q, m: nat ensures ChainAt(w, g', q, m) {
      assert ChainAt(w, g, q, m);
      assert OldKept(g, g', project, n, q, m) && OldKept(g, g', project, n, q, m + 1);
      ExtendAt(w, g, g', project, n, digest, q, m);
    }
    forall id | id in g'.store.instances ensures Named(id) {
    }
  }

  lemma BumpedPositive(g: Gov, project: string)
    requires Positive(g)
    ensures BumpedTo(g, project) >= 2
  {
  }

  lemma CascadeExtends(w: World, sess: Session, g: Gov, nonce: string)
    requires CascadePhase(w, sess, g, nonce).Advanced? && BumpedTo(g, Project(sess)) >= 2
    ensures Extends(w, g, CascadePhase(w, sess, g, nonce).gov, Project(sess), BumpedTo(g, Project(sess)), Surface(w, g, Project(sess)))
  {
    CascadeEpochRow(w, sess, g, nonce);
    CascadeNew(w, sess, g, nonce);
  }

  lemma CascadeChain(w: World, sess: Session, g: Gov, nonce: string)
    requires CascadePhase(w, sess, g, nonce).Advanced? && Chain(w, g)
    ensures Chain(w, CascadePhase(w, sess, g, nonce).gov)
  {
    var g' := CascadePhase(w, sess, g, nonce).gov;
    var project := Project(sess);
    var n := BumpedTo(g, project);
    BumpedPositive(g, project);
    CascadeExtends(w, sess, g, nonce);
    forall q, m: nat ensures OldKept(g, g', project, n, q, m) {
      if q != project || m != n {
        CascadeOld(w, sess, g, nonce, q, m);
      }
    }
    forall id | id in g'.store.instances ensures id in g.store.instances || id == MatId(project, n) || id == EpochId(project, n) {
      CascadeRows(w, sess, g, nonce, id);
      assert Get(g'.store, id).Some?;
    }
    ExtendChain(w, g, g', project, n, Surface(w, g, project));
  }

  lemma ChainAtTransfer(w: World, g: Gov, g': Gov, q: string, m: nat)
    requires ChainAt(w, g, q, m)
    requires SameHistory(g, g', MatId(q, m)) && SameHistory(g, g', EpochId(q, m)) && SameHistory(g, g', MatId(q, m + 1))
    ensures ChainAt(w, g', q, m)
  {
    RecordIdsInjective(q, m, q, m);
    RecordIdsInjective(q, m + 1, q, m + 1);
  }

  /** Where the history is the same, the chain is the same. */
  lemma ChainTransfer(w: World, g: Gov, g': Gov)
    requires Chain(w, g) && forall x :: SameHistory(g, g', x)
    ensures Chain(w, g')
  {
    forall q, m: nat ensures ChainAt(w, g', q, m) {
      assert ChainAt(w, g, q, m);
      ChainAtTransfer(w, g, g', q, m);
    }
    forall id | id in g'.store.instances ensures Named(id) {
      assert SameHistory(g, g', id);
      if Record(id) {
        assert Get(g'.store, id).Some? && id in g.store.instances;
        assert Named(id);
      }
    }
    assert SameHistory(g, g', "");
  }

  lemma ApplyChain(w: World, sess: Session, g: Gov, about: Option<string>, nonce: string)
    requires WorldOk(w) && GovWf(w, g) && Chain(w, g)
    ensures Chain(w, Apply(w, sess, g, about, nonce).gov)
  {
    var g' := Apply(w, sess, g, about, nonce).gov;
    var mid := Reached(w, sess, g, about, nonce);
    forall x ensures HistoryVia(w, sess, g, g', mid, nonce, x) {
      ApplyHistory(w, sess, g, about, nonce, x);
    }
    ChainVia(w, sess, g, g', mid, nonce);
  }

  lemma ChainVia(w: World, sess: Session, g: Gov, g': Gov, mid: Option<Gov>, nonce: string)
    requires Chain(w, g) && forall x :: HistoryVia(w, sess, g, g', mid, nonce, x)
    ensures Chain(w, g')
  {
    if mid.None? {
      forall x ensures SameHistory(g, g', x) {
        assert HistoryVia(w, sess, g, g', mid, nonce, x);
      }
      ChainTransfer(w, g, g');
    } else {
      var m := mid.value;
      assert HistoryVia(w, sess, g, g', mid, nonce, "");
      forall x ensures SameHistory(g, m, x) && SameHistory(CascadePhase(w, sess, m, nonce).gov, g', x) {
        assert HistoryVia(w, sess, g, g', mid, nonce, x);
      }
      ChainTransfer(w, g, m);
      CascadeChain(w, sess, m, nonce);
      ChainTransfer(w, CascadePhase(w, sess, m, nonce).gov, g');
    }
  }

  // ---------------------------------------------------------------- whole runs

  lemma OtherActHistory(w: World, g: Gov, a: Act, x: string)
    requires WorldOk(w) && GovWf(w, g) && Admissible(w, g, a) && !a.Enaction? && !a.PlanRun?
    ensures SameHistory(g, After(w, g, a), x)
  {
    match a
    case Propose(sess, urn, payload, tick, nonce) =>
      assert ProposalId(tick)[0] == 'p';
      CarryOutHistory(w, sess, g, ProposalId(tick), ProposeIntent(w, urn, payload, tick), nonce, x);
    case Vote(sess, about, value, tick, nonce) =>
      assert VoteId(tick)[0] == 'v';
      CarryOutHistory(w, sess, g, VoteId(tick), VoteIntent(w, g.store, about, value, tick), nonce, x);
    case Update(sess, ref, patch, nonce) => UpdateRows(w, sess, g, ref, patch, nonce, x);
    case SealRow(sess, id, body, nonce) => SealCallHistory(w, sess, g, id, body, nonce, x);
  }

  lemma CarryOutHistory(w: World, sess: Session, g: Gov, id: string, i: Intent, nonce: string, x: string)
    requires !Record(id)
    ensures SameHistory(g, CarryOut(w, sess, g, id, i, nonce).gov, x)
  {
    if i.Write? {
      SealCallHistory(w, sess, g, id, i.body, nonce, x);
    }
  }

  lemma SealCallHistory(w: World, sess: Session, g: Gov, id: string, body: Body, nonce: string, x: string)
    requires !Record(id)
    ensures SameHistory(g, SealCall(w, sess, g, id, body, nonce).gov, x)
  {
    SealCallRows(w, sess, g, id, body, nonce, x);
  }

  /** Seeding an absent epoch row at 1 continues every chain there is. */
  lemma PlanRunChain(w: World, g: Gov, kernel: string, verb: string)
    requires Chain(w, g)
    ensures Chain(w, g.(cache := AfterExec(g.cache, kernel, verb)))
  {
    var g' := g.(cache := AfterExec(g.cache, kernel, verb));
    assert forall q :: q in g.cache.epochs ==> q in g'.cache.epochs && g'.cache.epochs[q] == g.cache.epochs[q];
    forall q, m: nat ensures ChainAt(w, g', q, m) {
      assert ChainAt(w, g, q, m);
    }
    forall id | id in g'.store.instances ensures Named(id) {
      assert id in g.store.instances;
      assert Named(id);
    }
  }

  lemma ActChain(w: World, g: Gov, a: Act)
    requires WorldOk(w) && GovWf(w, g) && Admissible(w, g, a) && Chain(w, g)
    ensures Chain(w, After(w, g, a))
  {
    if a.Enaction? {
      ApplyChain(w, a.sess, g, a.about, a.nonce);
    } else if a.PlanRun? {
      PlanRunChain(w, g, a.kernel, a.verb);
    } else {
      forall x ensures SameHistory(g, After(w, g, a), x) {
        OtherActHistory(w, g, a, x);
      }
      ChainTransfer(w, g, After(w, g, a));
    }
  }

  /** Over every run the epoch history stays one chain per project. */
  lemma {:induction false} RunChain(w: World, g: Gov, acts: seq<Act>)
    requires WorldOk(w) && GovWf(w, g) && Chain(w, g) && AdmissibleRun(w, g, acts)
    ensures Chain(w, RunTo(w, g, acts)) && GovWf(w, RunTo(w, g, acts))
    decreases |acts|
  {
    if acts != [] {
      ActKeeps(w, g, acts[0], "");
      ActChain(w, g, acts[0]);
      RunChain(w, After(w, g, acts[0]), acts[1..]);
    }
  }

  // --------------------------------------------------------- reading the chain

  /** A field of a stored record. */
  function Cell(s: Store, id: string, key: string): Option<Json> {
    if id in s.instances && key in s.instances[id] then Some(s.instances[id][key]) else None
  }

  /** Consecutive Materializations link: the next one starts where this ended. */
  lemma ChainLinks(w: World, g: Gov, project: string, n: nat)
    requires Chain(w, g)
    requires MatId(project, n) in g.store.instances && MatId(project, n + 1) in g.store.instances
    ensures Cell(g.store, MatId(project, n), TO_EPOCH) == Some(Num(n)) == Cell(g.store, MatId(project, n + 1), FROM_EPOCH)
  {
    assert ChainAt(w, g, project, n) && ChainAt(w, g, project, n + 1);
  }

  /** No gap: from any sealed epoch on, every epoch up to the live one is sealed. */
  lemma {:induction false} ChainUnbroken(w: World, g: Gov, project: string, m: nat, n: nat)
    requires Chain(w, g) && MatId(project, m) in g.store.instances && m <= n <= LiveEpoch(g, project)
    ensures MatId(project, n) in g.store.instances && EpochId(project, n) in g.store.instances
    decreases n - m
  {
    assert ChainAt(w, g, project, m);
    if m < n {
      ChainUnbroken(w, g, project, m + 1, n);
    }
  }

  /** The live epoch row carries the digest its Epoch and Materialization sealed. */
  lemma LiveDigestIsSealed(w: World, g: Gov, project: string)
    requires Chain(w, g) && MatId(project, LiveEpoch(g, project)) in g.store.instances
    ensures var n := LiveEpoch(g, project);
      && project in g.cache.epochs && EpochId(project, n) in g.store.instances
      && g.cache.epochs[project].digest.Some?
      && g.cache.epochs[project].digest == Field(w, g.store.instances[MatId(project, n)], SURFACE_DIGEST)
      && g.cache.epochs[project].digest == Field(w, g.store.instances[EpochId(project, n)], SURFACE_DIGEST)
  {
    assert ChainAt(w, g, project, LiveEpoch(g, project));
  }

  /** What one committed cascade adds: epochs strictly advance, the first one of
      an absent row runs from 0 to 2. */
  lemma ApplyAdvances(w: World, sess: Session, g: Gov, about: Option<string>, nonce: string, mid: Gov)
    requires WorldOk(w) && GovWf(w, g) && Positive(g) && Reached(w, sess, g, about, nonce) == Some(mid)
    ensures var g' := Apply(w, sess, g, about, nonce).gov;
      var p := Project(sess);
      var n := LiveEpoch(g', p);
      && n == (if p in g.cache.epochs then LiveEpoch(g, p) + 1 else 2)
      && Cell(g'.store, MatId(p, n), FROM_EPOCH) == Some(Num(LiveEpoch(g, p)))
      && Cell(g'.store, MatId(p, n), TO_EPOCH) == Some(Num(n))
  {
    var p := Project(sess);
    var n := BumpedTo(mid, p);
    ApplyHistory(w, sess, g, about, nonce, MatId(p, n));
    RecordIdsInjective(p, n, p, n);
    AdvancesVia(w, sess, g, mid, Apply(w, sess, g, about, nonce).gov, nonce);
  }

  lemma AdvancesVia(w: World, sess: Session, g: Gov, mid: Gov, g': Gov, nonce: string)
    requires Positive(g) && HistoryVia(w, sess, g, g', Some(mid), nonce, MatId(Project(sess), BumpedTo(mid, Project(sess))))
    requires Record(MatId(Project(sess), BumpedTo(mid, Project(sess))))
    ensures var p := Project(sess);
      var n := LiveEpoch(g', p);
      && n == (if p in g.cache.epochs then LiveEpoch(g, p) + 1 else 2)
      && Cell(g'.store, MatId(p, n), FROM_EPOCH) == Some(Num(LiveEpoch(g, p)))
      && Cell(g'.store, MatId(p, n), TO_EPOCH) == Some(Num(n))
  {
    BumpedPositive(mid, Project(sess));
    CascadeEpochRow(w, sess, mid, nonce);
    CascadeNew(w, sess, mid, nonce);
  }

  // ----------------------------------------------------------- a successful apply

  /** What enacting tells about the phases it went through. */
  lemma EnactedPhases(w: World, sess: Session, g: Gov, gate: Gate, nonce: string)
    requires gate.Admitted? && gate.pid in g.store.instances && Enact(w, sess, g, gate, nonce).reply.Enacted?
    ensures var r := Enact(w, sess, g, gate, nonce);
      var a := GraphPhase(w, Project(sess), g, g.store.instances[gate.pid]);
      && a.Go? && ReachedFrom(w, sess, g, gate, nonce).Some? && r.reply.pid == gate.pid
      && ReachedFrom(w, sess, g, gate, nonce).value == PolicyPhase(w, sess, a.gov, g.store.instances[gate.pid], nonce).gov
      && r.reply.epoch == CascadePhase(w, sess, ReachedFrom(w, sess, g, gate, nonce).value, nonce).epoch
  {
    BeforeCascade(w, sess, g, gate, nonce);
    var mid := MidPoint(w, sess, g, g.store.instances[gate.pid], nonce).value;
    var c := CascadePhase(w, sess, mid, nonce);
    if c.Advanced? {
      FinishEpoch(w, sess, g, c.gov, gate, g.store.instances[gate.pid], c.epoch, nonce);
    }
  }

  lemma FinishEpoch(w: World, sess: Session, before: Gov, g: Gov, gate: Gate, prop: Body, epoch: nat, nonce: string)
    requires gate.Admitted?
    ensures var r := Finish(w, sess, before, g, gate, prop, epoch, nonce).reply;
      r.Enacted? ==> r.pid == gate.pid && r.epoch == epoch
  {
    FinishContents(w, sess, before, g, gate, prop, epoch, nonce);
  }

  lemma FinishKeepsPlans(w: World, sess: Session, before: Gov, g: Gov, gate: Gate, prop: Body, epoch: nat, nonce: string, k: PlanKey)
    requires gate.Admitted? && k in g.cache.plans && Finish(w, sess, before, g, gate, prop, epoch, nonce).reply.Enacted?
    ensures k in Finish(w, sess, before, g, gate, prop, epoch, nonce).gov.cache.plans
  {
    var a := AffordancePhase(w, sess, g, prop, epoch, nonce);
    AffordanceKeepsPlans(w, sess, g, prop, epoch, nonce, k);
    ObligationKeepsPlans(w, sess, a.gov, prop, epoch);
  }

  lemma AffordanceKeepsPlans(w: World, sess: Session, g: Gov, prop: Body, epoch: nat, nonce: string, k: PlanKey)
    requires k in g.cache.plans
    ensures var a := AffordancePhase(w, sess, g, prop, epoch, nonce); a.Go? ==> k in a.gov.cache.plans
  {
  }

  lemma ObligationKeepsPlans(w: World, sess: Session, g: Gov, prop: Body, epoch: nat)
    ensures var o := ObligationPhase(w, sess, g, prop, epoch); o.Go? ==> o.gov.cache == g.cache
  {
  }

  /** The whole catalogue is compiled at the new epoch. */
  lemma EnactedPlans(w: World, sess: Session, g: Gov, gate: Gate, nonce: string, i: nat)
    requires gate.Admitted? && gate.pid in g.store.instances && Enact(w, sess, g, gate, nonce).reply.Enacted?
    requires i < |CATALOGUE|
    ensures var r := Enact(w, sess, g, gate, nonce); PlanKey(Project(sess), CATALOGUE[i].0, r.reply.epoch) in r.gov.cache.plans
  {
    EnactedPhases(w, sess, g, gate, nonce);
    BeforeCascade(w, sess, g, gate, nonce);
    var mid := ReachedFrom(w, sess, g, gate, nonce).value;
    var c := CascadePhase(w, sess, mid, nonce);
    CascadePlans(w, sess, mid, nonce, i);
    FinishKeepsPlans(w, sess, g, c.gov, gate, g.store.instances[gate.pid], c.epoch, nonce, PlanKey(Project(sess), CATALOGUE[i].0, c.epoch));
  }

  lemma CascadePlans(w: World, sess: Session, g: Gov, nonce: string, i: nat)
    requires CascadePhase(w, sess, g, nonce).Advanced? && i < |CATALOGUE|
    ensures var c := CascadePhase(w, sess, g, nonce); PlanKey(Project(sess), CATALOGUE[i].0, c.epoch) in c.gov.cache.plans
  {
    CascadeRows(w, sess, g, nonce, "");
    BumpRecompiles(g.cache, Project(sess), i);
  }

  ghost predicate EpochMoved(sess: Session, g: Gov, r: Outcome)
    requires r.reply.Enacted?
  {
    var p, n := Project(sess), r.reply.epoch;
    && n == LiveEpoch(r.gov, p) == (if p in g.cache.epochs then LiveEpoch(g, p) + 1 else 2)
    && Cell(r.gov.store, MatId(p, n), FROM_EPOCH) == Some(Num(LiveEpoch(g, p)))
    && Cell(r.gov.store, MatId(p, n), TO_EPOCH) == Some(Num(n))
  }

  /** The Epoch and Materialization rows of the replied epoch carry the live digest,
      which is the digest of the surface in force. */
  ghost predicate RecordsMoved(w: World, sess: Session, r: Outcome)
    requires r.reply.Enacted?
  {
    var p, n := Project(sess), r.reply.epoch;
    var ep, mat := Get(r.gov.store, EpochId(p, n)), Get(r.gov.store, MatId(p, n));
    && p in r.gov.cache.epochs && r.gov.cache.epochs[p].digest == Some(Surface(w, r.gov, p))
    && ep.Some? && EpochRec(w, ep.value, p, n, Some(Surface(w, r.gov, p)))
    && mat.Some? && MatRec(w, mat.value, p, n)
    && Field(w, mat.value, SURFACE_DIGEST) == Some(Surface(w, r.gov, p))
    && Field(w, mat.value, SOURCE_DIGEST) == Some(Source(w, r.gov, p))
  }

  ghost predicate ProposalMoved(w: World, r: Outcome)
    requires r.reply.Enacted?
  {
    && IsApplied(w, r.gov.store, r.reply.pid)
    && Field(w, r.gov.store.instances[r.reply.pid], APPLIED_EPOCH) == Some(Print(r.reply.epoch))
  }

  ghost predicate PlansMoved(sess: Session, r: Outcome)
    requires r.reply.Enacted?
  {
    forall i :: 0 <= i < |CATALOGUE| ==> PlanKey(Project(sess), CATALOGUE[i].0, r.reply.epoch) in r.gov.cache.plans
  }

  ghost predicate GraphMoved(w: World, sess: Session, g: Gov, r: Outcome)
    requires r.reply.Enacted?
  {
    && r.reply.pid in g.store.instances
    && (var a := GraphPhase(w, Project(sess), g, g.store.instances[r.reply.pid]); a.Go? && r.gov.graphs == a.gov.graphs)
  }

  /** A SUCCESSFUL APPLY MOVES EVERYTHING TOGETHER: the kernel graph is the one the
      op made, the live epoch is the one replied and one further on, its records are
      sealed, its plans compiled, and the proposal is applied at that epoch. */
  lemma EnactedMovesAll(w: World, sess: Session, g: Gov, about: Option<string>, nonce: string)
    requires WorldOk(w) && GovWf(w, g) && Positive(g) && Apply(w, sess, g, about, nonce).reply.Enacted?
    ensures var r := Apply(w, sess, g, about, nonce);
      EpochMoved(sess, g, r) && RecordsMoved(w, sess, r) && PlansMoved(sess, r) && GraphMoved(w, sess, g, r) && ProposalMoved(w, r)
  {
    EnactedEpoch(w, sess, g, about, nonce);
    EnactedRecords(w, sess, g, about, nonce);
    EnactedGate(w, sess, g, about, nonce);
    var r := Apply(w, sess, g, about, nonce);
    EnactedIsApplied(w, g, Enaction(sess, about, nonce), r.reply.pid);
  }

  lemma EnactedGate(w: World, sess: Session, g: Gov, about: Option<string>, nonce: string)
    requires WorldOk(w) && GovWf(w, g) && Apply(w, sess, g, about, nonce).reply.Enacted?
    ensures var r := Apply(w, sess, g, about, nonce); PlansMoved(sess, r) && GraphMoved(w, sess, g, r)
  {
    var gate := ApplyGate(w, sess, g, about);
    assert RowWf(w, gate.pid, g.store.instances[gate.pid]);
    EnactedPhases(w, sess, g, gate, nonce);
    EnactedGraphs(w, sess, g, gate, nonce);
    EnactedPlansAll(w, sess, g, gate, nonce);
  }

  lemma EnactedPlansAll(w: World, sess: Session, g: Gov, gate: Gate, nonce: string)
    requires gate.Admitted? && gate.pid in g.store.instances && Enact(w, sess, g, gate, nonce).reply.Enacted?
    ensures PlansMoved(sess, Enact(w, sess, g, gate, nonce))
  {
    var r := Enact(w, sess, g, gate, nonce);
    forall i | 0 <= i < |CATALOGUE| ensures PlanKey(Project(sess), CATALOGUE[i].0, r.reply.epoch) in r.gov.cache.plans {
      EnactedPlans(w, sess, g, gate, nonce, i);
    }
  }

  lemma EnactedGraphs(w: World, sess: Session, g: Gov, gate: Gate, nonce: string)
    requires WorldOk(w) && GovWf(w, g) && gate.Admitted? && gate.pid in g.store.instances && "proposal-" <= gate.pid
    requires Enact(w, sess, g, gate, nonce).reply.Enacted?
    ensures var a := GraphPhase(w, Project(sess), g, g.store.instances[gate.pid]);
      a.Go? && Enact(w, sess, g, gate, nonce).gov.graphs == a.gov.graphs
  {
    EnactedPhases(w, sess, g, gate, nonce);
    EnactHistory(w, sess, g, gate, nonce, "");
    var a := GraphPhase(w, Project(sess), g, g.store.instances[gate.pid]);
    GraphPhaseKeeps(w, Project(sess), g, g.store.instances[gate.pid]);
    PolicyPhaseKeeps(w, sess, a.gov, g.store.instances[gate.pid], nonce, "");
  }

  lemma EnactedRecords(w: World, sess: Session, g: Gov, about: Option<string>, nonce: string)
    requires WorldOk(w) && GovWf(w, g) && Positive(g) && Apply(w, sess, g, about, nonce).reply.Enacted?
    ensures RecordsMoved(w, sess, Apply(w, sess, g, about, nonce))
  {
    var gate := ApplyGate(w, sess, g, about);
    assert RowWf(w, gate.pid, g.store.instances[gate.pid]);
    EnactedPhases(w, sess, g, gate, nonce);
    var mid := ReachedFrom(w, sess, g, gate, nonce).value;
    var p, n := Project(sess), BumpedTo(mid, Project(sess));
    ApplyHistory(w, sess, g, about, nonce, MatId(p, n));
    ApplyHistory(w, sess, g, about, nonce, EpochId(p, n));
    RecordsVia(w, sess, g, mid, Apply(w, sess, g, about, nonce), nonce);
  }

  lemma RecordsVia(w: World, sess: Session, g: Gov, mid: Gov, r: Outcome, nonce: string)
    requires Positive(g) && r.reply.Enacted?
    requires HistoryVia(w, sess, g, r.gov, Some(mid), nonce, MatId(Project(sess), BumpedTo(mid, Project(sess))))
    requires HistoryVia(w, sess, g, r.gov, Some(mid), nonce, EpochId(Project(sess), BumpedTo(mid, Project(sess))))
    requires r.reply.epoch == CascadePhase(w, sess, mid, nonce).epoch
    ensures RecordsMoved(w, sess, r)
  {
    var p, n := Project(sess), BumpedTo(mid, Project(sess));
    BumpedPositive(mid, p);
    RecordIdsInjective(p, n, p, n);
    CascadeRows(w, sess, mid, nonce, "");
    CascadeEpochRow(w, sess, mid, nonce);
    CascadeNew(w, sess, mid, nonce);
    assert Surface(w, mid, p) == Surface(w, r.gov, p) && Source(w, mid, p) == Source(w, r.gov, p);
  }

  lemma EnactedEpoch(w: World, sess: Session, g: Gov, about: Option<string>, nonce: string)
    requires WorldOk(w) && GovWf(w, g) && Positive(g) && Apply(w, sess, g, about, nonce).reply.Enacted?
    ensures EpochMoved(sess, g, Apply(w, sess, g, about, nonce))
  {
    var gate := ApplyGate(w, sess, g, about);
    assert RowWf(w, gate.pid, g.store.instances[gate.pid]);
    EnactedPhases(w, sess, g, gate, nonce);
    var mid := ReachedFrom(w, sess, g, gate, nonce).value;
    ApplyAdvances(w, sess, g, about, nonce, mid);
    ApplyHistory(w, sess, g, about, nonce, "");
    CascadeEpochRow(w, sess, mid, nonce);
    CascadeRows(w, sess, mid, nonce, "");
  }
}
