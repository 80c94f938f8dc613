/** Whom `ckp.apply` lets enact, in terms of the sealed rows themselves: the project a
    text names, the latest Project row of that name, and the owner and kind it declares. */
module OwnerGate {
  import opened Text
  import opened Facts
  import opened Ledger
  import opened Governance
  import opened Atomicity
  import opened EpochChain
  import Normalise

  /** A project segment of an IRI: `[a-z0-9-]+`. */
  predicate Segment(p: string) { p != "" && forall i :: 0 <= i < |p| ==> Normalise.AlnumOrHyphen(p[i]) }

  /** The text names something inside project `p`. */
  ghost predicate Names(text: string, p: string) {
    Segment(p) && exists rest: string :: text == "urn:ckp:" + (p + ['/'] + rest)
  }

  predicate ProjectRow(w: World, s: Store, x: string, p: string) {
    && x in s.instances && Field(w, s.instances[x], "type") == Some("ckp:core#Project")
    && Field(w, s.instances[x], "@id") == Some("urn:ckp:project:" + p)
  }

  /** The i-th row in creation order is the latest Project row of `p`. */
  ghost predicate LatestProject(w: World, s: Store, p: string, i: nat) {
    && i < |s.order| && ProjectRow(w, s, s.order[i], p)
    && forall j :: i < j < |s.order| ==> !ProjectRow(w, s, s.order[j], p)
  }

  /** The caller, as owners are written: a slugged, verified requester. */
  ghost predicate CallerIs(w: World, sess: Session, owner: string) {
    && sess.requester.Some? && Trim(sess.requester.value, Normalise.IsSpace) != ""
    && owner == "urn:ckp:participant:" + Normalise.Slug(Trim(sess.requester.value, Normalise.IsSpace), w.lower)
  }

  /** The text names a project whose latest row declares an owner, who is not the caller. */
  ghost predicate Anothers(w: World, sess: Session, s: Store, text: string) {
    exists p: string, i: nat ::
      && Names(text, p) && LatestProject(w, s, p, i)
      && Field(w, s.instances[s.order[i]], OWNED_BY).Some? && !CallerIs(w, sess, Field(w, s.instances[s.order[i]], OWNED_BY).value)
  }

  // -------------------------------------------------- what the look-ups compute

  lemma TargetOf(text: string, p: string)
    requires Names(text, p)
    ensures TargetProject(text) == Some(p)
  {
    var rest :| text == "urn:ckp:" + (p + ['/'] + rest);
    StripPrefixOf("urn:ckp:", p + ['/'] + rest);
    assert Free(p, '/');
    SplitOnceOf(p, rest, '/');
  }

  lemma TargetNames(text: string)
    requires TargetProject(text).Some?
    ensures Names(text, TargetProject(text).value)
  {
    var rest := StripPrefix(text, "urn:ckp:").value;
    assert text == "urn:ckp:" + rest;
    SplitOnceSound(rest, '/');
    var cut := SplitOnce(rest, '/').value;
    assert text == "urn:ckp:" + (cut.0 + ['/'] + cut.1);
  }

  /** The i-th of the rows is the last with that @id and type. */
  ghost predicate LastRow(w: World, s: Store, order: seq<string>, atId: string, typ: string, i: nat) {
    i < |order| && RowIs(w, s, order[i], atId, typ) && forall j :: i < j < |order| ==> !RowIs(w, s, order[j], atId, typ)
  }

  lemma {:induction false} LastIs(w: World, s: Store, order: seq<string>, atId: string, typ: string, i: nat)
    requires LastRow(w, s, order, atId, typ, i)
    ensures FindLast(w, s, order, atId, typ) == Some(order[i])
    decreases |order|
  {
    var n := |order| - 1;
    if i < n {
      assert !RowIs(w, s, order[n], atId, typ);
      LastIs(w, s, order[..n], atId, typ, i);
    }
  }

  lemma {:induction false} LastAt(w: World, s: Store, order: seq<string>, atId: string, typ: string) returns (i: nat)
    requires FindLast(w, s, order, atId, typ).Some?
    ensures LastRow(w, s, order, atId, typ, i)
    decreases |order|
  {
    var n := |order| - 1;
    if RowIs(w, s, order[n], atId, typ) {
      i := n;
    } else {
      i := LastAt(w, s, order[..n], atId, typ);
    }
  }

  lemma LatestIs(w: World, s: Store, p: string, i: nat)
    ensures LatestProject(w, s, p, i) <==> LastRow(w, s, s.order, "urn:ckp:project:" + p, PROJECT_T, i)
  {
    assert forall x :: ProjectRow(w, s, x, p) <==> RowIs(w, s, x, "urn:ckp:project:" + p, PROJECT_T);
  }

  /** A field of a project is that of its latest row, and none without one. */
  lemma ProjectFieldIs(w: World, s: Store, p: string, key: string, v: string)
    ensures ProjectField(w, s, p, key) == Some(v)
      <==> exists i: nat :: LatestProject(w, s, p, i) && Field(w, s.instances[s.order[i]], key) == Some(v)
  {
    var atId := "urn:ckp:project:" + p;
    if ProjectField(w, s, p, key) == Some(v) {
      var i := LastAt(w, s, s.order, atId, PROJECT_T);
      LastIs(w, s, s.order, atId, PROJECT_T, i);
      LatestIs(w, s, p, i);
    }
    if i: nat :| LatestProject(w, s, p, i) && Field(w, s.instances[s.order[i]], key) == Some(v) {
      LatestIs(w, s, p, i);
      LastIs(w, s, s.order, atId, PROJECT_T, i);
    }
  }

  lemma CallerIsOwner(w: World, sess: Session, o: string)
    ensures OwnerIri(w, sess) == Some(o) <==> CallerIs(w, sess, o)
  {
  }

  lemma MayEnactExactly(w: World, sess: Session, s: Store, text: string)
    ensures !MayEnact(w, sess, s, Some(text)) <==> Anothers(w, sess, s, text)
  {
    if !MayEnact(w, sess, s, Some(text)) {
      var p := TargetProject(text).value;
      var o := ProjectField(w, s, p, OWNED_BY).value;
      TargetNames(text);
      ProjectFieldIs(w, s, p, OWNED_BY, o);
      CallerIsOwner(w, sess, o);
    }
    if Anothers(w, sess, s, text) {
      var p: string, i: nat :|
        && Names(text, p) && LatestProject(w, s, p, i)
        && Field(w, s.instances[s.order[i]], OWNED_BY).Some? && !CallerIs(w, sess, Field(w, s.instances[s.order[i]], OWNED_BY).value);
      var o := Field(w, s.instances[s.order[i]], OWNED_BY).value;
      TargetOf(text, p);
      ProjectFieldIs(w, s, p, OWNED_BY, o);
      CallerIsOwner(w, sess, o);
    }
  }

  // ------------------------------------------------------------------ who enacts

  /** OWNER GATE. Whoever enacts a proposal about a project whose latest row declares an
      owner is that owner. */
  lemma OwnerEnacts(w: World, sess: Session, g: Gov, about: Option<string>, nonce: string, text: string, p: string, i: nat, o: string)
    requires var r := Apply(w, sess, g, about, nonce).reply;
      r.Enacted? && r.pid in g.store.instances && Field(w, g.store.instances[r.pid], ABOUT) == Some(text)
    requires Names(text, p) && LatestProject(w, g.store, p, i) && Field(w, g.store.instances[g.store.order[i]], OWNED_BY) == Some(o)
    ensures CallerIs(w, sess, o)
  {
    EnactedGateOpen(w, sess, g, about, nonce);
    MayEnactExactly(w, sess, g.store, text);
    assert !Anothers(w, sess, g.store, text);
  }

  /** An enacted call went through both owner gates. */
  lemma EnactedGateOpen(w: World, sess: Session, g: Gov, about: Option<string>, nonce: string)
    requires Apply(w, sess, g, about, nonce).reply.Enacted?
    ensures var gate, r := ApplyGate(w, sess, g, about), Apply(w, sess, g, about, nonce).reply;
      && gate.Admitted? && r.pid == gate.pid && gate.pid in g.store.instances
      && MayEnact(w, sess, g.store, about) && MayEnact(w, sess, g.store, Field(w, g.store.instances[gate.pid], ABOUT))
  {
    EnactedPhases(w, sess, g, ApplyGate(w, sess, g, about), nonce);
  }

  // ------------------------------------------------------- the gate, exactly

  predicate ProposalRow(w: World, s: Store, x: string, about: string) {
    && x in s.instances && Field(w, s.instances[x], "type") == Some("ckp:core#Proposal")
    && Field(w, s.instances[x], "@id") == Some(about)
  }

  /** The i-th row in creation order is the proposal of that IRI. */
  ghost predicate FirstProposal(w: World, s: Store, about: string, i: nat) {
    && i < |s.order| && ProposalRow(w, s, s.order[i], about)
    && forall j :: 0 <= j < i ==> !ProposalRow(w, s, s.order[j], about)
  }

  lemma {:induction false} FirstIs(w: World, s: Store, order: seq<string>, about: string, i: nat)
    requires i < |order| && ProposalRow(w, s, order[i], about) && forall j :: 0 <= j < i ==> !ProposalRow(w, s, order[j], about)
    ensures FindFirst(w, s, order, about, PROPOSAL_T) == Some(order[i])
    decreases |order|
  {
    if i > 0 {
      assert !ProposalRow(w, s, order[0], about);
      FirstIs(w, s, order[1..], about, i - 1);
    }
  }

  lemma {:induction false} FirstAt(w: World, s: Store, order: seq<string>, about: string) returns (i: nat)
    requires FindFirst(w, s, order, about, PROPOSAL_T).Some?
    ensures i < |order| && ProposalRow(w, s, order[i], about) && forall j :: 0 <= j < i ==> !ProposalRow(w, s, order[j], about)
    decreases |order|
  {
    if ProposalRow(w, s, order[0], about) {
      i := 0;
    } else {
      i := FirstAt(w, s, order[1..], about);
      i := i + 1;
      assert forall j :: 1 <= j < i ==> order[j] == order[1..][j - 1];
    }
  }

  /** The session's project is declared shared by its latest row. */
  ghost predicate Shared(w: World, s: Store, project: string) {
    exists i: nat :: LatestProject(w, s, project, i) && Field(w, s.instances[s.order[i]], PROJECT_KIND) == Some("shared")
  }

  lemma FloorExactly(w: World, s: Store, project: string)
    ensures QuorumFloor(w, s, project) == if Shared(w, s, project) then 2 else 1
  {
    ProjectFieldIs(w, s, project, PROJECT_KIND, "shared");
  }

  /** A row that is one named party's approval of a proposal. */
  ghost predicate ApprovalRow(w: World, s: Store, x: string, about: string, who: string) {
    && x in s.instances && Field(w, s.instances[x], "type") == Some("ckp:core#Vote")
    && Field(w, s.instances[x], ABOUT) == Some(about) && Field(w, s.instances[x], VOTE_VALUE) == Some("approve")
    && Field(w, s.instances[x], CREATED_BY) == Some(who) && !("urn:ckp:participant:anon:" <= who)
  }

  ghost predicate Approves(w: World, s: Store, about: string, who: string) { exists x :: ApprovalRow(w, s, x, about, who) }

  ghost predicate AllApprove(w: World, s: Store, about: string, parties: set<string>) {
    forall who :: who in parties ==> Approves(w, s, about, who)
  }

  /** `n` distinct named parties approved. */
  ghost predicate ApprovedBy(w: World, s: Store, about: string, n: int) {
    exists parties: set<string> :: |parties| >= n && AllApprove(w, s, about, parties)
  }

  lemma {:induction false} SubsetSize(a: set<string>, b: set<string>)
    requires a <= b
    ensures |a| <= |b|
    decreases |a|
  {
    if a != {} {
      var x :| x in a;
      SubsetSize(a - {x}, b - {x});
    }
  }

  lemma ApprovedExactly(w: World, s: Store, about: string, n: int)
    ensures |Approvers(w, s, about)| >= n <==> ApprovedBy(w, s, about, n)
  {
    var all := Approvers(w, s, about);
    forall who | who in all ensures Approves(w, s, about, who) {
      var x :| x in s.instances && Counts(w, s, about, x) && who == Field(w, s.instances[x], CREATED_BY).value;
      assert ApprovalRow(w, s, x, about, who);
    }
    assert AllApprove(w, s, about, all);
    if ApprovedBy(w, s, about, n) {
      var parties: set<string> :| |parties| >= n && AllApprove(w, s, about, parties);
      forall who | who in parties ensures who in all {
        var x :| ApprovalRow(w, s, x, about, who);
        assert Counts(w, s, about, x);
      }
      SubsetSize(parties, all);
    }
  }

  /** What the proposal row, the votes and the projects must say for the gate to open. */
  ghost predicate Opens(w: World, sess: Session, s: Store, about: string, i: nat) {
    && IriLike(about) && !Anothers(w, sess, s, about)
    && FirstProposal(w, s, about, i)
    && (var prop := s.instances[s.order[i]];
        var state, quorum, target := Field(w, prop, PROPOSAL_STATE), Field(w, prop, REQUIRES_QUORUM), Field(w, prop, ABOUT);
        && (state.Some? ==> state.value == "pending")
        && (target.Some? ==> !Anothers(w, sess, s, target.value))
        && (quorum.Some? ==> w.cast(quorum.value).Some?)
        && ApprovedBy(w, s, about, if quorum.Some? then w.cast(quorum.value).value else 1)
        && ApprovedBy(w, s, about, if Shared(w, s, Project(sess)) then 2 else 1))
  }

  /** The gate's own look-ups, one by one. */
  predicate Passes(w: World, sess: Session, s: Store, about: string, prop: Body) {
    var state, quorum := Field(w, prop, PROPOSAL_STATE), Field(w, prop, REQUIRES_QUORUM);
    && IriLike(about) && MayEnact(w, sess, s, Some(about)) && (state.Some? ==> state.value == "pending")
    && MayEnact(w, sess, s, Field(w, prop, ABOUT)) && (quorum.Some? ==> w.cast(quorum.value).Some?)
    && |Approvers(w, s, about)| >= (if quorum.Some? then w.cast(quorum.value).value else 1)
    && |Approvers(w, s, about)| >= QuorumFloor(w, s, Project(sess))
  }

  lemma GatePasses(w: World, sess: Session, g: Gov, about: string, pid: string)
    requires FindFirst(w, g.store, g.store.order, about, PROPOSAL_T) == Some(pid) && pid in g.store.instances
    ensures var gate := ApplyGate(w, sess, g, Some(about));
      (gate.Admitted? <==> Passes(w, sess, g.store, about, g.store.instances[pid])) && (gate.Admitted? ==> gate.pid == pid)
  {
  }

  lemma PassesOpens(w: World, sess: Session, s: Store, about: string, i: nat)
    requires FirstProposal(w, s, about, i)
    ensures Passes(w, sess, s, about, s.instances[s.order[i]]) <==> Opens(w, sess, s, about, i)
  {
    var prop := s.instances[s.order[i]];
    var quorum, target := Field(w, prop, REQUIRES_QUORUM), Field(w, prop, ABOUT);
    MayEnactExactly(w, sess, s, about);
    FloorExactly(w, s, Project(sess));
    if target.Some? {
      MayEnactExactly(w, sess, s, target.value);
    }
    ApprovedExactly(w, s, about, if Shared(w, s, Project(sess)) then 2 else 1);
    if quorum.None? {
      ApprovedExactly(w, s, about, 1);
    } else if w.cast(quorum.value).Some? {
      ApprovedExactly(w, s, about, w.cast(quorum.value).value);
    }
  }

  /** THE APPLY GATE, EXACTLY: it admits the proposal of an IRI if and only if the sealed
      rows say so: pending, enough distinct named approvals for what it sealed and for
      the floor of the session's project, and no other party owning what it is about. */
  lemma GateExactly(w: World, sess: Session, g: Gov, about: string, i: nat)
    requires FirstProposal(w, g.store, about, i)
    ensures var gate := ApplyGate(w, sess, g, Some(about));
      (gate.Admitted? <==> Opens(w, sess, g.store, about, i)) && (gate.Admitted? ==> gate.pid == g.store.order[i])
  {
    FirstIs(w, g.store, g.store.order, about, i);
    GatePasses(w, sess, g, about, g.store.order[i]);
    PassesOpens(w, sess, g.store, about, i);
  }

  /** And an IRI no proposal carries is never admitted. */
  lemma NothingToEnact(w: World, sess: Session, g: Gov, about: Option<string>)
    requires about.Some? ==> forall x :: x in g.store.order ==> !ProposalRow(w, g.store, x, about.value)
    ensures !ApplyGate(w, sess, g, about).Admitted?
  {
    if about.Some? {
      var found := FindFirst(w, g.store, g.store.order, about.value, PROPOSAL_T);
      assert found.Some? ==> ProposalRow(w, g.store, found.value, about.value);
    }
  }

  /** The call answers `not_owner` if and only if another party owns the project its own
      text names, or that of the pending proposal it found. */
  lemma NotOwnerExactly(w: World, sess: Session, g: Gov, about: string, nonce: string)
    ensures Apply(w, sess, g, Some(about), nonce).reply == Refused(NotOwner) <==>
      && IriLike(about)
      && (Anothers(w, sess, g.store, about) || exists i: nat :: OthersProposal(w, sess, g.store, about, i))
  {
    NotOwnerOnlyGate(w, sess, g, Some(about), nonce);
    MayEnactExactly(w, sess, g.store, about);
    GateNotOwner(w, sess, g, about);
    FoundOthers(w, sess, g.store, about);
  }

  /** The proposal the gate finds is pending and not the caller's to enact. */
  predicate FoundNotOwned(w: World, sess: Session, s: Store, about: string) {
    var found := FindFirst(w, s, s.order, about, PROPOSAL_T);
    found.Some? && !NotPendingState(w, s.instances[found.value]) && !MayEnact(w, sess, s, Field(w, s.instances[found.value], ABOUT))
  }

  lemma GateNotOwner(w: World, sess: Session, g: Gov, about: string)
    ensures ApplyGate(w, sess, g, Some(about)) == GateRefused(NotOwner) <==>
      IriLike(about) && (!MayEnact(w, sess, g.store, Some(about)) || FoundNotOwned(w, sess, g.store, about))
  {
  }

  lemma FoundOthers(w: World, sess: Session, s: Store, about: string)
    ensures FoundNotOwned(w, sess, s, about) <==> exists i: nat :: OthersProposal(w, sess, s, about, i)
  {
    var found := FindFirst(w, s, s.order, about, PROPOSAL_T);
    if found.Some? {
      var i := FirstAt(w, s, s.order, about);
      FirstIs(w, s, s.order, about, i);
      OthersAt(w, sess, s, about, i);
    }
    if i: nat :| OthersProposal(w, sess, s, about, i) {
      FirstIs(w, s, s.order, about, i);
      OthersAt(w, sess, s, about, i);
    }
  }

  lemma OthersAt(w: World, sess: Session, s: Store, about: string, i: nat)
    requires FirstProposal(w, s, about, i)
    ensures var prop := s.instances[s.order[i]];
      OthersProposal(w, sess, s, about, i) <==> !NotPendingState(w, prop) && !MayEnact(w, sess, s, Field(w, prop, ABOUT))
  {
    var target := Field(w, s.instances[s.order[i]], ABOUT);
    if target.Some? {
      MayEnactExactly(w, sess, s, target.value);
    }
  }

  ghost predicate OthersProposal(w: World, sess: Session, s: Store, about: string, i: nat) {
    && FirstProposal(w, s, about, i)
    && (var prop := s.instances[s.order[i]];
        && (Field(w, prop, PROPOSAL_STATE).Some? ==> Field(w, prop, PROPOSAL_STATE).value == "pending")
        && Field(w, prop, ABOUT).Some? && Anothers(w, sess, s, Field(w, prop, ABOUT).value))
  }

  lemma NotOwnerOnlyGate(w: World, sess: Session, g: Gov, about: Option<string>, nonce: string)
    ensures Apply(w, sess, g, about, nonce).reply == Refused(NotOwner) <==> ApplyGate(w, sess, g, about) == GateRefused(NotOwner)
  {
    var gate := ApplyGate(w, sess, g, about);
    if gate.Admitted? {
      NoOwnerCode(w, sess, g, gate, nonce);
    }
  }

  /** Past the gate no phase answers `not_owner`. */
  lemma NoOwnerCode(w: World, sess: Session, g: Gov, gate: Gate, nonce: string)
    requires gate.Admitted? && gate.pid in g.store.instances
    ensures Enact(w, sess, g, gate, nonce).reply != Refused(NotOwner)
  {
    var prop := g.store.instances[gate.pid];
    BeforeCascade(w, sess, g, gate, nonce);
    var mid := MidPoint(w, sess, g, prop, nonce);
    if mid.Some? {
      AfterPolicyContents(w, sess, g, mid.value, gate, nonce);
    } else {
      var a := GraphPhase(w, Project(sess), g, prop);
      if a.Go? {
        PolicyCodes(w, sess, a.gov, prop, nonce);
      }
    }
  }
}
