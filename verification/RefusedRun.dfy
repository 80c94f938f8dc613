/** A run from the empty database that ends in a refused apply with a moved epoch:
    one participant proposes an affordance whose query does not validate, approves
    it, and applies it twice. */
module RefusedRun {
  import opened Text
  import opened Facts
  import opened Ledger
  import opened Plans
  import opened Governance
  import opened GovernanceFrames
  import opened GovernanceRuns
  import opened GovernanceSafety
  import opened Atomicity
  import opened Refusals
  import opened Retry
  import opened Reachable
  import Normalise

  /** A world in which every shape conforms and no affordance validates. */
  const W: World := World(
    (j: Json) => "", (b: Body) => [], bs => "digest", (text, key) => "sig", c => c, text => Some(1),
    (b: Body) => true, (g: Graph, t) => {}, (g: Graph, t) => map[], (b: Body) => NoTtl, (ttl, g: Graph) => ShapeRefused,
    (gs: map<string, Graph>, p) => {}, (g: Graph) => "surface", (g: Graph) => "structure",
    (b: Body) => None, (b: Body, n) => None)

  const ANN := Session(None, Some("key"), None, Some("ann"))
  const DETAIL := Obj(map["query" := Str("?")])
  const PAYLOAD: Body := map["op" := Str("add_affordance"), "detail" := DETAIL]
  const PID := "proposal-0"
  const ABOUT_PID := "ckp://Proposal#proposal-0"

  const PROPOSES := Act.Propose(ANN, Some("k"), PAYLOAD, 0, "n")
  const APPROVES := Act.Vote(ANN, Some(ABOUT_PID), Some("approve"), 0, "n")
  const APPLIES := Act.Enaction(ANN, Some(ABOUT_PID), "n")

  function Row(): Body { Canonical(W, ANN, ProposalBody(0, "k", "add_affordance", 1, DETAIL), "n") }
  function Ballot(): Body { Canonical(W, ANN, VoteBody(0, ABOUT_PID, "approve"), "n") }

  lemma Names()
    ensures ProposalId(0) == PID && VoteId(0) == "vote-0" && "ckp://Proposal#" + ProposalId(0) == ABOUT_PID
    ensures IriLike("k") && IriLike(ABOUT_PID) && "add_affordance" in OPS
    ensures Trimmed(ANN.requester) == Some("ann") && IdentityKey(ANN) == Some("key") && Project(ANN) == "demo"
  {
    assert Print(0) == "0";
    assert OPS[3] == "add_affordance";
    TrimFixed("ann", Normalise.IsSpace);
  }

  /** In this world every typed body seals. */
  lemma NeverFails(graph: Graph, id: string, body: Body)
    requires Field(W, body, "type").Some?
    ensures !SealFails(W, ANN, graph, id, body, "n")
  {
    Names();
  }

  lemma Seals(g: Gov, id: string, body: Body)
    requires Field(W, body, "type").Some?
    ensures SealIn(W, ANN, g, id, body, "n").Sealed?
    ensures var s' := SealIn(W, ANN, g, id, body, "n").store;
      && s'.instances == g.store.instances[id := Canonical(W, ANN, body, "n")]
      && s'.order == g.store.order + Fresh(g.store, id)
  {
    NeverRaises(g, id, body);
    SealOrder(W, ANN, g, id, body, "n");
    assert g.store.order + [] == g.store.order;
  }

  lemma NeverRaises(g: Gov, id: string, body: Body)
    requires Field(W, body, "type").Some?
    ensures SealIn(W, ANN, g, id, body, "n").Sealed?
  {
    NeverFails(GraphOf(g, Project(ANN)), id, body);
    SealFailsExactly(W, ANN, g, id, body, "n");
  }

  /** A call that seals one new row. */
  lemma CallSeals(g: Gov, id: string, body: Body)
    requires Field(W, body, "type").Some? && id !in g.store.instances
    ensures var r := SealCall(W, ANN, g, id, body, "n");
      && r.reply == Done(id) && r.gov == g.(store := r.gov.store)
      && r.gov.store.instances == g.store.instances[id := Canonical(W, ANN, body, "n")]
      && r.gov.store.order == g.store.order + [id]
  {
    Seals(g, id, body);
  }

  lemma Intends()
    ensures ProposeIntent(W, Some("k"), PAYLOAD, 0) == Write(ProposalBody(0, "k", "add_affordance", 1, DETAIL))
  {
    Names();
    assert Field(W, PAYLOAD, "op") == Some("add_affordance");
  }

  lemma ProposalCarried(w: World, sess: Session, g: Gov, urn: Option<string>, payload: Body, tick: nat, nonce: string, body: Body)
    requires ProposeIntent(w, urn, payload, tick) == Write(body)
    ensures ProposeChange(w, sess, g, urn, payload, tick, nonce) == SealCall(w, sess, g, ProposalId(tick), body, nonce)
  {
  }

  lemma Proposed()
    ensures Do(W, START, PROPOSES) == SealCall(W, ANN, START, PID, ProposalBody(0, "k", "add_affordance", 1, DETAIL), "n")
  {
    Names();
    Intends();
    ProposalCarried(W, ANN, START, Some("k"), PAYLOAD, 0, "n", ProposalBody(0, "k", "add_affordance", 1, DETAIL));
  }

  lemma ProposedState()
    ensures var r := Do(W, START, PROPOSES);
      && r.reply == Done(PID) && r.gov.cache == START.cache
      && r.gov.store.instances == map[PID := Row()] && r.gov.store.order == [PID]
  {
    Proposed();
    CallSeals(START, PID, ProposalBody(0, "k", "add_affordance", 1, DETAIL));
    assert START.store.order + [PID] == [PID];
  }

  lemma ProposalSays(tick: nat, about: string, op: string, quorum: nat, detail: Json)
    ensures var p := ProposalBody(tick, about, op, quorum, detail);
      && p["@id"] == Str("ckp://Proposal#" + ProposalId(tick)) && p["type"] == Str(PROPOSAL_T)
      && p[PROPOSAL_STATE] == Str("pending") && p[PROPOSAL_OP] == Str(op) && p[ABOUT] == Str(about)
      && p["proposalDetail"] == detail
  {
  }

  lemma SealedProposal(w: World, sess: Session, nonce: string, tick: nat, about: string, op: string, quorum: nat, detail: Json)
    ensures var b := Canonical(w, sess, ProposalBody(tick, about, op, quorum, detail), nonce);
      && Field(w, b, "@id") == Some("ckp://Proposal#" + ProposalId(tick)) && Field(w, b, "type") == Some(PROPOSAL_T)
      && Field(w, b, PROPOSAL_STATE) == Some("pending") && Field(w, b, PROPOSAL_OP) == Some(op) && Field(w, b, ABOUT) == Some(about)
  {
    ProposalSays(tick, about, op, quorum, detail);
    RecordKeysUnstamped();
    var p := ProposalBody(tick, about, op, quorum, detail);
    SealedField(w, sess, p, nonce, "@id", "ckp://Proposal#" + ProposalId(tick));
    SealedField(w, sess, p, nonce, "type", PROPOSAL_T);
    SealedField(w, sess, p, nonce, PROPOSAL_STATE, "pending");
    SealedField(w, sess, p, nonce, PROPOSAL_OP, op);
    SealedField(w, sess, p, nonce, ABOUT, about);
  }

  lemma RowReads()
    ensures Field(W, Row(), "@id") == Some(ABOUT_PID) && Field(W, Row(), "type") == Some(PROPOSAL_T)
    ensures Field(W, Row(), PROPOSAL_STATE) == Some("pending") && Field(W, Row(), PROPOSAL_OP) == Some("add_affordance")
    ensures Field(W, Row(), ABOUT) == Some("k")
  {
    Names();
    SealedProposal(W, ANN, "n", 0, "k", "add_affordance", 1, DETAIL);
  }

  lemma RowAsks()
    ensures Detail(Row(), "query").Some?
  {
    CanonicalKeeps(W, ANN, ProposalBody(0, "k", "add_affordance", 1, DETAIL), "n", "proposalDetail");
  }

  lemma FoundFirst(s: Store)
    requires |s.order| >= 1 && s.order[0] == PID && PID in s.instances && s.instances[PID] == Row()
    ensures FindFirst(W, s, s.order, ABOUT_PID, PROPOSAL_T) == Some(PID)
  {
    RowReads();
  }

  lemma VoteIntends(s: Store)
    requires s.order == [PID] && PID in s.instances && s.instances[PID] == Row()
    ensures VoteIntent(W, s, Some(ABOUT_PID), Some("approve"), 0) == Write(VoteBody(0, ABOUT_PID, "approve"))
  {
    Names();
    FoundFirst(s);
    RowReads();
  }

  lemma VoteCarried(w: World, sess: Session, g: Gov, about: Option<string>, value: Option<string>, tick: nat, nonce: string, body: Body)
    requires VoteIntent(w, g.store, about, value, tick) == Write(body)
    ensures CastVote(w, sess, g, about, value, tick, nonce) == SealCall(w, sess, g, VoteId(tick), body, nonce)
  {
  }

  lemma Voted(g: Gov)
    requires g.store.instances == map[PID := Row()] && g.store.order == [PID]
    ensures Do(W, g, APPROVES) == SealCall(W, ANN, g, VoteId(0), VoteBody(0, ABOUT_PID, "approve"), "n")
  {
    VoteIntends(g.store);
    VoteCarried(W, ANN, g, Some(ABOUT_PID), Some("approve"), 0, "n", VoteBody(0, ABOUT_PID, "approve"));
  }

  lemma VoteSealed(g: Gov)
    requires g.store.instances == map[PID := Row()] && g.store.order == [PID]
    ensures var r := SealCall(W, ANN, g, VoteId(0), VoteBody(0, ABOUT_PID, "approve"), "n");
      && r.reply == Done(VoteId(0)) && r.gov == g.(store := r.gov.store)
      && r.gov.store.instances == g.store.instances[VoteId(0) := Ballot()] && r.gov.store.order == [PID] + [VoteId(0)]
  {
    VoteIsNew(g.store.instances, Row());
    CallSeals(g, VoteId(0), VoteBody(0, ABOUT_PID, "approve"));
  }

  lemma VoteIsNew(rows: map<string, Body>, a: Body)
    requires rows == map[PID := a]
    ensures VoteId(0) !in rows
  {
    assert VoteId(0)[0] == 'v' && PID[0] == 'p';
  }

  // ---------------------------------------------------------------- the applies

  lemma WorldHolds()
    ensures WorldOk(W)
  {
  }

  lemma KeepsFrom(w: World, sess: Session, g: Gov, prop: Body, nonce: string)
    requires w.opToTtl(prop).NoTtl? && !CascadeFails(w, sess, g, nonce)
    requires AddsAffordance(w, prop) && w.affordance(prop).None?
    ensures KeepsCascade(w, sess, g, prop, nonce)
  {
  }

  lemma CascadePassesFrom(w: World, sess: Session, g: Gov, nonce: string)
    requires forall graph: Graph, id: string, body: Body :: Field(w, body, "type").Some? ==> !SealFails(w, sess, graph, id, body, nonce)
    ensures !CascadeFails(w, sess, g, nonce)
  {
    RecordTypes(w, g, Project(sess), BumpedTo(g, Project(sess)));
  }

  lemma CascadePasses(g: Gov)
    ensures !CascadeFails(W, ANN, g, "n")
  {
    forall graph: Graph, id: string, body: Body | Field(W, body, "type").Some? ensures !SealFails(W, ANN, graph, id, body, "n") {
      NeverFails(graph, id, body);
    }
    CascadePassesFrom(W, ANN, g, "n");
  }

  /** Whatever the state, this proposal's apply is refused with its cascade kept. */
  lemma Keeps(g: Gov)
    ensures KeepsCascade(W, ANN, g, Row(), "n")
  {
    RowReads();
    RowAsks();
    CascadePasses(g);
    KeepsFrom(W, ANN, g, Row(), "n");
  }

  lemma Unowned()
    ensures TargetProject(ABOUT_PID).None? && TargetProject("k").None?
  {
    assert ABOUT_PID[0] == 'c' && "urn:ckp:"[0] == 'u' && "k"[0] == 'k';
  }

  /** The gate admits the proposal where one named party approved and no project is
      declared. */
  lemma Admits(g: Gov)
    requires |g.store.order| >= 1 && g.store.order[0] == PID && PID in g.store.instances && g.store.instances[PID] == Row()
    requires |Approvers(W, g.store, ABOUT_PID)| >= 1
    requires QuorumFloor(W, g.store, Project(ANN)) == 1
    ensures ApplyGate(W, ANN, g, Some(ABOUT_PID)).Admitted? && ApplyGate(W, ANN, g, Some(ABOUT_PID)).pid == PID
  {
    Names();
    FoundFirst(g.store);
    RowReads();
    Unowned();
    GateAdmits(W, ANN, g, ABOUT_PID, PID);
  }

  /** The gate, opened condition by condition. */
  lemma GateAdmits(w: World, sess: Session, g: Gov, about: string, pid: string)
    requires IriLike(about) && TargetProject(about).None? && FindFirst(w, g.store, g.store.order, about, PROPOSAL_T) == Some(pid)
    requires pid in g.store.instances && !NotPendingState(w, g.store.instances[pid])
    requires MayEnact(w, sess, g.store, Field(w, g.store.instances[pid], ABOUT))
    requires var q := Field(w, g.store.instances[pid], REQUIRES_QUORUM); q.Some? ==> w.cast(q.value) == Some(1)
    requires QuorumFloor(w, g.store, Project(sess)) == 1 && |Approvers(w, g.store, about)| >= 1
    ensures var gate := ApplyGate(w, sess, g, Some(about)); gate.Admitted? && gate.pid == pid
  {
  }

  lemma FloorWithoutProject(w: World, s: Store, project: string)
    requires forall x :: x in s.order && x in s.instances ==> Field(w, s.instances[x], "type") != Some(PROJECT_T)
    ensures QuorumFloor(w, s, project) == 1
  {
  }

  lemma NoProject(s: Store)
    requires s.order == [PID] + [VoteId(0)] && PID in s.instances && VoteId(0) in s.instances
    requires s.instances[PID] == Row() && s.instances[VoteId(0)] == Ballot()
    ensures QuorumFloor(W, s, Project(ANN)) == 1
  {
    RowReads();
    BallotReads();
    TwoTypes(W, s, PID, VoteId(0));
  }

  lemma TwoTypes(w: World, s: Store, x: string, y: string)
    requires s.order == [x] + [y] && x in s.instances && y in s.instances
    requires Field(w, s.instances[x], "type") == Some(PROPOSAL_T) && Field(w, s.instances[y], "type") == Some(VOTE_T)
    ensures QuorumFloor(w, s, Project(ANN)) == 1
  {
    FloorWithoutProject(w, s, Project(ANN));
  }

  lemma BallotReads()
    ensures Field(W, Ballot(), "type") == Some(VOTE_T)
  {
    RecordKeysUnstamped();
    SealedField(W, ANN, VoteBody(0, ABOUT_PID, "approve"), "n", "type", VOTE_T);
  }

  /** The state before the first apply. */
  lemma Ready() returns (g1: Gov, g2: Gov)
    ensures g1 == After(W, START, PROPOSES) && g2 == After(W, g1, APPROVES)
    ensures Admissible(W, START, PROPOSES) && Admissible(W, g1, APPROVES) && GovWf(W, g2)
    ensures PID in g2.store.instances && g2.store.instances[PID] == Row() && g2.cache == NOTHING
    ensures ApplyGate(W, ANN, g2, Some(ABOUT_PID)).Admitted? && ApplyGate(W, ANN, g2, Some(ABOUT_PID)).pid == PID
  {
    WorldHolds();
    StartHolds(W, "");
    ProposedState();
    g1 := After(W, START, PROPOSES);
    ActKeeps(W, START, PROPOSES, "");
    assert VoteId(0)[0] == 'v' && PID[0] == 'p';
    g2 := After(W, g1, APPROVES);
    Readied(g1);
  }

  lemma Readied(g: Gov)
    requires GovWf(W, g) && g.store.instances == map[PID := Row()] && g.store.order == [PID] && VoteId(0) !in g.store.instances
    ensures var g2 := After(W, g, APPROVES);
      && GovWf(W, g2) && PID in g2.store.instances && g2.store.instances[PID] == Row() && g2.cache == g.cache
      && ApplyGate(W, ANN, g2, Some(ABOUT_PID)).Admitted? && ApplyGate(W, ANN, g2, Some(ABOUT_PID)).pid == PID
  {
    VotedState(g);
    WorldHolds();
    ActKeeps(W, g, APPROVES, "");
    Approved(g);
    var g2 := After(W, g, APPROVES);
    NoProject(g2.store);
    Admits(g2);
  }

  lemma VotedState(g: Gov)
    requires g.store.instances == map[PID := Row()] && g.store.order == [PID]
    ensures var r := Do(W, g, APPROVES);
      && r.reply.Done? && r.gov.cache == g.cache
      && r.gov.store.order == [PID] + [VoteId(0)] && PID in r.gov.store.instances && VoteId(0) in r.gov.store.instances
      && r.gov.store.instances[PID] == Row() && r.gov.store.instances[VoteId(0)] == Ballot()
  {
    Voted(g);
    VoteSealed(g);
    assert VoteId(0)[0] == 'v' && PID[0] == 'p';
    Beside(g.store.instances, PID, Row(), VoteId(0), Ballot());
  }

  lemma Beside(rows: map<string, Body>, x: string, a: Body, y: string, b: Body)
    requires rows == map[x := a] && x != y
    ensures var more := rows[y := b]; x in more && y in more && more[x] == a && more[y] == b
  {
  }

  lemma Approved(g: Gov)
    requires GovWf(W, g) && Admissible(W, g, APPROVES) && Do(W, g, APPROVES).reply.Done?
    ensures |Approvers(W, After(W, g, APPROVES).store, ABOUT_PID)| >= 1
  {
    WorldHolds();
    Names();
    ApproversAfter(W, g, APPROVES, ABOUT_PID);
    assert NamedParticipant(W, "ann") in Approvers(W, After(W, g, APPROVES).store, ABOUT_PID);
  }

  /** One refused apply, and the state the next one meets. */
  lemma OneRefusal(g: Gov)
    requires GovWf(W, g) && PID in g.store.instances && g.store.instances[PID] == Row()
    requires ApplyGate(W, ANN, g, Some(ABOUT_PID)).Admitted? && ApplyGate(W, ANN, g, Some(ABOUT_PID)).pid == PID
    ensures var r := Do(W, g, APPLIES);
      && r.reply.Refused? && Registration(r.reply.code)
      && LiveEpoch(r.gov, "demo") == BumpedTo(g, "demo") > LiveEpoch(g, "demo")
      && GovWf(W, r.gov) && Get(r.gov.store, PID) == Some(Row())
      && ApplyGate(W, ANN, r.gov, Some(ABOUT_PID)) == ApplyGate(W, ANN, g, Some(ABOUT_PID))
  {
    Names();
    WorldHolds();
    Keeps(g);
    RefusalRepeats(W, ANN, g, Some(ABOUT_PID), "n");
    RefusedKeepsProposal(W, ANN, g, Some(ABOUT_PID), "n");
    ActKeeps(W, g, APPLIES, "");
  }

  /** THE RUN. From the empty database, propose, vote and apply: the apply is refused
      and the live epoch is 2; applying once more is refused again and it is 3. */
  lemma RefusedYetMoved() returns (g2: Gov)
    ensures g2 == RunTo(W, START, [PROPOSES, APPROVES]) && AdmissibleRun(W, START, [PROPOSES, APPROVES, APPLIES, APPLIES])
    ensures LiveEpoch(g2, "demo") == 0
    ensures Do(W, g2, APPLIES).reply.Refused? && LiveEpoch(After(W, g2, APPLIES), "demo") == 2
    ensures var g3 := After(W, g2, APPLIES); Do(W, g3, APPLIES).reply.Refused? && LiveEpoch(After(W, g3, APPLIES), "demo") == 3
  {
    var g1;
    g1, g2 := Ready();
    OneRefusal(g2);
    var g3 := After(W, g2, APPLIES);
    assert g3.store.instances[PID] == Row() by { assert Get(g3.store, PID) == Some(Row()); }
    OneRefusal(g3);
    RunsThrough(START, PROPOSES, APPROVES, APPLIES);
  }

  lemma RunsThrough(g: Gov, a: Act, b: Act, c: Act)
    requires Admissible(W, g, a) && Admissible(W, After(W, g, a), b) && c.Enaction?
    ensures RunTo(W, g, [a, b]) == After(W, After(W, g, a), b) && AdmissibleRun(W, g, [a, b, c, c])
  {
    var g1 := After(W, g, a);
    var g2 := After(W, g1, b);
    assert [a, b][1..] == [b] && [b][1..] == [];
    assert RunTo(W, g1, [b]) == g2;
    assert [a, b, c, c][1..] == [b, c, c] && [b, c, c][1..] == [c, c] && [c, c][1..] == [c] && [c][1..] == [];
    assert AdmissibleRun(W, After(W, g2, c), [c]);
    assert AdmissibleRun(W, g2, [c, c]);
    assert AdmissibleRun(W, g1, [b, c, c]);
  }
}
