/** Governance safety over every run of propose, vote and apply, interleaved with
    ordinary seals, typed patches of ordinary rows and plan executions. */
module GovernanceSafety {
  import opened Text
  import opened Facts
  import opened Ledger
  import opened Plans
  import opened Governance
  import opened GovernanceFrames
  import opened GovernanceRuns
  import Normalise

  datatype Act =
    | Propose(sess: Session, kernelUrn: Option<string>, payload: Body, tick: nat, nonce: string)
    | Vote(sess: Session, about: Option<string>, value: Option<string>, tick: nat, nonce: string)
    | Enaction(sess: Session, about: Option<string>, nonce: string)
    | Update(sess: Session, ref: Option<string>, patch: Option<seq<(string, Json)>>, nonce: string)
    | SealRow(sess: Session, id: string, body: Body, nonce: string)
    | PlanRun(kernel: string, verb: string)

  function Do(w: World, g: Gov, a: Act): Outcome {
    match a
    case Propose(sess, urn, payload, tick, nonce) => ProposeChange(w, sess, g, urn, payload, tick, nonce)
    case Vote(sess, about, value, tick, nonce) => CastVote(w, sess, g, about, value, tick, nonce)
    case Enaction(sess, about, nonce) => Apply(w, sess, g, about, nonce)
    case Update(sess, ref, patch, nonce) => UpdateTyped(w, sess, g, ref, patch, nonce)
    case SealRow(sess, id, body, nonce) => SealCall(w, sess, g, id, body, nonce)
    case PlanRun(kernel, verb) => Outcome(g.(cache := AfterExec(g.cache, kernel, verb)), Done(kernel))
  }

  /** Clock-made ids are fresh; ordinary writes stay off the governed rows. */
  ghost predicate Admissible(w: World, g: Gov, a: Act) {
    match a
    case Propose(_, _, _, tick, _) => ProposalId(tick) !in g.store.instances
    case Vote(_, _, _, tick, _) => VoteId(tick) !in g.store.instances
    case Enaction(_, _, _) => true
    case Update(_, ref, _, _) => ref.Some? && ResolveId(w, g.store, ref.value) in g.store.instances ==> !Reserved(ResolveId(w, g.store, ref.value))
    case SealRow(_, id, body, _) => Ordinary(w, id, body)
    case PlanRun(_, _) => true
  }

  function After(w: World, g: Gov, a: Act): Gov { Do(w, g, a).gov }

  function RunTo(w: World, g: Gov, acts: seq<Act>): Gov
    decreases |acts|
  {
    if acts == [] then g else RunTo(w, After(w, g, acts[0]), acts[1..])
  }

  ghost predicate AdmissibleRun(w: World, g: Gov, acts: seq<Act>)
    decreases |acts|
  {
    acts != [] ==> Admissible(w, g, acts[0]) && AdmissibleRun(w, After(w, g, acts[0]), acts[1..])
  }

  // ----------------------------------------------------------- one act, row by row

  lemma SealCallRows(w: World, sess: Session, g: Gov, id: string, body: Body, nonce: string, x: string)
    ensures var r := SealCall(w, sess, g, id, body, nonce);
      Get(r.gov.store, x) == if x == id && r.reply.Done? then Some(Canonical(w, sess, body, nonce)) else Get(g.store, x)
  {
    SealRows(w, sess, g, id, body, nonce, x);
  }

  lemma SealCallWf(w: World, sess: Session, g: Gov, id: string, body: Body, nonce: string)
    requires GovWf(w, g) && RowWf(w, id, body)
    ensures GovWf(w, SealCall(w, sess, g, id, body, nonce).gov)
  {
    CanonicalWf(w, sess, id, body, nonce);
    SealWf(w, sess, g, id, body, nonce);
  }

  lemma ProposalBodyWf(w: World, tick: nat, about: string, op: string, quorum: nat, detail: Json)
    ensures var b := ProposalBody(tick, about, op, quorum, detail);
      RowWf(w, ProposalId(tick), b) && Field(w, b, PROPOSAL_STATE) == Some("pending")
  {
    PrintEndsInDigit("proposal-", tick);
    assert "ckp://Proposal#" + ProposalId(tick) == ("ckp://Proposal#" + "proposal-") + Print(tick);
    PrintEndsInDigit("ckp://Proposal#" + "proposal-", tick);
    assert ProposalId(tick)[0] == 'p';
  }

  lemma VoteBodyWf(w: World, tick: nat, about: string, value: string)
    ensures RowWf(w, VoteId(tick), VoteBody(tick, about, value))
  {
    PrintEndsInDigit("vote-", tick);
    assert "ckp://Vote#" + VoteId(tick) == ("ckp://Vote#" + "vote-") + Print(tick);
    PrintEndsInDigit("ckp://Vote#" + "vote-", tick);
    assert VoteId(tick)[0] == 'v';
  }

  /** A carried-out intent writes at most the one row it names. */
  lemma CarryOutRows(w: World, sess: Session, g: Gov, id: string, i: Intent, nonce: string, x: string)
    requires GovWf(w, g) && (i.Write? ==> RowWf(w, id, i.body))
    ensures var r := CarryOut(w, sess, g, id, i, nonce);
      && GovWf(w, r.gov)
      && (r.reply.Done? ==> i.Write?)
      && Get(r.gov.store, x) == if x == id && r.reply.Done? then Some(Canonical(w, sess, i.body, nonce)) else Get(g.store, x)
  {
    if i.Write? {
      SealCallWf(w, sess, g, id, i.body, nonce);
      SealCallRows(w, sess, g, id, i.body, nonce, x);
    }
  }

  lemma ProposeIntentWf(w: World, urn: Option<string>, payload: Body, tick: nat)
    ensures var i := ProposeIntent(w, urn, payload, tick);
      i.Write? ==> RowWf(w, ProposalId(tick), i.body) && Field(w, i.body, PROPOSAL_STATE) == Some("pending")
  {
    var i := ProposeIntent(w, urn, payload, tick);
    if i.Write? {
      var asked := Field(w, payload, "requires_quorum");
      ProposalBodyWf(w, tick, OrElse(Field(w, payload, "about"), urn).value, Field(w, payload, "op").value,
                     if asked.None? then 1 else w.cast(asked.value).value,
                     if "detail" in payload then payload["detail"] else Obj(map[]));
    }
  }

  /** `propose_change` writes at most one row: a pending proposal. */
  lemma ProposeRows(w: World, sess: Session, g: Gov, urn: Option<string>, payload: Body, tick: nat, nonce: string, x: string)
    requires GovWf(w, g)
    ensures var r := ProposeChange(w, sess, g, urn, payload, tick, nonce);
      && GovWf(w, r.gov)
      && (Get(r.gov.store, x) == Get(g.store, x)
          || (x == ProposalId(tick) && x in r.gov.store.instances && Field(w, r.gov.store.instances[x], PROPOSAL_STATE) == Some("pending")))
  {
    var i := ProposeIntent(w, urn, payload, tick);
    ProposeIntentWf(w, urn, payload, tick);
    CarryOutRows(w, sess, g, ProposalId(tick), i, nonce, x);
    if i.Write? {
      RecordKeysUnstamped();
      CanonicalKeeps(w, sess, i.body, nonce, PROPOSAL_STATE);
    }
  }

  lemma AbortKeepsRows(g: Gov, after: Store, x: string)
    ensures Get(Abort(g, after).gov.store, x) == Get(g.store, x)
  {
  }

  /** `vote` writes at most one row: the vote. */
  lemma VoteRows(w: World, sess: Session, g: Gov, about: Option<string>, value: Option<string>, tick: nat, nonce: string, x: string)
    requires GovWf(w, g)
    ensures var r := CastVote(w, sess, g, about, value, tick, nonce);
      && GovWf(w, r.gov)
      && (!r.reply.Done? ==> Get(r.gov.store, x) == Get(g.store, x))
      && (r.reply.Done? ==>
           (about.Some? && value.Some?
            && Get(r.gov.store, x) == if x == VoteId(tick) then Some(Canonical(w, sess, VoteBody(tick, about.value, value.value), nonce)) else Get(g.store, x)))
  {
    var i := VoteIntent(w, g.store, about, value, tick);
    VoteIntentBody(w, g.store, about, value, tick);
    if i.Write? {
      VoteBodyWf(w, tick, about.value, value.value);
    }
    CarryOutRows(w, sess, g, VoteId(tick), i, nonce, x);
  }

  lemma VoteIntentBody(w: World, s: Store, about: Option<string>, value: Option<string>, tick: nat)
    ensures var i := VoteIntent(w, s, about, value, tick);
      i.Write? ==> about.Some? && value.Some? && i.body == VoteBody(tick, about.value, value.value)
  {
  }

  /** The only ways a ballot row can come to differ. */
  ghost predicate BallotChange(w: World, g: Gov, a: Act, x: string) {
    var r := Do(w, g, a);
    || Get(r.gov.store, x) == Get(g.store, x)
    || (a.Propose? && x == ProposalId(a.tick) && x in r.gov.store.instances
        && Field(w, r.gov.store.instances[x], PROPOSAL_STATE) == Some("pending"))
    || (a.Vote? && r.reply.Done? && x == VoteId(a.tick) && a.about.Some? && a.value.Some?
        && Get(r.gov.store, x) == Some(Canonical(w, a.sess, VoteBody(a.tick, a.about.value, a.value.value), a.nonce)))
    || (a.Enaction? && r.reply.Enacted? && x == r.reply.pid && x in g.store.instances)
  }

  lemma ActKeeps(w: World, g: Gov, a: Act, x: string)
    requires WorldOk(w) && GovWf(w, g) && Admissible(w, g, a)
    ensures GovWf(w, After(w, g, a)) && (Ballot(x) ==> BallotChange(w, g, a, x))
  {
    match a
    case Propose(sess, urn, payload, tick, nonce) => ProposeRows(w, sess, g, urn, payload, tick, nonce, x);
    case Vote(sess, about, value, tick, nonce) => VoteRows(w, sess, g, about, value, tick, nonce, x);
    case Enaction(sess, about, nonce) => ApplyEffect(w, sess, g, about, nonce, x);
    case Update(sess, ref, patch, nonce) =>
      UpdateRows(w, sess, g, ref, patch, nonce, x);
      UpdateWf(w, sess, g, ref, patch, nonce);
    case SealRow(sess, id, body, nonce) =>
      OrdinarySealKeeps(w, sess, g, id, body, nonce, x);
      AbortKeepsRows(g, SealIn(w, sess, g, id, body, nonce).store, x);
    case PlanRun(kernel, verb) =>
  }

  // --------------------------------------------------------------- who approved

  lemma CleanNotAnon(u: string)
    requires forall i :: 0 <= i < |u| ==> Normalise.AlnumOrHyphen(u[i])
    ensures !IsAnon(PARTICIPANT_IRI + u)
  {
    var iri := PARTICIPANT_IRI + u;
    assert |iri| > 24 ==> iri[24] == u[4];
    assert ANON_IRI[24] == ':';
  }

  /** A verified name never reads as an anonymous participant. */
  lemma NamedNotAnon(w: World, name: string)
    ensures !IsAnon(NamedParticipant(w, name))
  {
    Normalise.UrnShape(name, w.lower);
    CleanNotAnon(Normalise.UrnNormalise(name, w.lower));
  }

  lemma VotesAreNotProposals()
    ensures forall t: nat :: !("proposal-" <= VoteId(t))
  {
    forall t: nat ensures !("proposal-" <= VoteId(t)) {
      assert VoteId(t)[0] == 'v';
    }
  }

  /** The approval an act contributes to a proposal: one named party, or none. */
  function Approval(w: World, g: Gov, a: Act, about: string): set<string> {
    if a.Vote? && Do(w, g, a).reply.Done? && a.about == Some(about) && a.value == Some("approve") && Trimmed(a.sess.requester).Some?
    then {NamedParticipant(w, Trimmed(a.sess.requester).value)} else {}
  }

  /** A sealed vote counts for its verified caller, and never when anonymous. */
  lemma VoteCounts(w: World, sess: Session, tick: nat, voted: string, value: string, nonce: string, about: string)
    ensures var b := Canonical(w, sess, VoteBody(tick, voted, value), nonce);
      var who := Field(w, b, CREATED_BY);
      && who.Some?
      && (ApproveVote(w, b, about) <==> voted == about && value == "approve")
      && (IsAnon(who.value) <==> Trimmed(sess.requester).None?)
      && (Trimmed(sess.requester).Some? ==> who.value == NamedParticipant(w, Trimmed(sess.requester).value))
  {
    var v := VoteBody(tick, voted, value);
    RecordKeysUnstamped();
    CanonicalStamps(w, sess, v, nonce);
    CanonicalKeeps(w, sess, v, nonce, "type");
    CanonicalKeeps(w, sess, v, nonce, ABOUT);
    CanonicalKeeps(w, sess, v, nonce, VOTE_VALUE);
    assert "participant" !in v;
    assert Identified(w, sess, v) == Trimmed(sess.requester);
    if Trimmed(sess.requester).Some? {
      NamedNotAnon(w, Trimmed(sess.requester).value);
    }
  }

  lemma CountsOnlyVotes(w: World, s: Store, about: string, x: string)
    requires StoreWf(w, s) && Counts(w, s, about, x)
    ensures "vote-" <= x
  {
    assert RowWf(w, x, s.instances[x]);
  }

  /** Whether row `x` counts after an act, in terms of before. */
  lemma CountsAfter(w: World, g: Gov, a: Act, about: string, x: string)
    requires WorldOk(w) && GovWf(w, g) && Admissible(w, g, a)
    ensures var s' := After(w, g, a).store;
      Counts(w, s', about, x) <==>
        Counts(w, g.store, about, x) || (Approval(w, g, a, about) != {} && x == VoteId(a.tick))
    ensures Counts(w, g.store, about, x) ==> Get(After(w, g, a).store, x) == Get(g.store, x)
    ensures Approval(w, g, a, about) != {} ==>
      var row := Get(After(w, g, a).store, VoteId(a.tick));
      row.Some? && Field(w, row.value, CREATED_BY) == Some(NamedParticipant(w, Trimmed(a.sess.requester).value))
  {
    ActKeeps(w, g, a, x);
    var s' := After(w, g, a).store;
    if Counts(w, g.store, about, x) { CountsOnlyVotes(w, g.store, about, x); }
    if Counts(w, s', about, x) { CountsOnlyVotes(w, s', about, x); }
    EnactedIsProposal(w, g, a);
    if a.Vote? && Do(w, g, a).reply.Done? {
      ActKeeps(w, g, a, VoteId(a.tick));
      VoteRows(w, a.sess, g, a.about, a.value, a.tick, a.nonce, VoteId(a.tick));
      VoteCounts(w, a.sess, a.tick, a.about.value, a.value.value, a.nonce, about);
    }
    if "vote-" <= x { assert x[0] == 'v'; }
  }

  lemma EnactedIsProposal(w: World, g: Gov, a: Act)
    requires WorldOk(w) && GovWf(w, g)
    ensures a.Enaction? && Do(w, g, a).reply.Enacted? ==>
      var gate := ApplyGate(w, a.sess, g, a.about);
      gate.Admitted? && Do(w, g, a).reply.pid == gate.pid && gate.pid in g.store.instances && "proposal-" <= gate.pid
  {
    if a.Enaction? {
      var gate := ApplyGate(w, a.sess, g, a.about);
      if gate.Admitted? {
        assert RowWf(w, gate.pid, g.store.instances[gate.pid]);
        EnactEffect(w, a.sess, g, gate, a.nonce, gate.pid);
      }
    }
  }

  /** One act changes a proposal's approvers by exactly its own approval: a
      repeated or anonymous vote, and any other act, changes nothing. */
  lemma ApproversAfter(w: World, g: Gov, a: Act, about: string)
    requires WorldOk(w) && GovWf(w, g) && Admissible(w, g, a)
    ensures Approvers(w, After(w, g, a).store, about) == Approvers(w, g.store, about) + Approval(w, g, a, about)
  {
    ApproversOnlyGrow(w, g, a, about);
    ApproversOldOrOwn(w, g, a, about);
  }

  lemma ApproversOldOrOwn(w: World, g: Gov, a: Act, about: string)
    requires WorldOk(w) && GovWf(w, g) && Admissible(w, g, a)
    ensures Approvers(w, After(w, g, a).store, about) <= Approvers(w, g.store, about) + Approval(w, g, a, about)
  {
    var s, s' := g.store, After(w, g, a).store;
    forall who | who in Approvers(w, s', about) ensures who in Approvers(w, s, about) + Approval(w, g, a, about) {
      var x :| x in s'.instances && Counts(w, s', about, x) && who == Field(w, s'.instances[x], CREATED_BY).value;
      CountsAfter(w, g, a, about, x);
      if Counts(w, s, about, x) {
        assert Get(s', x) == Get(s, x);
        assert who == Field(w, s.instances[x], CREATED_BY).value;
      }
    }
  }

  lemma ApproversOnlyGrow(w: World, g: Gov, a: Act, about: string)
    requires WorldOk(w) && GovWf(w, g) && Admissible(w, g, a)
    ensures Approvers(w, g.store, about) + Approval(w, g, a, about) <= Approvers(w, After(w, g, a).store, about)
  {
    var s, s' := g.store, After(w, g, a).store;
    forall who | who in Approvers(w, s, about) ensures who in Approvers(w, s', about) {
      var x :| x in s.instances && Counts(w, s, about, x) && who == Field(w, s.instances[x], CREATED_BY).value;
      CountsAfter(w, g, a, about, x);
      assert Get(s', x) == Get(s, x);
      assert Counts(w, s', about, x);
    }
    forall who | who in Approval(w, g, a, about) ensures who in Approvers(w, s', about) {
      CountsAfter(w, g, a, about, VoteId(a.tick));
      assert Counts(w, s', about, VoteId(a.tick));
    }
  }

  /** Everyone whose approving vote on `about` was accepted, and sealed under a
      verified identity, in a run. */
  function Voters(w: World, g: Gov, acts: seq<Act>, about: string): set<string>
    decreases |acts|
  {
    if acts == [] then {} else Approval(w, g, acts[0], about) + Voters(w, After(w, g, acts[0]), acts[1..], about)
  }

  /** Over any run the approvers are exactly those there were and those whose
      accepted votes the run added. */
  lemma {:induction false} ApproversVoted(w: World, g: Gov, acts: seq<Act>, about: string)
    requires WorldOk(w) && GovWf(w, g) && AdmissibleRun(w, g, acts)
    ensures GovWf(w, RunTo(w, g, acts))
    ensures Approvers(w, RunTo(w, g, acts).store, about) == Approvers(w, g.store, about) + Voters(w, g, acts, about)
    decreases |acts|
  {
    if acts != [] {
      ApproversAfter(w, g, acts[0], about);
      ActKeeps(w, g, acts[0], "");
      ApproversVoted(w, After(w, g, acts[0]), acts[1..], about);
    }
  }

  // --------------------------------------------------------------- becoming applied

  ghost predicate IsApplied(w: World, s: Store, pid: string) {
    pid in s.instances && Field(w, s.instances[pid], PROPOSAL_STATE) == Some("applied")
  }

  /** The bar a proposal has to clear: what it sealed, or the project's floor. */
  function Bar(w: World, s: Store, project: string, prop: Body): int {
    var asked := Field(w, prop, REQUIRES_QUORUM);
    var q := if asked.None? then Some(1) else w.cast(asked.value);
    var floor := QuorumFloor(w, s, project);
    if q.None? || q.value < floor then floor else q.value
  }

  /** Everything that must hold of the state in which a proposal is enacted. */
  ghost predicate Permitted(w: World, g: Gov, sess: Session, pid: string) {
    && pid in g.store.instances
    && var prop := g.store.instances[pid];
    && Field(w, prop, PROPOSAL_STATE) == Some("pending")
    && Field(w, prop, "@id").Some?
    && (Field(w, prop, REQUIRES_QUORUM).Some? ==> w.cast(Field(w, prop, REQUIRES_QUORUM).value).Some?)
    && |Approvers(w, g.store, Field(w, prop, "@id").value)| >= Bar(w, g.store, Project(sess), prop)
    && MayEnact(w, sess, g.store, Field(w, prop, ABOUT))
    && MayEnact(w, sess, g.store, Field(w, prop, "@id"))
  }

  lemma GatePermits(w: World, sess: Session, g: Gov, about: Option<string>)
    requires GovWf(w, g) && ApplyGate(w, sess, g, about).Admitted?
    ensures Permitted(w, g, sess, ApplyGate(w, sess, g, about).pid)
  {
    var gate := ApplyGate(w, sess, g, about);
    assert RowWf(w, gate.pid, g.store.instances[gate.pid]);
  }

  /** The single step into `applied`: an enaction, from pending, with the quorum
      met and by the declared owner where there is one. */
  lemma StepIntoApplied(w: World, g: Gov, a: Act, pid: string)
    requires WorldOk(w) && GovWf(w, g) && Admissible(w, g, a) && "proposal-" <= pid
    requires !IsApplied(w, g.store, pid) && IsApplied(w, After(w, g, a).store, pid)
    ensures a.Enaction? && Permitted(w, g, a.sess, pid)
  {
    ActKeeps(w, g, a, pid);
    EnactedIsProposal(w, g, a);
    VotesAreNotProposals();
    assert Get(After(w, g, a).store, pid) != Get(g.store, pid);
    if a.Enaction? {
      GatePermits(w, a.sess, g, a.about);
    }
  }

  /** An applied proposal is never touched again. */
  lemma StepFromApplied(w: World, g: Gov, a: Act, pid: string)
    requires WorldOk(w) && GovWf(w, g) && Admissible(w, g, a) && "proposal-" <= pid
    requires IsApplied(w, g.store, pid)
    ensures Get(After(w, g, a).store, pid) == Get(g.store, pid)
  {
    ActKeeps(w, g, a, pid);
    EnactedIsProposal(w, g, a);
    VotesAreNotProposals();
    if a.Enaction? && Do(w, g, a).reply.Enacted? {
      GatePermits(w, a.sess, g, a.about);
    }
  }

  lemma {:induction false} AppliedForever(w: World, g: Gov, acts: seq<Act>, pid: string)
    requires WorldOk(w) && GovWf(w, g) && AdmissibleRun(w, g, acts) && "proposal-" <= pid
    requires IsApplied(w, g.store, pid)
    ensures Get(RunTo(w, g, acts).store, pid) == Get(g.store, pid)
    decreases |acts|
  {
    if acts != [] {
      StepFromApplied(w, g, acts[0], pid);
      ActKeeps(w, g, acts[0], pid);
      AppliedForever(w, After(w, g, acts[0]), acts[1..], pid);
    }
  }

  lemma RunPrefix(w: World, g: Gov, acts: seq<Act>, i: nat)
    requires i < |acts|
    ensures RunTo(w, g, acts[..i + 1]) == RunTo(w, After(w, g, acts[0]), acts[1..][..i])
  {
    assert acts[..i + 1][1..] == acts[1..][..i];
  }

  /** The moment a proposal became applied, and that nothing touched it since. */
  lemma {:induction false} EnactedAt(w: World, g: Gov, acts: seq<Act>, pid: string) returns (i: nat)
    requires WorldOk(w) && GovWf(w, g) && AdmissibleRun(w, g, acts) && "proposal-" <= pid
    requires !IsApplied(w, g.store, pid) && IsApplied(w, RunTo(w, g, acts).store, pid)
    ensures i < |acts| && acts[i].Enaction?
    ensures var at := RunTo(w, g, acts[..i]);
      Permitted(w, at, acts[i].sess, pid) && Get(RunTo(w, g, acts).store, pid) == Get(After(w, at, acts[i]).store, pid)
    decreases |acts|
  {
    var next := After(w, g, acts[0]);
    ActKeeps(w, g, acts[0], pid);
    if IsApplied(w, next.store, pid) {
      i := 0;
      StepIntoApplied(w, g, acts[0], pid);
      AppliedForever(w, next, acts[1..], pid);
      assert RunTo(w, g, acts[..0]) == g;
    } else {
      var j := EnactedAt(w, next, acts[1..], pid);
      i := j + 1;
      RunPrefix(w, g, acts, j);
    }
  }

  lemma {:induction false} AdmissiblePrefix(w: World, g: Gov, acts: seq<Act>, i: nat)
    requires AdmissibleRun(w, g, acts) && i <= |acts|
    ensures AdmissibleRun(w, g, acts[..i])
    decreases |acts|
  {
    if i > 0 {
      AdmissiblePrefix(w, After(w, g, acts[0]), acts[1..], i - 1);
      assert acts[..i][1..] == acts[1..][..i - 1];
    }
  }

  /** GOVERNANCE SAFETY. In any run, a proposal that ends applied was enacted at one
      moment: from pending, with the quorum of distinct named parties whose votes were
      accepted in the run (or before it), enacted by the declared owner when its target
      declares one; and from that moment its row never changes again. */
  lemma AppliedWasGoverned(w: World, g: Gov, acts: seq<Act>, pid: string) returns (i: nat, about: string)
    requires WorldOk(w) && GovWf(w, g) && AdmissibleRun(w, g, acts) && "proposal-" <= pid
    requires !IsApplied(w, g.store, pid) && IsApplied(w, RunTo(w, g, acts).store, pid)
    ensures i < |acts| && acts[i].Enaction?
    ensures var at := RunTo(w, g, acts[..i]);
      && Permitted(w, at, acts[i].sess, pid)
      && Field(w, at.store.instances[pid], "@id") == Some(about)
      && Approvers(w, at.store, about) == Approvers(w, g.store, about) + Voters(w, g, acts[..i], about)
      && Get(RunTo(w, g, acts).store, pid) == Get(After(w, at, acts[i]).store, pid)
  {
    i := EnactedAt(w, g, acts, pid);
    about := Field(w, RunTo(w, g, acts[..i]).store.instances[pid], "@id").value;
    AdmissiblePrefix(w, g, acts, i);
    ApproversVoted(w, g, acts[..i], about);
  }

  /** At most once: two enactions of one proposal never both succeed in a run. */
  lemma EnactedOnce(w: World, g: Gov, a: Act, acts: seq<Act>, b: Act, pid: string)
    requires WorldOk(w) && GovWf(w, g) && Admissible(w, g, a) && AdmissibleRun(w, After(w, g, a), acts)
    requires a.Enaction? && Do(w, g, a).reply.Enacted? && Do(w, g, a).reply.pid == pid
    requires b.Enaction?
    ensures var later := Do(w, RunTo(w, After(w, g, a), acts), b).reply;
      later.Enacted? ==> later.pid != pid
  {
    var g1 := After(w, g, a);
    EnactedIsProposal(w, g, a);
    ApplyEffect(w, a.sess, g, a.about, a.nonce, pid);
    EnactedIsApplied(w, g, a, pid);
    ActKeeps(w, g, a, pid);
    AppliedForever(w, g1, acts, pid);
    ApproversVoted(w, g1, acts, "");
    var g2 := RunTo(w, g1, acts);
    EnactedIsProposal(w, g2, b);
    if Do(w, g2, b).reply.Enacted? {
      GatePermits(w, b.sess, g2, b.about);
    }
  }

  lemma EnactedIsApplied(w: World, g: Gov, a: Act, pid: string)
    requires WorldOk(w) && GovWf(w, g) && a.Enaction? && Do(w, g, a).reply.Enacted? && Do(w, g, a).reply.pid == pid
    ensures IsApplied(w, After(w, g, a).store, pid)
    ensures Field(w, After(w, g, a).store.instances[pid], APPLIED_EPOCH) == Some(Print(Do(w, g, a).reply.epoch))
  {
    EnactedIsProposal(w, g, a);
    ApplyEffect(w, a.sess, g, a.about, a.nonce, pid);
    var body := AppliedBody(g.store.instances[pid], Do(w, g, a).reply.epoch);
    assert RowWf(w, pid, g.store.instances[pid]);
    AppliedWf(w, pid, g.store.instances[pid], Do(w, g, a).reply.epoch);
    RecordKeysUnstamped();
    CanonicalKeeps(w, a.sess, body, a.nonce, PROPOSAL_STATE);
    CanonicalKeeps(w, a.sess, body, a.nonce, APPLIED_EPOCH);
  }
}
