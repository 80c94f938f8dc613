/** What `propose_change` and `vote` accept, and what the rows they seal say, in terms
    of the payload. */
module Recorded {
  import opened Text
  import opened Facts
  import opened Ledger
  import opened Governance
  import opened GovernanceFrames
  import opened GovernanceSafety
  import opened OwnerGate

  // ------------------------------------------------------------------ accepted text

  /** Every proposal this system mints can be voted on and applied by its IRI. */
  lemma MintedIsAddressable(tick: nat)
    ensures IriLike("ckp://Proposal#proposal-" + Print(tick))
  {
    var pre, n := "ckp://Proposal#proposal-", Print(tick);
    var s := pre + n;
    forall i | 0 <= i < |s| ensures IsLetter(s[i]) || IsDigit(s[i]) || s[i] in "+.:#/_-" {
      if i >= |pre| {
        assert s[i] == n[i - |pre|];
      } else {
        assert s[i] == pre[i];
      }
    }
  }

  /** An accepted IRI cannot leave the angle brackets of the Turtle built from it. */
  lemma AcceptedIsSafe(s: string, i: nat)
    requires IriLike(s) && i < |s|
    ensures s[i] != '>' && s[i] != '<' && s[i] != '"' && s[i] != '\\' && s[i] != '{' && s[i] != '}' && !IsWhite(s[i])
  {
  }

  // ---------------------------------------------------------------------- proposals

  /** What a payload asks for: its own target or else the kernel's, its quorum or 1. */
  function AskedAbout(w: World, payload: Body, urn: Option<string>): Option<string> {
    if Field(w, payload, "about").Some? then Field(w, payload, "about") else urn
  }

  function AskedQuorum(w: World, payload: Body): Option<int> {
    if Field(w, payload, "requires_quorum").None? then Some(1) else w.cast(Field(w, payload, "requires_quorum").value)
  }

  predicate KnownOp(op: string) {
    || op == "add_class" || op == "add_property" || op == "modify_shape_constraint" || op == "add_affordance"
    || op == "set_transition_map" || op == "set_quorum" || op == "set_materialize_policy"
    || op == "set_kernel_policy" || op == "add_proof_obligation"
  }

  lemma OpsAre(op: string)
    ensures op in OPS <==> KnownOp(op)
  {
    if op in OPS {
      var i :| 0 <= i < |OPS| && OPS[i] == op;
    }
    assert OPS[0] == "add_class" && OPS[1] == "add_property" && OPS[2] == "modify_shape_constraint" && OPS[3] == "add_affordance";
    assert OPS[4] == "set_transition_map" && OPS[5] == "set_quorum" && OPS[6] == "set_materialize_policy";
    assert OPS[7] == "set_kernel_policy" && OPS[8] == "add_proof_obligation";
  }

  /** The field gates of a proposal call. */
  ghost predicate FieldsOk(w: World, payload: Body, urn: Option<string>) {
    var op, about, quorum := Field(w, payload, "op"), AskedAbout(w, payload, urn), AskedQuorum(w, payload);
    op.Some? && KnownOp(op.value) && about.Some? && IriLike(about.value) && quorum.Some? && quorum.value >= 1
  }

  lemma IntentExactly(w: World, urn: Option<string>, payload: Body, tick: nat)
    ensures var i, op, about := ProposeIntent(w, urn, payload, tick), Field(w, payload, "op"), AskedAbout(w, payload, urn);
      && (i == Refuse(UnknownOp) <==> op.None? || !KnownOp(op.value))
      && (i == Refuse(InvalidAbout) <==> op.Some? && KnownOp(op.value) && (about.None? || !IriLike(about.value)))
      && (i.Write? ==> FieldsOk(w, payload, urn))
      && (FieldsOk(w, payload, urn) ==> i.Write? || i == Refuse(ShapeViolation))
  {
    var op := Field(w, payload, "op");
    if op.Some? {
      OpsAre(op.value);
    }
  }

  /** What a proposal's body says before it is sealed. */
  ghost predicate Asks(b: Body, pid: string, about: string, op: string, quorum: nat, detail: Json) {
    && "type" in b && b["type"] == Str("ckp:core#Proposal") && "@id" in b && b["@id"] == Str("ckp://Proposal#" + pid)
    && ABOUT in b && b[ABOUT] == Str(about) && PROPOSAL_OP in b && b[PROPOSAL_OP] == Str(op)
    && PROPOSAL_STATE in b && b[PROPOSAL_STATE] == Str("pending")
    && REQUIRES_QUORUM in b && b[REQUIRES_QUORUM] == Str(Print(quorum)) && "proposalDetail" in b && b["proposalDetail"] == detail
  }

  lemma BodyAsks(tick: nat, about: string, op: string, quorum: nat, detail: Json)
    ensures Asks(ProposalBody(tick, about, op, quorum, detail), "proposal-" + Print(tick), about, op, quorum, detail)
  {
  }

  function AskedDetail(payload: Body): Json {
    if "detail" in payload then payload["detail"] else Obj(map[])
  }

  lemma IntentSays(w: World, urn: Option<string>, payload: Body, tick: nat)
    requires ProposeIntent(w, urn, payload, tick).Write?
    ensures FieldsOk(w, payload, urn)
    ensures Asks(ProposeIntent(w, urn, payload, tick).body, "proposal-" + Print(tick), AskedAbout(w, payload, urn).value,
                 Field(w, payload, "op").value, AskedQuorum(w, payload).value, AskedDetail(payload))
  {
    IntentExactly(w, urn, payload, tick);
    BodyAsks(tick, AskedAbout(w, payload, urn).value, Field(w, payload, "op").value, AskedQuorum(w, payload).value, AskedDetail(payload));
  }

  /** What a sealed proposal row says. */
  ghost predicate Says(w: World, b: Body, pid: string, about: string, op: string, quorum: nat, detail: Json) {
    && Field(w, b, "type") == Some("ckp:core#Proposal") && Field(w, b, "@id") == Some("ckp://Proposal#" + pid)
    && Field(w, b, ABOUT) == Some(about) && Field(w, b, PROPOSAL_OP) == Some(op)
    && Field(w, b, PROPOSAL_STATE) == Some("pending") && Field(w, b, REQUIRES_QUORUM) == Some(Print(quorum))
    && "proposalDetail" in b && b["proposalDetail"] == detail
  }

  lemma SealedSays(w: World, sess: Session, b: Body, nonce: string, pid: string, about: string, op: string, quorum: nat, detail: Json)
    requires Asks(b, pid, about, op, quorum, detail)
    ensures Says(w, Canonical(w, sess, b, nonce), pid, about, op, quorum, detail)
  {
    RecordKeysUnstamped();
    SealedField(w, sess, b, nonce, "type", "ckp:core#Proposal");
    SealedField(w, sess, b, nonce, "@id", "ckp://Proposal#" + pid);
    SealedField(w, sess, b, nonce, ABOUT, about);
    SealedField(w, sess, b, nonce, PROPOSAL_OP, op);
    SealedField(w, sess, b, nonce, PROPOSAL_STATE, "pending");
    SealedField(w, sess, b, nonce, REQUIRES_QUORUM, Print(quorum));
    CanonicalKeeps(w, sess, b, nonce, "proposalDetail");
  }

  /** A PROPOSAL RECORDS WHAT WAS ASKED. On success the new row carries the payload's
      target, op, quorum and detail, with their defaults, and its own IRI. */
  lemma ProposalRecords(w: World, sess: Session, g: Gov, urn: Option<string>, payload: Body, tick: nat, nonce: string)
    requires ProposeChange(w, sess, g, urn, payload, tick, nonce).reply.Done?
    ensures var r, pid := ProposeChange(w, sess, g, urn, payload, tick, nonce), "proposal-" + Print(tick);
      && FieldsOk(w, payload, urn) && r.reply.id == pid && pid in r.gov.store.instances
      && Says(w, r.gov.store.instances[pid], pid, AskedAbout(w, payload, urn).value, Field(w, payload, "op").value,
              AskedQuorum(w, payload).value, AskedDetail(payload))
  {
    var i, pid := ProposeIntent(w, urn, payload, tick), ProposalId(tick);
    IntentSays(w, urn, payload, tick);
    SealCallRows(w, sess, g, pid, i.body, nonce, pid);
    SealedSays(w, sess, i.body, nonce, pid, AskedAbout(w, payload, urn).value, Field(w, payload, "op").value,
               AskedQuorum(w, payload).value, AskedDetail(payload));
    assert Get(ProposeChange(w, sess, g, urn, payload, tick, nonce).gov.store, pid) == Some(Canonical(w, sess, i.body, nonce));
  }

  /** Why a proposal call is refused, in order. */
  lemma ProposeRefusals(w: World, sess: Session, g: Gov, urn: Option<string>, payload: Body, tick: nat, nonce: string)
    ensures var r, op, about := ProposeChange(w, sess, g, urn, payload, tick, nonce).reply, Field(w, payload, "op"), AskedAbout(w, payload, urn);
      var opOk := op.Some? && KnownOp(op.value);
      var aboutOk := about.Some? && IriLike(about.value);
      && (r == Refused(UnknownOp) <==> !opOk)
      && (r == Refused(InvalidAbout) <==> opOk && !aboutOk)
      && (r == Refused(InvalidQuorum) <==> opOk && aboutOk && !FieldsOk(w, payload, urn))
      && (FieldsOk(w, payload, urn) ==> r.Done? || r.Aborted? || r == Refused(ShapeViolation))
  {
    IntentExactly(w, urn, payload, tick);
    QuorumIntent(w, urn, payload, tick);
  }

  lemma QuorumIntent(w: World, urn: Option<string>, payload: Body, tick: nat)
    ensures var op, about := Field(w, payload, "op"), AskedAbout(w, payload, urn);
      ProposeIntent(w, urn, payload, tick) == Refuse(InvalidQuorum) <==>
        op.Some? && KnownOp(op.value) && about.Some? && IriLike(about.value) && !FieldsOk(w, payload, urn)
  {
    var op := Field(w, payload, "op");
    if op.Some? {
      OpsAre(op.value);
    }
  }

  // -------------------------------------------------------------------------- votes

  /** The proposal a vote or an apply may still act on. */
  ghost predicate Pending(w: World, s: Store, about: string) {
    exists i: nat :: FirstProposal(w, s, about, i)
      && (var state := Field(w, s.instances[s.order[i]], PROPOSAL_STATE); state.Some? ==> state.value == "pending")
  }

  lemma VoteIntentExactly(w: World, s: Store, about: Option<string>, value: Option<string>, tick: nat)
    ensures var i := VoteIntent(w, s, about, value, tick);
      var valueOk := value == Some("approve") || value == Some("reject");
      var aboutOk := about.Some? && IriLike(about.value);
      && (i == Refuse(InvalidVote) <==> !valueOk)
      && (i == Refuse(InvalidAbout) <==> valueOk && !aboutOk)
      && (i == Refuse(UnknownProposal) <==> valueOk && aboutOk && forall j: nat :: !FirstProposal(w, s, about.value, j))
      && (i == Refuse(NotPending) <==> valueOk && aboutOk && (exists j: nat :: FirstProposal(w, s, about.value, j)) && !Pending(w, s, about.value))
  {
    if about.Some? {
      var found := FindFirst(w, s, s.order, about.value, PROPOSAL_T);
      if found.Some? {
        var j := FirstAt(w, s, s.order, about.value);
        FirstIs(w, s, s.order, about.value, j);
        assert FirstProposal(w, s, about.value, j);
        forall k: nat | FirstProposal(w, s, about.value, k) ensures k == j {
          OneFirst(w, s, about.value, j, k);
        }
      } else {
        forall j: nat ensures !FirstProposal(w, s, about.value, j) {
          if FirstProposal(w, s, about.value, j) {
            FirstIs(w, s, s.order, about.value, j);
          }
        }
      }
    }
  }

  lemma OneFirst(w: World, s: Store, about: string, j: nat, k: nat)
    requires FirstProposal(w, s, about, j) && FirstProposal(w, s, about, k)
    ensures j == k
  {
  }

  /** A VOTE RECORDS WHAT WAS CAST. On success the proposal it names was pending, and the
      new row carries the proposal's IRI, the value, and the caller. */
  lemma VoteRecords(w: World, sess: Session, g: Gov, about: Option<string>, value: Option<string>, tick: nat, nonce: string)
    requires CastVote(w, sess, g, about, value, tick, nonce).reply.Done?
    ensures var r, vid := CastVote(w, sess, g, about, value, tick, nonce), "vote-" + Print(tick);
      && about.Some? && (value == Some("approve") || value == Some("reject")) && Pending(w, g.store, about.value)
      && r.reply.id == vid && vid in r.gov.store.instances
      && (var b := r.gov.store.instances[vid];
          && Field(w, b, "type") == Some("ckp:core#Vote") && Field(w, b, "@id") == Some("ckp://Vote#" + vid)
          && Field(w, b, ABOUT) == about && Field(w, b, VOTE_VALUE) == value)
  {
    var i, vid := VoteIntent(w, g.store, about, value, tick), VoteId(tick);
    VoteIntentExactly(w, g.store, about, value, tick);
    VoteIntentBody(w, g.store, about, value, tick);
    SealCallRows(w, sess, g, vid, i.body, nonce, vid);
    VoteSays(w, sess, tick, about.value, value.value, nonce);
    assert Get(CastVote(w, sess, g, about, value, tick, nonce).gov.store, vid) == Some(Canonical(w, sess, i.body, nonce));
  }

  lemma VoteSays(w: World, sess: Session, tick: nat, about: string, value: string, nonce: string)
    ensures var b := Canonical(w, sess, VoteBody(tick, about, value), nonce);
      && Field(w, b, "type") == Some("ckp:core#Vote") && Field(w, b, "@id") == Some("ckp://Vote#" + ("vote-" + Print(tick)))
      && Field(w, b, ABOUT) == Some(about) && Field(w, b, VOTE_VALUE) == Some(value)
  {
    var v := VoteBody(tick, about, value);
    RecordKeysUnstamped();
    SealedField(w, sess, v, nonce, "type", "ckp:core#Vote");
    SealedField(w, sess, v, nonce, "@id", "ckp://Vote#" + VoteId(tick));
    SealedField(w, sess, v, nonce, ABOUT, about);
    SealedField(w, sess, v, nonce, VOTE_VALUE, value);
  }
}
