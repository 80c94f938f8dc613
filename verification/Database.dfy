/** The database, and the procedures that change it in place: each ends in the
    state its specification function names. */
module Database {
  import opened Text
  import opened Facts
  import opened Ledger
  import opened LedgerRuns
  import opened Plans
  import opened Governance

  class Database {
    var rows: Store
    var graphs: map<string, Graph>
    var cache: Cache
    var routes: map<(string, string), nat>
    var obligations: map<(string, string), Obligation>

    function Contents(): Gov reads this {
      Gov(rows, graphs, cache, routes, obligations)
    }

    constructor ()
      ensures Contents() == Gov(EMPTY, map[], NOTHING, map[], map[])
    {
      rows, graphs, cache, routes, obligations := EMPTY, map[], NOTHING, map[], map[];
    }

    /** Undo to a savepoint; sequences keep their advance. */
    method RestoreTo(before: Gov)
      modifies this
      ensures Contents() == Abort(before, old(rows)).gov
    {
      rows := Rollback(before.store, rows);
      graphs, cache, routes, obligations := before.graphs, before.cache, before.routes, before.obligations;
    }

    method UpsertInstance(id: string, body: Body)
      modifies this`rows
      ensures rows == Upsert(old(rows), id, body)
    {
      if id !in rows.instances {
        rows := rows.(order := rows.order + [id]);
      }
      rows := rows.(instances := rows.instances[id := body]);
    }

    /** AFTER INSERT ON ledger. */
    method LedgerToOutboxTrigger(w: World, seqno: nat, id: string)
      modifies this`rows
      ensures rows == LedgerToOutbox(w, old(rows), seqno, id)
    {
      if id !in rows.instances {
        return;
      }
      var body := rows.instances[id];
      var headers: Body := map["Ck-Seq" := Str(Print(seqno)), "Content-Type" := Str("application/json")];
      if "created_by" in body {
        var sender := Field(w, body, "created_by");
        headers := headers + map["by" := if sender.None? then Null else Str(sender.value)];
      } else {
        assert headers == headers + map[];
      }
      var row := OutboxRow(rows.nextOut, seqno, PublishSubject(Field(w, body, "type")), w.bytes(body), headers);
      rows := rows.(outbox := rows.outbox + [row], nextOut := rows.nextOut + 1);
    }

    method InsertLedgerRow(w: World, id: string, sha: string, sig: string, prev: Option<nat>)
      modifies this`rows
      ensures rows == InsertLedger(w, old(rows), id, sha, sig, prev)
    {
      var seqno := rows.nextSeq;
      rows := rows.(ledger := rows.ledger + [LedgerRow(seqno, id, sha, sig, prev)], nextSeq := seqno + 1);
      LedgerToOutboxTrigger(w, seqno, id);
    }

    /** `ckp.seal`. None is a raise: everything it wrote is undone. */
    method SealInstance(w: World, sess: Session, id: string, body: Body, nonce: string) returns (sha: Option<string>)
      modifies this`rows
      ensures var r := SealIn(w, sess, old(Contents()), id, body, nonce);
        rows == r.store && sha == if r.Sealed? then Some(r.sha) else None
    {
      var before := rows;
      var t, key := Field(w, body, "type"), IdentityKey(sess);
      if t.None? || key.None? {
        return None;
      }
      var b := Canonical(w, sess, body, nonce);
      if !(w.required(GraphOf(Contents(), Project(sess)), t.value) <= b.Keys) {
        return None;
      }
      var digest := Sha(w, b);
      var sig := w.hmac(digest, key.value);
      var prev := MaxSeq(rows.ledger, None);
      UpsertInstance(id, b);
      if !w.coreOk(LedgerOp(id, digest, sig)) {
        rows := Rollback(before, rows);
        return None;
      }
      InsertLedgerRow(w, id, digest, sig, prev);
      if !w.coreOk(ProofOp(id, digest)) {
        rows := Rollback(before, rows);
        return None;
      }
      rows := rows.(proofs := rows.proofs + [ProofRow(rows.nextProof, id, METHOD, digest)], nextProof := rows.nextProof + 1);
      return Some(digest);
    }

    /** One worker tick: delete the lowest hundred outbox rows and hand them over. */
    method DrainBatch() returns (batch: seq<OutboxRow>)
      modifies this`rows
      ensures var y := DrainOnce(Sys(old(rows), [])); rows == y.store && [batch] == y.batches
    {
      batch := [];
      while rows.outbox != [] && |batch| < BATCH
        invariant batch + rows.outbox == old(rows).outbox && |batch| <= BATCH
        invariant rows == old(rows).(outbox := rows.outbox)
        decreases |rows.outbox|
      {
        batch := batch + [rows.outbox[0]];
        rows := rows.(outbox := rows.outbox[1..]);
      }
      assert batch == old(rows).outbox[..|batch|] && rows.outbox == old(rows).outbox[|batch|..];
    }

    /** The patch loop of `ckp.update_typed`, rewriting the working body. */
    method PatchLoop(w: World, propmap: map<string, string>, ns: string, me: Option<string>, start: Body, patch: seq<(string, Json)>)
      returns (r: PatchResult)
      ensures r == PatchAll(w, propmap, ns, me, start, patch)
    {
      var cur := start;
      for i := 0 to |patch|
        invariant PatchAll(w, propmap, ns, me, start, patch) == PatchAll(w, propmap, ns, me, cur, patch[i..])
      {
        var key, v := patch[i].0, patch[i].1;
        assert patch[i..][0] == patch[i] && patch[i..][1..] == patch[i + 1..];
        if Unpatchable(key) {
          continue;
        }
        var iri := KeyIri(propmap, ns, key);
        if iri.None? {
          return PatchRefused(UndeclaredKey);
        }
        if iri.value == OWNED_BY {
          return PatchRefused(OwnershipNotPatchable);
        }
        if iri.value == PROJECT_KIND && Field(w, cur, OWNED_BY).Some? && me != Field(w, cur, OWNED_BY) {
          return PatchRefused(NotOwner);
        }
        cur := cur[iri.value := v];
      }
      return Patched(cur);
    }

    /** `ckp.update_typed`. */
    method Update(w: World, sess: Session, ref: Option<string>, patch: Option<seq<(string, Json)>>, nonce: string) returns (reply: Reply)
      modifies this`rows
      ensures UpdateTyped(w, sess, old(Contents()), ref, patch, nonce) == Outcome(Contents(), reply)
    {
      if Trimmed(ref).None? {
        return Refused(IdRequired);
      }
      if patch.None? {
        return Refused(InvalidPatch);
      }
      var id := ResolveId(w, rows, ref.value);
      if id !in rows.instances {
        return Refused(UnknownInstance);
      }
      var cur := rows.instances[id];
      var t := Field(w, cur, "type");
      var propmap := w.propmap(w.composed(graphs, Project(sess)), t);
      var r := PatchLoop(w, propmap, Namespace(t), OwnerIri(w, sess), cur - {"participant"}, patch.value);
      if r.PatchRefused? {
        return Refused(r.code);
      }
      var sha := SealInstance(w, sess, id, r.body, nonce);
      return if sha.Some? then Done(id) else Refused(SealRefused);
    }

    /** Seal one row as the whole effect of a call. */
    method SealOrAbort(w: World, sess: Session, id: string, body: Body, nonce: string) returns (reply: Reply)
      modifies this
      ensures SealCall(w, sess, old(Contents()), id, body, nonce) == Outcome(Contents(), reply)
    {
      var before := Contents();
      var sha := SealInstance(w, sess, id, body, nonce);
      if sha.None? {
        RestoreTo(before);
        return Aborted;
      }
      return Done(id);
    }

    /** `ckp.propose_change`: the field gates, the shape gate on the gated fields,
        then the seal of a pending proposal. */
    method Propose(w: World, sess: Session, kernelUrn: Option<string>, payload: Body, tick: nat, nonce: string) returns (reply: Reply)
      modifies this
      ensures ProposeChange(w, sess, old(Contents()), kernelUrn, payload, tick, nonce) == Outcome(Contents(), reply)
    {
      var op := Field(w, payload, "op");
      if op.None? || op.value !in OPS {
        return Refused(UnknownOp);
      }
      var about := Field(w, payload, "about");
      if about.None? {
        about := kernelUrn;
      }
      if about.None? || !IriLike(about.value) {
        return Refused(InvalidAbout);
      }
      var quorum := 1;
      var asked := Field(w, payload, "requires_quorum");
      if asked.Some? {
        var number := w.cast(asked.value);
        if number.None? {
          return Refused(InvalidQuorum);
        }
        quorum := number.value;
      }
      if quorum < 1 {
        return Refused(InvalidQuorum);
      }
      var pid := ProposalId(tick);
      var detail := if "detail" in payload then payload["detail"] else Obj(map[]);
      var gated := GatedFields("ckp://Proposal#" + pid, about.value, op.value, quorum);
      GatedThenDetail(tick, about.value, op.value, quorum, detail);
      if !w.coreOk(gated) {
        return Refused(ShapeViolation);
      }
      reply := SealOrAbort(w, sess, pid, gated["proposalDetail" := detail], nonce);
    }

    /** `ckp.vote`: the field gates, a proposal that exists and is pending, its
        quorum cast, the shape gate, then the seal of the vote. */
    method Vote(w: World, sess: Session, about: Option<string>, value: Option<string>, tick: nat, nonce: string) returns (reply: Reply)
      modifies this
      ensures CastVote(w, sess, old(Contents()), about, value, tick, nonce) == Outcome(Contents(), reply)
    {
      if value.None? || value.value !in ["approve", "reject"] {
        return Refused(InvalidVote);
      }
      if about.None? || !IriLike(about.value) {
        return Refused(InvalidAbout);
      }
      var found := FindFirst(w, rows, rows.order, about.value, PROPOSAL_T);
      if found.None? {
        return Refused(UnknownProposal);
      }
      var prop := rows.instances[found.value];
      var state := Field(w, prop, PROPOSAL_STATE);
      if state.Some? && state.value != "pending" {
        return Refused(NotPending);
      }
      var quorum := Field(w, prop, REQUIRES_QUORUM);
      if quorum.Some? && w.cast(quorum.value).None? {
        RestoreTo(Contents());
        return Aborted;
      }
      var vid := VoteId(tick);
      var body := map["type" := Str(VOTE_T), "@id" := Str("ckp://Vote#" + vid),
                      ABOUT := Str(about.value), VOTE_VALUE := Str(value.value)];
      if !w.coreOk(body) {
        return Refused(ShapeViolation);
      }
      reply := SealOrAbort(w, sess, vid, body, nonce);
    }

    /** 4b of `ckp.apply`: bump, seal the Epoch, pin the digest, seal the
        Materialization. None is a raise, to be undone by the caller. */
    method RunCascade(w: World, sess: Session, nonce: string) returns (epoch: Option<nat>)
      modifies this`rows, this`cache
      ensures var c := CascadePhase(w, sess, old(Contents()), nonce);
        match epoch
        case None => c == CascadeRaised(rows)
        case Some(n) => c == Advanced(Contents(), n)
    {
      var project := Project(sess);
      var from := LiveEpoch(Contents(), project);
      cache := Bump(cache, project);
      var n := EpochOf(cache, project);
      var surface, source := Surface(w, Contents(), project), Source(w, Contents(), project);
      var structural := w.structuralDigest(w.composed(graphs, project));
      var e := SealInstance(w, sess, EpochId(project, n), EpochBody(project, n, surface, structural), nonce);
      if e.None? {
        return None;
      }
      cache := cache.(epochs := cache.epochs[project := cache.epochs[project].(digest := Some(surface))]);
      var m := SealInstance(w, sess, MatId(project, n), MatBody(project, from, n, source, surface), nonce);
      return if m.None? then None else Some(n);
    }

    /** 4a of `ckp.apply`. Some is the reply that ends the call. */
    method GraphStep(w: World, project: string, prop: Body) returns (stop: Option<Reply>)
      modifies this
      ensures GraphPhase(w, project, old(Contents()), prop) == Ended(Contents(), stop)
    {
      match w.opToTtl(prop) {
        case Untranslatable => return Some(Refused(OpTranslateFailed));
        case NoTtl => return None;
        case Ttl(ttl) =>
          match w.applyTtl(ttl, GraphOf(Contents(), project)) {
            case ShapeRefused => return Some(Refused(GraphApplyFailed));
            case ShapeRaised =>
              RestoreTo(Contents());
              return Some(Aborted);
            case GraphIs(graph) =>
              graphs := graphs[project := graph];
              return None;
          }
      }
    }

    /** 4a-bis. */
    method PolicyStep(w: World, sess: Session, prop: Body, nonce: string) returns (stop: Option<Reply>)
      modifies this
      ensures PolicyPhase(w, sess, old(Contents()), prop, nonce) == Ended(Contents(), stop)
    {
      if Field(w, prop, PROPOSAL_OP) != Some("set_kernel_policy") {
        return None;
      }
      var field, value := Nested(w, prop, "proposalDetail", "field"), Detail(prop, "value");
      if field.None? || value.None? {
        return Some(Refused(InvalidPatch));
      }
      var r := Update(w, sess, Some(KernelRowIri(Project(sess))), Some([(CORE + field.value, value.value)]), nonce);
      return if r.Done? then None else Some(Refused(PolicyRefused));
    }

    /** 4c; its handler undoes the registration, not the cascade. */
    method AffordanceStep(w: World, sess: Session, prop: Body, epoch: nat, nonce: string) returns (stop: Option<Reply>)
      modifies this
      ensures AffordancePhase(w, sess, old(Contents()), prop, epoch, nonce) == Ended(Contents(), stop)
    {
      if Field(w, prop, PROPOSAL_OP) != Some("add_affordance") || Detail(prop, "query").None? {
        return None;
      }
      var found := w.affordance(prop);
      if found.None? {
        return Some(Refused(AffordanceFailed));
      }
      var (verb, plan) := found.value;
      var project := Project(sess);
      var oldCache, oldRoutes := cache, routes;
      cache := cache.(plans := cache.plans[PlanKey(project, verb, epoch) := plan]);
      routes := routes[(project, verb) := epoch];
      var sha := SealInstance(w, sess, AffordanceId(project, verb), AffordanceBody(project, verb, epoch), nonce);
      if sha.None? {
        cache, routes := oldCache, oldRoutes;
        return Some(Refused(AffordanceFailed));
      }
      return None;
    }

    /** 4d. */
    method ObligationStep(w: World, sess: Session, prop: Body, epoch: nat) returns (stop: Option<Reply>)
      modifies this
      ensures ObligationPhase(w, sess, old(Contents()), prop, epoch) == Ended(Contents(), stop)
    {
      if Field(w, prop, PROPOSAL_OP) != Some("add_proof_obligation") {
        return None;
      }
      var found := w.obligation(prop, epoch);
      if found.None? {
        return Some(Refused(ObligationFailed));
      }
      var (name, row) := found.value;
      var key := (Project(sess), name);
      if row.active {
        obligations := obligations[key := row];
      } else if key in obligations {
        obligations := obligations[key := obligations[key].(active := false)];
      } else {
        return Some(Refused(ObligationFailed));
      }
      return None;
    }

    /** The end of `ckp.apply`: registrations, then the proposal itself. */
    method FinishApply(w: World, sess: Session, before: Gov, gate: Gate, prop: Body, epoch: nat, nonce: string) returns (reply: Reply)
      requires gate.Admitted?
      modifies this
      ensures Finish(w, sess, before, old(Contents()), gate, prop, epoch, nonce) == Outcome(Contents(), reply)
    {
      var stop := AffordanceStep(w, sess, prop, epoch, nonce);
      if stop.Some? {
        return stop.value;
      }
      stop := ObligationStep(w, sess, prop, epoch);
      if stop.Some? {
        return stop.value;
      }
      var sha := SealInstance(w, sess, gate.pid, AppliedBody(prop, epoch), nonce);
      if sha.None? {
        RestoreTo(before);
        return Aborted;
      }
      return Enacted(gate.pid, epoch, gate.approvals, gate.quorum);
    }

    /** `ckp.apply` past its gate. */
    method EnactProposal(w: World, sess: Session, gate: Gate, nonce: string) returns (reply: Reply)
      requires gate.Admitted? && gate.pid in rows.instances
      modifies this
      ensures Enact(w, sess, old(Contents()), gate, nonce) == Outcome(Contents(), reply)
    {
      var before := Contents();
      var prop := rows.instances[gate.pid];
      var stop := GraphStep(w, Project(sess), prop);
      if stop.Some? {
        return stop.value;
      }
      stop := PolicyStep(w, sess, prop, nonce);
      if stop.Some? {
        return stop.value;
      }
      var epoch := RunCascade(w, sess, nonce);
      if epoch.None? {
        RestoreTo(before);
        return Aborted;
      }
      reply := FinishApply(w, sess, before, gate, prop, epoch.value, nonce);
    }

    /** `ckp.apply`. */
    method ApplyProposal(w: World, sess: Session, about: Option<string>, nonce: string) returns (reply: Reply)
      modifies this
      ensures Apply(w, sess, old(Contents()), about, nonce) == Outcome(Contents(), reply)
    {
      var gate := ApplyGate(w, sess, Contents(), about);
      match gate {
        case GateRefused(code) => return Refused(code);
        case GateRaised =>
          RestoreTo(Contents());
          return Aborted;
        case Admitted(_, _, _) => reply := EnactProposal(w, sess, gate, nonce);
      }
    }
  }

  /** The proposal's fields the shape gate sees: all but the free-form detail. */
  function GatedFields(iri: string, about: string, op: string, quorum: nat): Body {
    map["type" := Str(PROPOSAL_T), "@id" := Str(iri), ABOUT := Str(about), PROPOSAL_STATE := Str("pending"),
        PROPOSAL_OP := Str(op), REQUIRES_QUORUM := Str(Print(quorum))]
  }

  lemma GatedThenDetail(tick: nat, about: string, op: string, quorum: nat, detail: Json)
    ensures var gated, full := GatedFields("ckp://Proposal#" + ProposalId(tick), about, op, quorum), ProposalBody(tick, about, op, quorum, detail);
      gated == full - {"proposalDetail"} && gated["proposalDetail" := detail] == full
  {
  }

  /** A phase as a procedure ends it: with a reply, or going on. */
  function Ended(g: Gov, stop: Option<Reply>): Phase {
    if stop.Some? then Halt(Outcome(g, stop.value)) else Go(g)
  }
}
