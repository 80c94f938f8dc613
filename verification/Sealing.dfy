/** What a sealed row says and how it is signed, in terms of the caller's body and the
    session's settings. */
module Sealing {
  import opened Text
  import opened Facts
  import opened Ledger
  import Normalise

  // ------------------------------------------------------------------- settings

  /** The signing key: the session's, and only where it has none the configured one. */
  lemma KeyExactly(sess: Session, k: string)
    ensures IdentityKey(sess) == Some(k) <==>
      k != "" && (sess.key == Some(k) || ((sess.key == None || sess.key == Some("")) && sess.configKey == Some(k)))
  {
  }

  lemma ProjectExactly(sess: Session, p: string)
    ensures Project(sess) == p <==>
      (p != "" && sess.project == Some(p)) || (p == "demo" && (sess.project == None || sess.project == Some("")))
  {
  }

  // ---------------------------------------------------------------------- stamps

  /** The caller's claimed subject, where there is one that is not blank. */
  function ClaimedSub(w: World, body: Body): Option<string> {
    if "participant" in body && body["participant"].Obj? then
      var sub := Field(w, body["participant"].fields, "sub");
      if sub.Some? && Trim(sub.value, Normalise.IsSpace) != "" then sub else None
    else None
  }

  /** Who a row is stamped with: the verified requester wins over any claim; a claim
      stands where there is none; and else the row is anonymous. */
  ghost predicate WhoIs(w: World, sess: Session, body: Body, nonce: string, who: string) {
    if sess.requester.Some? && Trim(sess.requester.value, Normalise.IsSpace) != "" then
      who == "urn:ckp:participant:" + Normalise.UrnNormalise(Trim(sess.requester.value, Normalise.IsSpace), w.lower)
    else if ClaimedSub(w, body).Some? then
      who == "urn:ckp:participant:" + Normalise.UrnNormalise(ClaimedSub(w, body).value, w.lower)
    else who == "urn:ckp:participant:anon:" + nonce
  }

  predicate Anonymous(w: World, sess: Session, body: Body) {
    && (sess.requester.None? || Trim(sess.requester.value, Normalise.IsSpace) == "")
    && ClaimedSub(w, body).None?
  }

  /** A display claim that is carried over: given by an identified caller, not blank. */
  function Carried(w: World, sess: Session, body: Body, claim: string): Option<string> {
    if Anonymous(w, sess, body) || "participant" !in body || !body["participant"].Obj? then None
    else
      var t := Field(w, body["participant"].fields, claim);
      if t.Some? && Trim(t.value, Normalise.IsSpace) != "" then Some(Trim(t.value, Normalise.IsSpace)) else None
  }

  lemma WhoExactly(w: World, sess: Session, body: Body, nonce: string)
    ensures WhoIs(w, sess, body, nonce, Participant(w, sess, body, nonce))
    ensures Identified(w, sess, body).None? <==> Anonymous(w, sess, body)
  {
  }

  lemma ClaimExactly(w: World, sess: Session, body: Body, claim: string)
    ensures Claim(w, sess, body, claim) == Carried(w, sess, body, claim)
  {
    WhoExactly(w, sess, body, "");
  }

  /** What the stored row says: who made it, what kernel produced it, the display claims
      of an identified caller, no raw claims, and otherwise the caller's own body. */
  ghost predicate SealedAs(w: World, sess: Session, body: Body, nonce: string, row: Body, project: string, who: string) {
    && WhoIs(w, sess, body, nonce, who) && "participant" !in row
    && PARTICIPANT in row && row[PARTICIPANT] == Str(who) && CREATED_BY in row && row[CREATED_BY] == Str(who)
    && PRODUCED_BY in row && row[PRODUCED_BY] == Str("urn:ckp:" + project + "/kernel/ck")
    && SameOr(row, body, "participant_display_name", Carried(w, sess, body, "preferred_username"))
    && SameOr(row, body, "participant_email", Carried(w, sess, body, "email"))
    && forall k :: Plain(k) ==> (k in row <==> k in body) && (k in row ==> row[k] == body[k])
  }

  predicate Plain(k: string) {
    && k != "participant" && k != "participant_display_name" && k != "participant_email"
    && k != PARTICIPANT && k != CREATED_BY && k != PRODUCED_BY
  }

  predicate SameOr(row: Body, body: Body, key: string, v: Option<string>) {
    if v.Some? then key in row && row[key] == Str(v.value)
    else (key in row <==> key in body) && (key in row ==> row[key] == body[key])
  }

  lemma StampSays(body: Body, who: string, display: Option<string>, email: Option<string>, kernel: string)
    ensures var row := Stamp(body, who, display, email, kernel);
      && "participant" !in row
      && PARTICIPANT in row && row[PARTICIPANT] == Str(who) && CREATED_BY in row && row[CREATED_BY] == Str(who)
      && PRODUCED_BY in row && row[PRODUCED_BY] == Str(kernel)
      && SameOr(row, body, "participant_display_name", display) && SameOr(row, body, "participant_email", email)
      && forall k :: Plain(k) ==> (k in row <==> k in body) && (k in row ==> row[k] == body[k])
  {
    assert CREATED_BY != PRODUCED_BY && CREATED_BY != PARTICIPANT && PRODUCED_BY != PARTICIPANT;
  }

  /** SEAL STORES WHAT IT WAS GIVEN, under server-made stamps. */
  lemma SealStores(w: World, sess: Session, g: Graph, s: Store, id: string, body: Body, nonce: string, project: string)
    returns (who: string)
    requires Seal(w, sess, g, s, id, body, nonce).Sealed?
    requires (project != "" && sess.project == Some(project)) || (project == "demo" && (sess.project == None || sess.project == Some("")))
    ensures var s' := Seal(w, sess, g, s, id, body, nonce).store;
      id in s'.instances && SealedAs(w, sess, body, nonce, s'.instances[id], project, who)
  {
    who := Participant(w, sess, body, nonce);
    WhoExactly(w, sess, body, nonce);
    ClaimExactly(w, sess, body, "preferred_username");
    ClaimExactly(w, sess, body, "email");
    ProjectExactly(sess, project);
    StampSays(body, who, Claim(w, sess, body, "preferred_username"), Claim(w, sess, body, "email"), KernelIri(Project(sess)));
    WrittenShape(w, IdentityKey(sess).value, s, id, Canonical(w, sess, body, nonce));
  }

  /** AND SIGNS IT: the ledger row carries the digest of the stored bytes, signed with
      the key in force, and names the newest row before it; the proof row mirrors it. */
  lemma SealSigns(w: World, sess: Session, g: Graph, s: Store, id: string, body: Body, nonce: string, k: string)
    requires Seal(w, sess, g, s, id, body, nonce).Sealed? && Ascending(s.ledger, LedgerSeq)
    requires k != "" && (sess.key == Some(k) || ((sess.key == None || sess.key == Some("")) && sess.configKey == Some(k)))
    ensures var s' := Seal(w, sess, g, s, id, body, nonce).store;
      && id in s'.instances && |s'.ledger| == |s.ledger| + 1 && |s'.proofs| == |s.proofs| + 1
      && (var sha := w.digest(w.bytes(s'.instances[id]));
          && s'.ledger == s.ledger + [LedgerRow(s.nextSeq, id, sha, w.hmac(sha, k),
                                                if s.ledger == [] then None else Some(s.ledger[|s.ledger| - 1].seqno))]
          && s'.proofs == s.proofs + [ProofRow(s.nextProof, id, "hmac+sha256", sha)])
  {
    KeyExactly(sess, k);
    MaxSeqIsLast(s.ledger, None);
    WrittenShape(w, k, s, id, Canonical(w, sess, body, nonce));
  }

  /** What verification cannot do without: a key, the row, a ledger row and a proof row. */
  lemma VerifyNeeds(w: World, key: Option<string>, s: Store, id: string)
    requires Verify(w, key, s, id)
    ensures key.Some? && key.value != "" && id in s.instances
    ensures (exists i :: 0 <= i < |s.ledger| && s.ledger[i].id == id) && (exists i :: 0 <= i < |s.proofs| && s.proofs[i].about == id)
  {
    LatestIn(s.ledger, LedgerId, LedgerSeq, id);
    LatestIn(s.proofs, ProofAbout, ProofPid, id);
  }

  lemma {:induction false} LatestIn<T>(rows: seq<T>, key: T -> string, rank: T -> nat, id: string)
    ensures var m := Latest(rows, key, rank, id); m.Some? ==> exists i :: 0 <= i < |rows| && rows[i] == m.value && key(rows[i]) == id
  {
    if rows != [] {
      var n := |rows| - 1;
      LatestIn(rows[..n], key, rank, id);
      assert forall i :: 0 <= i < n ==> rows[..n][i] == rows[i];
    }
  }

  /** What the core shapes judge before the two rows are written: the protocol's own
      ledger entry and proof, about this id, with this digest and signature. */
  lemma JudgedOps(id: string, sha: string, sig: string)
    ensures var led, prf := LedgerOp(id, sha, sig), ProofOp(id, sha);
      && "type" in led && led["type"] == Str("ckp:core#LedgerEntry") && ABOUT in led && led[ABOUT] == Str(id)
      && "bodySha" in led && led["bodySha"] == Str(sha) && "sig" in led && led["sig"] == Str(sig)
      && "type" in prf && prf["type"] == Str("ckp:core#Proof") && ABOUT in prf && prf[ABOUT] == Str(id)
      && "method" in prf && prf["method"] == Str("hmac+sha256") && "digest" in prf && prf["digest"] == Str(sha)
  {
  }

  /** A SEAL SUCCEEDS EXACTLY when the body has a type, there is a signing key, the
      stamped body has every property its type requires, and both ops are judged well. */
  lemma SealsExactly(w: World, sess: Session, g: Graph, s: Store, id: string, body: Body, nonce: string)
    ensures Seal(w, sess, g, s, id, body, nonce).Sealed? <==>
      && Field(w, body, "type").Some? && IdentityKey(sess).Some?
      && (var row := Canonical(w, sess, body, nonce);
          var sha := w.digest(w.bytes(row));
          && (forall k :: k in w.required(g, Field(w, body, "type").value) ==> k in row)
          && w.coreOk(LedgerOp(id, sha, w.hmac(sha, IdentityKey(sess).value))) && w.coreOk(ProofOp(id, sha)))
  {
  }

  /** A seal that raises leaves every table as it was. */
  lemma RaiseLeavesTables(w: World, sess: Session, g: Graph, s: Store, id: string, body: Body, nonce: string)
    requires Seal(w, sess, g, s, id, body, nonce).Raised?
    ensures var s' := Seal(w, sess, g, s, id, body, nonce).store;
      s'.instances == s.instances && s'.order == s.order && s'.ledger == s.ledger && s'.proofs == s.proofs && s'.outbox == s.outbox
  {
  }
}
