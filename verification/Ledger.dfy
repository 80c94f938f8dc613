/** The proof-chained store: `ckp.seal`, the `ledger_to_outbox` trigger and
    `ckp.verify`, over the tables they read and write. */
module Ledger {
  import opened Text
  import opened Utf8
  import opened Facts

  datatype LedgerRow = LedgerRow(seqno: nat, id: string, sha: string, sig: string, prev: Option<nat>)

  datatype ProofRow = ProofRow(pid: nat, about: string, how: string, digest: string)

  datatype OutboxRow = OutboxRow(oseq: nat, ledgerSeq: nat, subject: string, payload: seq<byte>, headers: Body)

  /** The four tables and the three BIGSERIAL counters. `order` lists instance
      ids by creation (`ts_created`). */
  datatype Store = Store(
    instances: map<string, Body>,
    order: seq<string>,
    ledger: seq<LedgerRow>,
    proofs: seq<ProofRow>,
    outbox: seq<OutboxRow>,
    nextSeq: nat,
    nextProof: nat,
    nextOut: nat)

  const EMPTY := Store(map[], [], [], [], [], 1, 1, 1)

  const METHOD := "hmac+sha256"

  // ------------------------------------------------------------------- queries

  /** `SELECT max(seq) FROM ledger [WHERE seq < bound]`. */
  function MaxSeq(rows: seq<LedgerRow>, bound: Option<nat>): Option<nat> {
    if rows == [] then None
    else
      var m := MaxSeq(rows[..|rows| - 1], bound);
      var x := rows[|rows| - 1].seqno;
      if (bound.None? || x < bound.value) && (m.None? || x > m.value) then Some(x) else m
  }

  /** `... WHERE key = id ORDER BY rank DESC LIMIT 1`. */
  function Latest<T>(rows: seq<T>, key: T -> string, rank: T -> nat, id: string): Option<T> {
    if rows == [] then None
    else
      var m := Latest(rows[..|rows| - 1], key, rank, id);
      var x := rows[|rows| - 1];
      if key(x) == id && (m.None? || rank(x) > rank(m.value)) then Some(x) else m
  }

  function LedgerId(r: LedgerRow): string { r.id }
  function LedgerSeq(r: LedgerRow): nat { r.seqno }
  function ProofAbout(r: ProofRow): string { r.about }
  function ProofPid(r: ProofRow): nat { r.pid }

  /** `ckp.verify`: the independent re-check, on any contents of the tables. */
  predicate Verify(w: World, key: Option<string>, s: Store, id: string) {
    var led := Latest(s.ledger, LedgerId, LedgerSeq, id);
    var prf := Latest(s.proofs, ProofAbout, ProofPid, id);
    && NonEmpty(key).Some? && id in s.instances && led.Some? && prf.Some?
    && led.value.prev == MaxSeq(s.ledger, Some(led.value.seqno))
    && prf.value.how == METHOD
    && Sha(w, s.instances[id]) == led.value.sha == prf.value.digest
    && led.value.sig == w.hmac(Sha(w, s.instances[id]), key.value)
  }

  // ---------------------------------------------------------------------- seal

  /** The claimed or verified identity, or None when the write is anonymous. */
  function Identified(w: World, sess: Session, body: Body): Option<string> {
    var req := Trimmed(sess.requester);
    if req.Some? then req
    else
      var sub := Nested(w, body, "participant", "sub");
      if Trimmed(sub).Some? then sub else None
  }

  function Participant(w: World, sess: Session, body: Body, nonce: string): string {
    var who := Identified(w, sess, body);
    if who.Some? then NamedParticipant(w, who.value) else ANON_IRI + nonce
  }

  function With(b: Body, key: string, v: Option<string>): Body {
    if v.None? then b else b[key := Str(v.value)]
  }

  /** Claims replaced by the participant IRI, server stamps written over
      anything the caller asserted. */
  function Stamp(body: Body, who: string, display: Option<string>, email: Option<string>, kernel: string): Body {
    With(With((body - {"participant"})[PARTICIPANT := Str(who)], "participant_display_name", display),
         "participant_email", email)
    [PRODUCED_BY := Str(kernel)][CREATED_BY := Str(who)]
  }

  function Claim(w: World, sess: Session, body: Body, key: string): Option<string> {
    if Identified(w, sess, body).Some? then Trimmed(Nested(w, body, "participant", key)) else None
  }

  /** The body that is hashed and stored. */
  function Canonical(w: World, sess: Session, body: Body, nonce: string): Body {
    Stamp(body, Participant(w, sess, body, nonce), Claim(w, sess, body, "preferred_username"),
          Claim(w, sess, body, "email"), KernelIri(Project(sess)))
  }

  /** `compute_publish_subject`: the last segment of the type URI. */
  function LastSegment(t: string): string {
    if t == "" || t[|t| - 1] == '/' || t[|t| - 1] == '#' then ""
    else LastSegment(t[..|t| - 1]) + [t[|t| - 1]]
  }

  function PublishSubject(t: Option<string>): string {
    var cls := if t.None? then "" else LastSegment(t.value);
    "event.kernel.pgCK." + (if cls == "" then "Instance" else cls) + ".sealed"
  }

  function Upsert(s: Store, id: string, b: Body): Store {
    s.(instances := s.instances[id := b], order := if id in s.instances then s.order else s.order + [id])
  }

  /** INSERT INTO ledger, with its AFTER INSERT trigger. */
  function InsertLedger(w: World, s: Store, id: string, sha: string, sig: string, prev: Option<nat>): Store {
    var s' := s.(ledger := s.ledger + [LedgerRow(s.nextSeq, id, sha, sig, prev)], nextSeq := s.nextSeq + 1);
    LedgerToOutbox(w, s', s.nextSeq, id)
  }

  function LedgerToOutbox(w: World, s: Store, seqno: nat, id: string): Store {
    if id !in s.instances then s
    else
      var b := s.instances[id];
      var sender := Field(w, b, "created_by");
      var stamp := if "created_by" !in b then map[]
                   else map["by" := if sender.None? then Null else Str(sender.value)];
      var row := OutboxRow(s.nextOut, seqno, PublishSubject(Field(w, b, "type")), w.bytes(b),
                           map["Ck-Seq" := Str(Print(seqno)), "Content-Type" := Str("application/json")] + stamp);
      s.(outbox := s.outbox + [row], nextOut := s.nextOut + 1)
  }

  function InsertProof(s: Store, about: string, digest: string): Store {
    s.(proofs := s.proofs + [ProofRow(s.nextProof, about, METHOD, digest)], nextProof := s.nextProof + 1)
  }

  /** An aborted (sub)transaction restores every table; a BIGSERIAL never goes back. */
  function Rollback(before: Store, after: Store): Store {
    before.(nextSeq := after.nextSeq, nextProof := after.nextProof, nextOut := after.nextOut)
  }

  function LedgerOp(id: string, sha: string, sig: string): Body {
    map["type" := Str("ckp:core#LedgerEntry"), ABOUT := Str(id), "bodySha" := Str(sha), "sig" := Str(sig)]
  }

  function ProofOp(id: string, sha: string): Body {
    map["type" := Str("ckp:core#Proof"), ABOUT := Str(id), "method" := Str(METHOD), "digest" := Str(sha)]
  }

  datatype SealOutcome = Sealed(store: Store, sha: string) | Raised(store: Store)

  /** The store a successful seal of the canonical body `b` leaves. */
  function Written(w: World, key: string, s: Store, id: string, b: Body): Store {
    var sha := Sha(w, b);
    InsertProof(InsertLedger(w, Upsert(s, id, b), id, sha, w.hmac(sha, key), MaxSeq(s.ledger, None)), id, sha)
  }

  /** `ckp.seal`: gates in source order; a raise leaves the tables as they were. */
  function Seal(w: World, sess: Session, g: Graph, s: Store, id: string, body: Body, nonce: string): SealOutcome {
    var t := Field(w, body, "type");
    var key := IdentityKey(sess);
    if t.None? || key.None? then Raised(s)
    else
      var b := Canonical(w, sess, body, nonce);
      var sha := Sha(w, b);
      var sig := w.hmac(sha, key.value);
      var full := Written(w, key.value, s, id, b);
      if !(w.required(g, t.value) <= b.Keys) then Raised(s)
      else if !w.coreOk(LedgerOp(id, sha, sig)) then Raised(s)
      else if !w.coreOk(ProofOp(id, sha)) then Raised(Rollback(s, full.(nextProof := s.nextProof)))
      else Sealed(full, sha)
  }

  // ----------------------------------------------------------------- invariant

  /** Index of the last row whose key is `id`, or -1. */
  function LastIndex<T>(rows: seq<T>, key: T -> string, id: string): (k: int)
    ensures -1 <= k < |rows|
    ensures k >= 0 ==> key(rows[k]) == id
    ensures forall j :: k < j < |rows| ==> key(rows[j]) != id
  {
    if rows == [] then -1
    else if key(rows[|rows| - 1]) == id then |rows| - 1
    else LastIndex(rows[..|rows| - 1], key, id)
  }

  lemma LastIndexSnoc<T>(rows: seq<T>, x: T, key: T -> string, id: string)
    ensures LastIndex(rows + [x], key, id) == if key(x) == id then |rows| else LastIndex(rows, key, id)
  {
    assert (rows + [x])[..|rows|] == rows;
  }

  /** LastIndex is the only index with its property. */
  lemma LastIndexUnique<T>(rows: seq<T>, key: T -> string, id: string, k: int)
    requires -1 <= k < |rows| && (k >= 0 ==> key(rows[k]) == id)
    requires forall j :: k < j < |rows| ==> key(rows[j]) != id
    ensures LastIndex(rows, key, id) == k
  {
  }

  ghost predicate Ascending<T>(rows: seq<T>, rank: T -> nat) {
    forall i, j :: 0 <= i < j < |rows| ==> rank(rows[i]) < rank(rows[j])
  }

  lemma {:induction false} LatestOfAscending<T>(rows: seq<T>, key: T -> string, rank: T -> nat, id: string)
    requires Ascending(rows, rank)
    ensures var k := LastIndex(rows, key, id);
      Latest(rows, key, rank, id) == if k < 0 then None else Some(rows[k])
  {
    if rows != [] {
      var front := rows[..|rows| - 1];
      assert Ascending(front, rank);
      LatestOfAscending(front, key, rank, id);
    }
  }

  lemma {:induction false} MaxSeqOfAscending(rows: seq<LedgerRow>, i: nat)
    requires Ascending(rows, LedgerSeq) && i < |rows|
    ensures MaxSeq(rows, Some(rows[i].seqno)) == if i == 0 then None else Some(rows[i - 1].seqno)
  {
    var n := |rows| - 1;
    var front := rows[..n];
    assert forall j :: 0 <= j < n ==> LedgerSeq(rows[j]) < LedgerSeq(rows[n]);
    if i < n {
      assert Ascending(front, LedgerSeq);
      MaxSeqOfAscending(front, i);
      assert LedgerSeq(rows[i]) < LedgerSeq(rows[n]);
    } else if n > 0 {
      MaxSeqIsLast(front, Some(rows[i].seqno));
    }
  }

  lemma {:induction false} MaxSeqIsLast(rows: seq<LedgerRow>, bound: Option<nat>)
    requires Ascending(rows, LedgerSeq)
    requires bound.Some? ==> forall j :: 0 <= j < |rows| ==> rows[j].seqno < bound.value
    ensures MaxSeq(rows, bound) == if rows == [] then None else Some(rows[|rows| - 1].seqno)
  {
    if |rows| > 1 {
      var front := rows[..|rows| - 1];
      MaxSeqIsLast(front, bound);
      assert LedgerSeq(rows[|rows| - 2]) < LedgerSeq(rows[|rows| - 1]);
    } else if |rows| == 1 {
      assert MaxSeq(rows[..0], bound) == None;
    }
  }

  /** Each row names its immediate predecessor, whatever gaps aborts left. */
  ghost predicate Chained(rows: seq<LedgerRow>) {
    && Ascending(rows, LedgerSeq)
    && forall i {:trigger rows[i].prev} :: 0 <= i < |rows| ==> rows[i].prev == if i == 0 then None else Some(rows[i - 1].seqno)
  }

  /** Rows were signed with the one key and are mirrored row for row by proofs. */
  ghost predicate Proven(w: World, key: string, s: Store) {
    && |s.proofs| == |s.ledger|
    && Ascending(s.proofs, ProofPid)
    && forall i :: 0 <= i < |s.ledger| ==>
         && s.ledger[i].sig == w.hmac(s.ledger[i].sha, key)
         && s.proofs[i].about == s.ledger[i].id
         && s.proofs[i].how == METHOD
         && s.proofs[i].digest == s.ledger[i].sha
  }

  /** The stored body of every instance is the one its last ledger row sealed. */
  ghost predicate Current(w: World, s: Store) {
    forall id :: CurrentAt(w, s, id)
  }

  ghost predicate CurrentAt(w: World, s: Store, id: string) {
    var k := LastIndex(s.ledger, LedgerId, id);
    && (id in s.instances <==> k >= 0)
    && (k >= 0 ==> Sha(w, s.instances[id]) == s.ledger[k].sha)
  }

  ghost predicate Numbered(s: Store) {
    && (forall i :: 0 <= i < |s.ledger| ==> s.ledger[i].seqno < s.nextSeq)
    && (forall i :: 0 <= i < |s.proofs| ==> s.proofs[i].pid < s.nextProof)
    && (forall i :: 0 <= i < |s.outbox| ==> s.outbox[i].oseq < s.nextOut)
  }

  /** `order` lists every instance id once. */
  ghost predicate Listed(s: Store) {
    && (forall id :: id in s.instances <==> id in s.order)
    && (forall i, j :: 0 <= i < j < |s.order| ==> s.order[i] != s.order[j])
  }

  /** The proof chain is whole and speaks of the stored bodies. */
  ghost predicate Intact(w: World, key: string, s: Store) {
    Chained(s.ledger) && Proven(w, key, s) && Current(w, s)
  }

  ghost predicate Sound(w: World, key: string, s: Store) {
    Intact(w, key, s) && Numbered(s) && Listed(s)
  }

  lemma ProofIndexMirrors(w: World, key: string, s: Store, id: string)
    requires Proven(w, key, s)
    ensures LastIndex(s.proofs, ProofAbout, id) == LastIndex(s.ledger, LedgerId, id)
  {
    var k := LastIndex(s.ledger, LedgerId, id);
    assert forall j :: k < j < |s.ledger| ==> LedgerId(s.ledger[j]) != id;
    assert forall j :: 0 <= j < |s.proofs| ==> ProofAbout(s.proofs[j]) == LedgerId(s.ledger[j]);
    LastIndexUnique(s.proofs, ProofAbout, id, k);
  }

  lemma VerifiesFrom(w: World, key: string, s: Store, id: string, k: nat)
    requires Chained(s.ledger) && Proven(w, key, s)
    requires key != "" && id in s.instances && k < |s.ledger|
    requires Latest(s.ledger, LedgerId, LedgerSeq, id) == Some(s.ledger[k])
    requires Latest(s.proofs, ProofAbout, ProofPid, id) == Some(s.proofs[k])
    requires Sha(w, s.instances[id]) == s.ledger[k].sha
    requires MaxSeq(s.ledger, Some(s.ledger[k].seqno)) == if k == 0 then None else Some(s.ledger[k - 1].seqno)
    ensures Verify(w, Some(key), s, id)
  {
  }

  lemma VerifiesAt(w: World, key: string, s: Store, id: string)
    requires Chained(s.ledger) && Proven(w, key, s) && CurrentAt(w, s, id)
    requires key != "" && id in s.instances
    ensures Verify(w, Some(key), s, id)
  {
    var k := LastIndex(s.ledger, LedgerId, id);
    LatestOfAscending(s.ledger, LedgerId, LedgerSeq, id);
    LatestOfAscending(s.proofs, ProofAbout, ProofPid, id);
    ProofIndexMirrors(w, key, s, id);
    MaxSeqOfAscending(s.ledger, k);
    VerifiesFrom(w, key, s, id, k);
  }

  /** In a sound store every instance verifies under the sealing key. */
  lemma SoundVerifies(w: World, key: string, s: Store)
    requires Intact(w, key, s) && key != ""
    ensures forall id :: id in s.instances ==> Verify(w, Some(key), s, id)
  {
    forall id | id in s.instances ensures Verify(w, Some(key), s, id) {
      VerifiesAt(w, key, s, id);
    }
  }

  // ---------------------------------------------- what one write does to a store

  function NewRow(w: World, key: string, s: Store, id: string, b: Body): LedgerRow {
    LedgerRow(s.nextSeq, id, Sha(w, b), w.hmac(Sha(w, b), key), MaxSeq(s.ledger, None))
  }

  function NewProof(w: World, s: Store, id: string, b: Body): ProofRow {
    ProofRow(s.nextProof, id, METHOD, Sha(w, b))
  }

  lemma WrittenShape(w: World, key: string, s: Store, id: string, b: Body)
    ensures var s' := Written(w, key, s, id, b);
      && s'.instances == s.instances[id := b]
      && s'.order == (if id in s.instances then s.order else s.order + [id])
      && s'.ledger == s.ledger + [NewRow(w, key, s, id, b)]
      && s'.proofs == s.proofs + [NewProof(w, s, id, b)]
      && |s'.outbox| == |s.outbox| + 1 && s.outbox == s'.outbox[..|s.outbox|]
      && (var o := s'.outbox[|s.outbox|];
          && o.oseq == s.nextOut && o.ledgerSeq == s.nextSeq && o.payload == w.bytes(b)
          && o.subject == PublishSubject(Field(w, b, "type")))
      && s'.nextSeq == s.nextSeq + 1 && s'.nextProof == s.nextProof + 1 && s'.nextOut == s.nextOut + 1
  {
  }

  lemma AscendingSnoc<T>(rows: seq<T>, x: T, rank: T -> nat)
    requires Ascending(rows, rank)
    requires forall i :: 0 <= i < |rows| ==> rank(rows[i]) < rank(x)
    ensures Ascending(rows + [x], rank)
  {
  }

  lemma SnocChained(w: World, key: string, s: Store, id: string, b: Body)
    requires Chained(s.ledger) && forall i :: 0 <= i < |s.ledger| ==> s.ledger[i].seqno < s.nextSeq
    ensures Chained(s.ledger + [NewRow(w, key, s, id, b)])
  {
    MaxSeqIsLast(s.ledger, None);
    AscendingSnoc(s.ledger, NewRow(w, key, s, id, b), LedgerSeq);
  }

  lemma WrittenProven(w: World, key: string, s: Store, id: string, b: Body)
    requires Proven(w, key, s) && forall i :: 0 <= i < |s.proofs| ==> s.proofs[i].pid < s.nextProof
    ensures Proven(w, key, Written(w, key, s, id, b))
  {
    WrittenShape(w, key, s, id, b);
    AscendingSnoc(s.proofs, NewProof(w, s, id, b), ProofPid);
  }

  lemma WrittenCurrentAt(w: World, key: string, s: Store, id: string, b: Body, other: string)
    requires CurrentAt(w, s, other)
    ensures CurrentAt(w, Written(w, key, s, id, b), other)
  {
    WrittenShape(w, key, s, id, b);
    LastIndexSnoc(s.ledger, NewRow(w, key, s, id, b), LedgerId, other);
  }

  lemma WrittenListed(w: World, key: string, s: Store, id: string, b: Body)
    requires Listed(s)
    ensures Listed(Written(w, key, s, id, b))
  {
    WrittenShape(w, key, s, id, b);
  }

  lemma WrittenNumbered(w: World, key: string, s: Store, id: string, b: Body)
    requires Numbered(s)
    ensures Numbered(Written(w, key, s, id, b))
  {
    WrittenShape(w, key, s, id, b);
  }

  lemma WrittenSound(w: World, key: string, s: Store, id: string, b: Body)
    requires Sound(w, key, s)
    ensures Sound(w, key, Written(w, key, s, id, b))
  {
    WrittenShape(w, key, s, id, b);
    SnocChained(w, key, s, id, b);
    WrittenProven(w, key, s, id, b);
    WrittenListed(w, key, s, id, b);
    WrittenNumbered(w, key, s, id, b);
    forall other ensures CurrentAt(w, Written(w, key, s, id, b), other) {
      WrittenCurrentAt(w, key, s, id, b, other);
    }
  }

  /** Tables restored, counters only forward: an abort keeps the store sound. */
  lemma RollbackSound(w: World, key: string, before: Store, after: Store)
    requires Sound(w, key, before)
    requires before.nextSeq <= after.nextSeq && before.nextProof <= after.nextProof && before.nextOut <= after.nextOut
    ensures Sound(w, key, Rollback(before, after))
  {
    forall id ensures CurrentAt(w, Rollback(before, after), id) {
      assert CurrentAt(w, before, id);
    }
  }

  /** One call of `ckp.seal`, committed or raised, keeps the store sound. */
  lemma SealSound(w: World, key: string, sess: Session, g: Graph, s: Store, id: string, body: Body, nonce: string)
    requires Sound(w, key, s)
    requires IdentityKey(sess).Some? ==> IdentityKey(sess).value == key
    ensures Sound(w, key, Seal(w, sess, g, s, id, body, nonce).store)
  {
    var b := Canonical(w, sess, body, nonce);
    if IdentityKey(sess).Some? {
      WrittenShape(w, key, s, id, b);
      WrittenSound(w, key, s, id, b);
      RollbackSound(w, key, s, Written(w, key, s, id, b).(nextProof := s.nextProof));
    }
  }
}
