/** What `ckp.verify` notices when a reachable store is edited behind its back:
    for each kind of edit, exactly which verdicts change. */
module Tamper {
  import opened Text
  import opened Facts
  import opened Ledger

  /** Distinct bodies have distinct digests. */
  ghost predicate CollisionFree(w: World) {
    forall a: Body, b: Body :: Sha(w, a) == Sha(w, b) ==> a == b
  }

  /** Verify, located by index: `k` and `p` are the latest ledger and proof rows. */
  ghost predicate Passes(w: World, key: string, s: Store, id: string, k: int, p: int) {
    && key != "" && id in s.instances && 0 <= k < |s.ledger| && 0 <= p < |s.proofs|
    && s.ledger[k].prev == (if k == 0 then None else Some(s.ledger[k - 1].seqno))
    && s.proofs[p].how == METHOD
    && Sha(w, s.instances[id]) == s.ledger[k].sha == s.proofs[p].digest
    && s.ledger[k].sig == w.hmac(s.ledger[k].sha, key)
  }

  lemma VerifyLocated(w: World, key: string, s: Store, id: string, led: Option<LedgerRow>, prf: Option<ProofRow>, k: int, p: int)
    requires -1 <= k < |s.ledger| && -1 <= p < |s.proofs|
    requires led == Latest(s.ledger, LedgerId, LedgerSeq, id) && prf == Latest(s.proofs, ProofAbout, ProofPid, id)
    requires led == (if k < 0 then None else Some(s.ledger[k])) && prf == (if p < 0 then None else Some(s.proofs[p]))
    requires k >= 0 ==> MaxSeq(s.ledger, Some(s.ledger[k].seqno)) == if k == 0 then None else Some(s.ledger[k - 1].seqno)
    ensures Verify(w, Some(key), s, id) <==> Passes(w, key, s, id, k, p)
  {
  }

  /** On rows in ascending order verify is the index check. */
  lemma VerifyByIndex(w: World, key: string, s: Store, id: string, k: int, p: int)
    requires Ascending(s.ledger, LedgerSeq) && Ascending(s.proofs, ProofPid)
    requires k == LastIndex(s.ledger, LedgerId, id) && p == LastIndex(s.proofs, ProofAbout, id)
    ensures Verify(w, Some(key), s, id) <==> Passes(w, key, s, id, k, p)
  {
    LatestOfAscending(s.ledger, LedgerId, LedgerSeq, id);
    LatestOfAscending(s.proofs, ProofAbout, ProofPid, id);
    if k >= 0 {
      MaxSeqOfAscending(s.ledger, k);
    }
    VerifyLocated(w, key, s, id, Latest(s.ledger, LedgerId, LedgerSeq, id), Latest(s.proofs, ProofAbout, ProofPid, id), k, p);
  }

  lemma PassesAt(w: World, key: string, s: Store, id: string, k: nat)
    requires Chained(s.ledger) && Proven(w, key, s) && k < |s.ledger|
    requires key != "" && id in s.instances && Sha(w, s.instances[id]) == s.ledger[k].sha
    ensures Passes(w, key, s, id, k, k)
  {
    assert s.ledger[k].prev == if k == 0 then None else Some(s.ledger[k - 1].seqno);
  }

  /** In a sound store the latest ledger and proof rows sit at one index. */
  lemma Located(w: World, key: string, s: Store, id: string) returns (k: int)
    requires Intact(w, key, s) && key != ""
    ensures k == LastIndex(s.ledger, LedgerId, id) == LastIndex(s.proofs, ProofAbout, id)
    ensures id in s.instances <==> k >= 0
    ensures id in s.instances ==> Passes(w, key, s, id, k, k)
  {
    k := LastIndex(s.ledger, LedgerId, id);
    ProofIndexMirrors(w, key, s, id);
    assert CurrentAt(w, s, id);
    if k >= 0 {
      PassesAt(w, key, s, id, k);
    }
  }

  /** A rewritten body verifies only if it has the same digest; no other verdict
      moves. */
  lemma BodyEdit(w: World, key: string, s: Store, id: string, b: Body, other: string)
    requires Intact(w, key, s) && key != "" && id in s.instances && other in s.instances
    ensures var s' := s.(instances := s.instances[id := b]);
      Verify(w, Some(key), s', other) <==> other != id || Sha(w, b) == Sha(w, s.instances[id])
    ensures CollisionFree(w) && b != s.instances[id] ==> !Verify(w, Some(key), s.(instances := s.instances[id := b]), id)
  {
    var s' := s.(instances := s.instances[id := b]);
    var k := Located(w, key, s, other);
    VerifyByIndex(w, key, s', other, k, k);
    var j := Located(w, key, s, id);
    VerifyByIndex(w, key, s', id, j, j);
  }

  lemma LastIndexEdited<T>(rows: seq<T>, key: T -> string, id: string, k: nat, x: T)
    requires k < |rows| && key(x) == key(rows[k])
    ensures LastIndex(rows[k := x], key, id) == LastIndex(rows, key, id)
  {
    var m := LastIndex(rows, key, id);
    assert forall j :: 0 <= j < |rows| ==> key(rows[k := x][j]) == key(rows[j]);
    LastIndexUnique(rows[k := x], key, id, m);
  }

  lemma AscendingEdited<T>(rows: seq<T>, rank: T -> nat, k: nat, x: T)
    requires Ascending(rows, rank) && k < |rows| && rank(x) == rank(rows[k])
    ensures Ascending(rows[k := x], rank)
  {
    var edited := rows[k := x];
    forall i, j | 0 <= i < j < |edited| ensures rank(edited[i]) < rank(edited[j]) {
      assert rank(edited[i]) == rank(rows[i]) && rank(edited[j]) == rank(rows[j]);
    }
  }

  lemma PassesEdited(w: World, key: string, s: Store, k: nat, x: LedgerRow, id: string, m: nat)
    requires Passes(w, key, s, id, m, m)
    requires k < |s.ledger| && x.seqno == s.ledger[k].seqno && x.id == s.ledger[k].id
    ensures Passes(w, key, s.(ledger := s.ledger[k := x]), id, m, m) <==> m != k || x == s.ledger[k]
  {
  }

  /** Any change to the digest, signature or predecessor of an instance's latest
      ledger row is noticed, and no other verdict moves; a change to an older row
      moves no verdict at all. */
  lemma LedgerEdit(w: World, key: string, s: Store, k: nat, x: LedgerRow, id: string)
    requires Intact(w, key, s) && key != "" && id in s.instances
    requires k < |s.ledger| && x.seqno == s.ledger[k].seqno && x.id == s.ledger[k].id
    ensures Verify(w, Some(key), s.(ledger := s.ledger[k := x]), id)
       <==> LastIndex(s.ledger, LedgerId, id) != k || x == s.ledger[k]
  {
    var s' := s.(ledger := s.ledger[k := x]);
    var m := Located(w, key, s, id);
    LastIndexEdited(s.ledger, LedgerId, id, k, x);
    AscendingEdited(s.ledger, LedgerSeq, k, x);
    VerifyByIndex(w, key, s', id, m, m);
    PassesEdited(w, key, s, k, x, id, m);
  }

  /** The same for the method and digest of the latest proof row. */
  lemma ProofEdit(w: World, key: string, s: Store, k: nat, x: ProofRow, id: string)
    requires Intact(w, key, s) && key != "" && id in s.instances
    requires k < |s.proofs| && x.pid == s.proofs[k].pid && x.about == s.proofs[k].about
    ensures Verify(w, Some(key), s.(proofs := s.proofs[k := x]), id)
       <==> LastIndex(s.ledger, LedgerId, id) != k || x == s.proofs[k]
  {
    var s' := s.(proofs := s.proofs[k := x]);
    var m := Located(w, key, s, id);
    LastIndexEdited(s.proofs, ProofAbout, id, k, x);
    AscendingEdited(s.proofs, ProofPid, k, x);
    VerifyByIndex(w, key, s', id, m, m);
  }

  // ------------------------------------------------------------------- deletion

  function Without<T>(rows: seq<T>, k: nat): seq<T>
    requires k < |rows|
  {
    rows[..k] + rows[k + 1..]
  }

  lemma AscendingWithout<T>(rows: seq<T>, rank: T -> nat, k: nat)
    requires Ascending(rows, rank) && k < |rows|
    ensures Ascending(Without(rows, k), rank)
  {
    var short := Without(rows, k);
    forall i, j | 0 <= i < j < |short| ensures rank(short[i]) < rank(short[j]) {
      assert short[i] == rows[if i < k then i else i + 1] && short[j] == rows[if j < k then j else j + 1];
    }
  }

  lemma LastIndexWithout<T>(rows: seq<T>, key: T -> string, id: string, k: nat)
    requires k < |rows|
    ensures var m := LastIndex(rows, key, id);
      LastIndex(Without(rows, k), key, id)
        == if m > k then m - 1 else if m < k then m else LastIndex(rows[..k], key, id)
  {
    var m := LastIndex(rows, key, id);
    var short := Without(rows, k);
    assert forall j :: 0 <= j < k ==> short[j] == rows[j];
    assert forall j :: k <= j < |short| ==> short[j] == rows[j + 1];
    var n := if m > k then m - 1 else if m < k then m else LastIndex(rows[..k], key, id);
    LastIndexUnique(short, key, id, n);
  }

  /** Deleting one ledger row: the owner of the next row fails when that row is
      its latest; the owner of the deleted row passes exactly when an older row
      of its own carries the same digest; every other verdict stays true. */
  lemma RowDeleted(w: World, key: string, s: Store, k: nat, id: string)
    requires Intact(w, key, s) && key != "" && id in s.instances && k < |s.ledger|
    ensures var m := LastIndex(s.ledger, LedgerId, id);
      var older := LastIndex(s.ledger[..k], LedgerId, id);
      Verify(w, Some(key), s.(ledger := Without(s.ledger, k)), id)
      <==> m != k + 1 && (m == k ==> older >= 0 && s.ledger[older].sha == s.ledger[k].sha)
  {
    var s' := s.(ledger := Without(s.ledger, k));
    var m := Located(w, key, s, id);
    var older := LastIndex(s.ledger[..k], LedgerId, id);
    AscendingWithout(s.ledger, LedgerSeq, k);
    LastIndexWithout(s.ledger, LedgerId, id, k);
    var n := if m > k then m - 1 else if m < k then m else older;
    VerifyByIndex(w, key, s', id, n, m);
    if n >= 0 {
      DeletedPrev(s.ledger, k, n);
      PassesDeleted(w, key, s, k, id, m, n);
    }
  }

  lemma PassesDeleted(w: World, key: string, s: Store, k: nat, id: string, m: nat, n: nat)
    requires Passes(w, key, s, id, m, m) && k < |s.ledger| && n < |s.ledger| - 1
    requires n == if m > k then m - 1 else if m < k then m else n
    requires m == k ==> n < k && s.ledger[n].sig == w.hmac(s.ledger[n].sha, key)
    requires var short := Without(s.ledger, k);
      short[n].prev == (if n == 0 then None else Some(short[n - 1].seqno)) <==> n != k
    ensures Passes(w, key, s.(ledger := Without(s.ledger, k)), id, n, m)
       <==> m != k + 1 && (m == k ==> s.ledger[n].sha == s.ledger[k].sha)
  {
    assert Without(s.ledger, k)[n] == s.ledger[if n < k then n else n + 1];
  }

  /** After a deletion only the row that followed has a stale predecessor. */
  lemma DeletedPrev(rows: seq<LedgerRow>, k: nat, n: nat)
    requires Chained(rows) && k < |rows| && n < |rows| - 1
    ensures var short := Without(rows, k);
      short[n].prev == (if n == 0 then None else Some(short[n - 1].seqno)) <==> n != k
  {
    var short := Without(rows, k);
    if n < k {
      assert short[n] == rows[n] && (n > 0 ==> short[n - 1] == rows[n - 1]);
      assert rows[n].prev == if n == 0 then None else Some(rows[n - 1].seqno);
    } else {
      assert short[n] == rows[n + 1] && rows[n + 1].prev == Some(rows[n].seqno);
      if n > 0 {
        assert short[n - 1] == rows[if n - 1 < k then n - 1 else n];
        assert LedgerSeq(rows[n - 1]) < LedgerSeq(rows[n]);
      }
    }
  }
}
