/** Whole runs of the ledger: transactions of one or more seals that commit or
    abort, interleaved with the worker's batch drains of the outbox. */
module LedgerRuns {
  import opened Text
  import opened Utf8
  import opened Facts
  import opened Ledger

  const BATCH := 100

  datatype Call = Call(sess: Session, graph: Graph, id: string, body: Body, nonce: string)

  datatype Event = Txn(calls: seq<Call>, commit: bool) | Drain

  /** The store, and the batches handed to the publisher so far. */
  datatype Sys = Sys(store: Store, batches: seq<seq<OutboxRow>>)

  datatype Progress = Progress(store: Store, ok: bool)

  /** Seals in order until one raises. */
  function RunCalls(w: World, s: Store, calls: seq<Call>): Progress
    decreases |calls|
  {
    if calls == [] then Progress(s, true)
    else
      var c := calls[0];
      var r := Seal(w, c.sess, c.graph, s, c.id, c.body, c.nonce);
      if r.Raised? then Progress(r.store, false) else RunCalls(w, r.store, calls[1..])
  }

  function RunTxn(w: World, s: Store, calls: seq<Call>, commit: bool): Store {
    var p := RunCalls(w, s, calls);
    if p.ok && commit then p.store else Rollback(s, p.store)
  }

  /** `DELETE ... WHERE seq IN (SELECT seq ORDER BY seq LIMIT 100) RETURNING ...`. */
  function Taken(s: Store): nat { if |s.outbox| <= BATCH then |s.outbox| else BATCH }

  function DrainOnce(y: Sys): Sys {
    var n := Taken(y.store);
    Sys(y.store.(outbox := y.store.outbox[n..]), y.batches + [y.store.outbox[..n]])
  }

  function Step(w: World, y: Sys, e: Event): Sys {
    match e
    case Txn(calls, commit) => y.(store := RunTxn(w, y.store, calls, commit))
    case Drain => DrainOnce(y)
  }

  function Run(w: World, y: Sys, events: seq<Event>): Sys
    decreases |events|
  {
    if events == [] then y else Run(w, Step(w, y, events[0]), events[1..])
  }

  /** Every call signs with the one key, or has none and will be refused. */
  ghost predicate OneKey(key: string, calls: seq<Call>) {
    forall i :: 0 <= i < |calls| ==>
      var k := IdentityKey(calls[i].sess); k.Some? ==> k.value == key
  }

  ghost predicate OneKeyRun(key: string, events: seq<Event>) {
    forall i :: 0 <= i < |events| ==> events[i].Txn? ==> OneKey(key, events[i].calls)
  }

  // ------------------------------------------------------------ what is conserved

  function Flat(batches: seq<seq<OutboxRow>>): seq<OutboxRow> {
    if batches == [] then [] else Flat(batches[..|batches| - 1]) + batches[|batches| - 1]
  }

  /** Every outbox row there ever was: drained batches, then what is pending. */
  function Emitted(y: Sys): seq<OutboxRow> { Flat(y.batches) + y.store.outbox }

  /** Last write per id wins. */
  function Replay(ledger: seq<LedgerRow>, rows: seq<OutboxRow>): map<string, seq<byte>>
    requires |ledger| == |rows|
  {
    if ledger == [] then map[]
    else
      var n := |ledger| - 1;
      Replay(ledger[..n], rows[..n])[ledger[n].id := rows[n].payload]
  }

  function Published(w: World, instances: map<string, Body>): map<string, seq<byte>> {
    map id | id in instances :: w.bytes(instances[id])
  }

  function OutSeq(r: OutboxRow): nat { r.oseq }

  /** The outbox row that belongs to one ledger row. */
  ghost predicate Announces(w: World, r: LedgerRow, o: OutboxRow) {
    && o.ledgerSeq == r.seqno
    && w.digest(o.payload) == r.sha
    && "Ck-Seq" in o.headers && o.headers["Ck-Seq"] == Str(Print(r.seqno))
  }

  ghost predicate Conserved(w: World, y: Sys) {
    var rows := Emitted(y);
    && |rows| == |y.store.ledger|
    && (forall i :: 0 <= i < |rows| ==> Announces(w, y.store.ledger[i], rows[i]))
    && (forall i :: 0 <= i < |rows| ==> rows[i].oseq < y.store.nextOut)
    && Ascending(rows, OutSeq)
    && Replay(y.store.ledger, rows) == Published(w, y.store.instances)
  }

  lemma ReplaySnoc(ledger: seq<LedgerRow>, rows: seq<OutboxRow>, r: LedgerRow, o: OutboxRow)
    requires |ledger| == |rows|
    ensures Replay(ledger + [r], rows + [o]) == Replay(ledger, rows)[r.id := o.payload]
  {
    assert (ledger + [r])[..|ledger|] == ledger && (rows + [o])[..|rows|] == rows;
  }

  lemma WrittenOutbox(w: World, key: string, s: Store, id: string, b: Body) returns (o: OutboxRow)
    ensures Written(w, key, s, id, b).outbox == s.outbox + [o]
    ensures o.oseq == s.nextOut && o.payload == w.bytes(b) && Announces(w, NewRow(w, key, s, id, b), o)
  {
    WrittenShape(w, key, s, id, b);
    o := Written(w, key, s, id, b).outbox[|s.outbox|];
  }

  lemma WrittenConserved(w: World, key: string, y: Sys, id: string, b: Body)
    requires Conserved(w, y)
    ensures Conserved(w, y.(store := Written(w, key, y.store, id, b)))
  {
    var y' := y.(store := Written(w, key, y.store, id, b));
    WrittenShape(w, key, y.store, id, b);
    var o := WrittenOutbox(w, key, y.store, id, b);
    assert Emitted(y') == Emitted(y) + [o];
    ConservedSnoc(w, y, y', NewRow(w, key, y.store, id, b), o, b);
  }

  lemma ConservedSnoc(w: World, y: Sys, y': Sys, r: LedgerRow, o: OutboxRow, b: Body)
    requires Conserved(w, y) && Announces(w, r, o) && o.payload == w.bytes(b) && o.oseq == y.store.nextOut
    requires y'.store.ledger == y.store.ledger + [r] && Emitted(y') == Emitted(y) + [o]
    requires y'.store.nextOut == y.store.nextOut + 1 && y'.store.instances == y.store.instances[r.id := b]
    ensures Conserved(w, y')
  {
    AscendingSnoc(Emitted(y), o, OutSeq);
    ReplaySnoc(y.store.ledger, Emitted(y), r, o);
    PublishedSnoc(w, y.store.instances, r.id, b);
    AnnouncedSnoc(w, y.store.ledger, Emitted(y), r, o, y.store.nextOut);
  }

  lemma PublishedSnoc(w: World, instances: map<string, Body>, id: string, b: Body)
    ensures Published(w, instances[id := b]) == Published(w, instances)[id := w.bytes(b)]
  {
  }

  lemma AnnouncedSnoc(w: World, ledger: seq<LedgerRow>, rows: seq<OutboxRow>, r: LedgerRow, o: OutboxRow, next: nat)
    requires |rows| == |ledger| && Announces(w, r, o) && o.oseq == next
    requires forall i :: 0 <= i < |rows| ==> Announces(w, ledger[i], rows[i])
    requires forall i :: 0 <= i < |rows| ==> rows[i].oseq < next
    ensures forall i :: 0 <= i < |rows| + 1 ==> Announces(w, (ledger + [r])[i], (rows + [o])[i])
    ensures forall i :: 0 <= i < |rows| + 1 ==> (rows + [o])[i].oseq < next + 1
  {
  }

  /** Counters ahead, tables as they were: nothing observable moved. */
  ghost predicate Forward(before: Store, after: Store) {
    before.nextSeq <= after.nextSeq && before.nextProof <= after.nextProof && before.nextOut <= after.nextOut
  }

  lemma RollbackConserved(w: World, y: Sys, after: Store)
    requires Conserved(w, y) && Forward(y.store, after)
    ensures Conserved(w, y.(store := Rollback(y.store, after)))
  {
    assert Emitted(y.(store := Rollback(y.store, after))) == Emitted(y);
  }

  lemma SealForward(w: World, c: Call, s: Store)
    ensures Forward(s, Seal(w, c.sess, c.graph, s, c.id, c.body, c.nonce).store)
  {
    if IdentityKey(c.sess).Some? {
      WrittenShape(w, IdentityKey(c.sess).value, s, c.id, Canonical(w, c.sess, c.body, c.nonce));
    }
  }

  lemma {:induction false} CallsForward(w: World, s: Store, calls: seq<Call>)
    ensures Forward(s, RunCalls(w, s, calls).store)
    decreases |calls|
  {
    if calls != [] {
      var c := calls[0];
      SealForward(w, c, s);
      CallsForward(w, Seal(w, c.sess, c.graph, s, c.id, c.body, c.nonce).store, calls[1..]);
    }
  }

  /** The whole-system invariant: a sound store, nothing lost and nothing doubled. */
  ghost predicate Good(w: World, key: string, y: Sys) {
    Sound(w, key, y.store) && Conserved(w, y)
  }

  lemma SealKeeps(w: World, key: string, y: Sys, c: Call)
    requires Good(w, key, y)
    requires IdentityKey(c.sess).Some? ==> IdentityKey(c.sess).value == key
    requires Seal(w, c.sess, c.graph, y.store, c.id, c.body, c.nonce).Sealed?
    ensures Good(w, key, y.(store := Seal(w, c.sess, c.graph, y.store, c.id, c.body, c.nonce).store))
  {
    SealSound(w, key, c.sess, c.graph, y.store, c.id, c.body, c.nonce);
    WrittenConserved(w, key, y, c.id, Canonical(w, c.sess, c.body, c.nonce));
  }

  lemma CallsUnfold(w: World, s: Store, calls: seq<Call>) returns (s': Store)
    requires calls != [] && RunCalls(w, s, calls).ok
    ensures var c := calls[0];
      Seal(w, c.sess, c.graph, s, c.id, c.body, c.nonce) == Sealed(s', Sha(w, Canonical(w, c.sess, c.body, c.nonce)))
    ensures RunCalls(w, s, calls) == RunCalls(w, s', calls[1..])
  {
    var c := calls[0];
    s' := Seal(w, c.sess, c.graph, s, c.id, c.body, c.nonce).store;
  }

  lemma {:induction false} CallsKeep(w: World, key: string, y: Sys, calls: seq<Call>)
    requires Good(w, key, y) && OneKey(key, calls)
    requires RunCalls(w, y.store, calls).ok
    ensures Good(w, key, y.(store := RunCalls(w, y.store, calls).store))
    decreases |calls|
  {
    if calls != [] {
      var s' := CallsUnfold(w, y.store, calls);
      SealKeeps(w, key, y, calls[0]);
      assert OneKey(key, calls[1..]);
      CallsKeep(w, key, y.(store := s'), calls[1..]);
    }
  }

  lemma TxnKeeps(w: World, key: string, y: Sys, calls: seq<Call>, commit: bool)
    requires Good(w, key, y) && OneKey(key, calls)
    ensures Good(w, key, y.(store := RunTxn(w, y.store, calls, commit)))
  {
    CallsForward(w, y.store, calls);
    var p := RunCalls(w, y.store, calls);
    if p.ok && commit {
      CallsKeep(w, key, y, calls);
    } else {
      RollbackSound(w, key, y.store, p.store);
      RollbackConserved(w, y, p.store);
    }
  }

  lemma DropPendingSound(w: World, key: string, s: Store, n: nat)
    requires Sound(w, key, s) && n <= |s.outbox|
    ensures Sound(w, key, s.(outbox := s.outbox[n..]))
  {
    var s' := s.(outbox := s.outbox[n..]);
    forall id ensures CurrentAt(w, s', id) {
      assert CurrentAt(w, s, id);
    }
    assert Numbered(s') && Listed(s') && Proven(w, key, s');
  }

  /** A drain only moves rows from pending to published. */
  lemma DrainMoves(y: Sys)
    ensures Emitted(DrainOnce(y)) == Emitted(y)
  {
    var y' := DrainOnce(y);
    assert y'.batches[..|y.batches|] == y.batches;
  }

  lemma DrainKeeps(w: World, key: string, y: Sys)
    requires Good(w, key, y)
    ensures Good(w, key, DrainOnce(y))
  {
    DropPendingSound(w, key, y.store, Taken(y.store));
    DrainMoves(y);
  }

  lemma StepKeeps(w: World, key: string, y: Sys, e: Event)
    requires Good(w, key, y) && (e.Txn? ==> OneKey(key, e.calls))
    ensures Good(w, key, Step(w, y, e))
  {
    match e
    case Txn(calls, commit) => TxnKeeps(w, key, y, calls, commit);
    case Drain => DrainKeeps(w, key, y);
  }

  /** Over every run: the chain stays whole, every ledger row has exactly one
      outbox row (drained or pending) that announces it, and replaying payloads
      in ledger order rebuilds the instances. */
  lemma {:induction false} RunKeeps(w: World, key: string, y: Sys, events: seq<Event>)
    requires Good(w, key, y) && OneKeyRun(key, events)
    ensures Good(w, key, Run(w, y, events))
    decreases |events|
  {
    if events != [] {
      StepKeeps(w, key, y, events[0]);
      RunKeeps(w, key, Step(w, y, events[0]), events[1..]);
    }
  }

  /** From the empty database, after any run under one key, every stored
      instance verifies. */
  lemma EveryInstanceVerifies(w: World, key: string, events: seq<Event>)
    requires key != "" && OneKeyRun(key, events)
    ensures var s := Run(w, Sys(EMPTY, []), events).store;
      Chained(s.ledger) && forall id :: id in s.instances ==> Verify(w, Some(key), s, id)
  {
    EmptyStart(w, key);
    RunKeeps(w, key, Sys(EMPTY, []), events);
    SoundVerifies(w, key, Run(w, Sys(EMPTY, []), events).store);
  }

  lemma EmptyStart(w: World, key: string)
    ensures Good(w, key, Sys(EMPTY, []))
  {
    assert Emitted(Sys(EMPTY, [])) == [];
  }

  // ---------------------------------------------------------------- the batches

  lemma {:induction false} BatchPosition(batches: seq<seq<OutboxRow>>, i: nat, a: nat) returns (p: nat)
    requires i < |batches| && a < |batches[i]|
    ensures p < |Flat(batches)| && Flat(batches)[p] == batches[i][a]
    ensures |Flat(batches[..i])| <= p < |Flat(batches[..i + 1])|
  {
    var n := |batches| - 1;
    if i == n {
      assert batches[..i + 1] == batches;
      p := |Flat(batches[..n])| + a;
    } else {
      p := BatchPosition(batches[..n], i, a);
      assert batches[..n][..i] == batches[..i] && batches[..n][..i + 1] == batches[..i + 1];
    }
  }

  lemma {:induction false} FlatPrefix(batches: seq<seq<OutboxRow>>, i: nat, j: nat)
    requires i <= j <= |batches|
    ensures |Flat(batches[..i])| <= |Flat(batches[..j])|
  {
    if i < j {
      FlatPrefix(batches, i, j - 1);
      assert batches[..j][..j - 1] == batches[..j - 1];
    }
  }

  /** No row of an earlier batch comes after a row of a later one, in outbox
      order and in ledger order alike. */
  lemma BatchesInOrder(w: World, key: string, y: Sys, i: nat, a: nat, j: nat, b: nat)
    requires Good(w, key, y)
    requires i < j < |y.batches| && a < |y.batches[i]| && b < |y.batches[j]|
    ensures y.batches[i][a].oseq < y.batches[j][b].oseq
    ensures y.batches[i][a].ledgerSeq < y.batches[j][b].ledgerSeq
  {
    var p := BatchPosition(y.batches, i, a);
    var q := BatchPosition(y.batches, j, b);
    FlatPrefix(y.batches, i + 1, j);
    var rows := Emitted(y);
    assert rows[p] == y.batches[i][a] && rows[q] == y.batches[j][b];
    assert OutSeq(rows[p]) < OutSeq(rows[q]);
    assert Announces(w, y.store.ledger[p], rows[p]) && Announces(w, y.store.ledger[q], rows[q]);
    assert LedgerSeq(y.store.ledger[p]) < LedgerSeq(y.store.ledger[q]);
  }

  /** A drain takes the lowest pending sequence numbers. */
  lemma DrainTakesLowest(w: World, y: Sys, a: nat, b: nat)
    requires Conserved(w, y)
    requires a < Taken(y.store) <= b < |y.store.outbox|
    ensures y.store.outbox[a].oseq < y.store.outbox[b].oseq
  {
    var rows, d := Emitted(y), |Flat(y.batches)|;
    assert OutSeq(rows[d + a]) < OutSeq(rows[d + b]);
  }

  function Drains(y: Sys, k: nat): Sys
    decreases k
  {
    if k == 0 then y else Drains(DrainOnce(y), k - 1)
  }

  /** k drains leave max(0, n - 100 k) rows: the outbox is empty exactly from
      ceil(n / 100) drains on. */
  lemma {:induction false} DrainsEmpty(y: Sys, k: nat)
    ensures var n := |y.store.outbox|;
      |Drains(y, k).store.outbox| == if n <= 100 * k then 0 else n - 100 * k
    ensures Drains(y, k).store.outbox == [] <==> k >= (|y.store.outbox| + 99) / 100
    decreases k
  {
    if k > 0 {
      DrainsEmpty(DrainOnce(y), k - 1);
    }
  }
}
