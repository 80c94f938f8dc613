/** What each governed call can and cannot touch, row by row. */
module GovernanceFrames {
  import opened Text
  import opened Facts
  import opened Ledger
  import opened Governance
  import Normalise

  // ------------------------------------------------------ the canonical body

  /** The keys `ckp.seal` writes itself. */
  predicate Stamped(key: string) {
    || key == PARTICIPANT || key == CREATED_BY || key == PRODUCED_BY
    || key == "participant" || key == "participant_display_name" || key == "participant_email"
  }

  lemma StampKeeps(b: Body, who: string, display: Option<string>, email: Option<string>, kernel: string, key: string)
    requires !Stamped(key)
    ensures var c := Stamp(b, who, display, email, kernel);
      (key in c <==> key in b) && (key in b ==> c[key] == b[key])
  {
  }

  lemma CanonicalKeeps(w: World, sess: Session, b: Body, nonce: string, key: string)
    requires !Stamped(key)
    ensures var c := Canonical(w, sess, b, nonce);
      (key in c <==> key in b) && (key in b ==> c[key] == b[key]) && Field(w, c, key) == Field(w, b, key)
  {
    StampKeeps(b, Participant(w, sess, b, nonce), Claim(w, sess, b, "preferred_username"),
               Claim(w, sess, b, "email"), KernelIri(Project(sess)), key);
  }

  /** A sealed body still says what its caller wrote under an unstamped key. */
  lemma SealedField(w: World, sess: Session, body: Body, nonce: string, key: string, text: string)
    requires !Stamped(key) && key in body && body[key] == Str(text)
    ensures Field(w, Canonical(w, sess, body, nonce), key) == Some(text)
  {
    CanonicalKeeps(w, sess, body, nonce, key);
  }

  lemma CanonicalStamps(w: World, sess: Session, b: Body, nonce: string)
    ensures var c := Canonical(w, sess, b, nonce);
      && Field(w, c, CREATED_BY) == Some(Participant(w, sess, b, nonce))
      && Field(w, c, PRODUCED_BY) == Some(KernelIri(Project(sess)))
  {
    assert CREATED_BY != PRODUCED_BY;
  }

  /** The keys the governed records read are not stamps. */
  lemma RecordKeysUnstamped()
    ensures !Stamped("type") && !Stamped("@id") && !Stamped(OWNED_BY) && !Stamped(PROJECT_KIND)
    ensures !Stamped(ABOUT) && !Stamped(PROPOSAL_STATE) && !Stamped(PROPOSAL_OP) && !Stamped(REQUIRES_QUORUM)
    ensures !Stamped(VOTE_VALUE) && !Stamped(EPOCH) && !Stamped(SURFACE_DIGEST) && !Stamped(SOURCE_DIGEST)
    ensures !Stamped(FROM_EPOCH) && !Stamped(TO_EPOCH) && !Stamped(PRODUCES_EPOCH) && !Stamped(MATERIALIZES)
    ensures !Stamped(APPLIED_EPOCH) && !Stamped(STRUCTURAL_DIGEST)
  {
  }

  // ------------------------------------------------------------------ one seal

  /** A seal touches one row; a raise touches none. */
  lemma SealRows(w: World, sess: Session, g: Gov, id: string, body: Body, nonce: string, x: string)
    ensures var r := SealIn(w, sess, g, id, body, nonce);
      && (r.Sealed? ==> Get(r.store, x) == if x == id then Some(Canonical(w, sess, body, nonce)) else Get(g.store, x))
      && (r.Raised? ==> Get(r.store, x) == Get(g.store, x))
  {
    if IdentityKey(sess).Some? {
      WrittenShape(w, IdentityKey(sess).value, g.store, id, Canonical(w, sess, body, nonce));
    }
  }

  // -------------------------------------------------------------- reserved rows

  predicate Reserved(id: string) {
    "proposal-" <= id || "vote-" <= id || "epoch-" <= id || "mat-" <= id
  }

  predicate EndsInDigit(s: string) { s != "" && IsDigit(s[|s| - 1]) }

  /** Governed types live at their own ids only, and those ids and IRIs end in a
      digit, which a kernel IRI never does. */
  ghost predicate RowWf(w: World, id: string, b: Body) {
    var t := Field(w, b, "type");
    && (t == Some(PROPOSAL_T) <==> "proposal-" <= id)
    && (t == Some(VOTE_T) <==> "vote-" <= id)
    && (t == Some(EPOCH_T) <==> "epoch-" <= id)
    && (t == Some(MAT_T) <==> "mat-" <= id)
    && (Reserved(id) ==> EndsInDigit(id) && Field(w, b, "@id").Some? && EndsInDigit(Field(w, b, "@id").value))
    && ("proposal-" <= id ==> Field(w, b, PROPOSAL_STATE).Some?)
  }

  ghost predicate StoreWf(w: World, s: Store) {
    && Listed(s)
    && forall id {:trigger RowWf(w, id, s.instances[id])} :: id in s.instances ==> RowWf(w, id, s.instances[id])
  }

  ghost predicate GovWf(w: World, g: Gov) {
    StoreWf(w, g.store)
  }

  /** What is assumed of the outside: the property paths a type declares are
      IRIs, and lower-casing leaves [a-z0-9-] alone. */
  ghost predicate WorldOk(w: World) {
    && (forall gr: Graph, t: Option<string>, k: string :: k in w.propmap(gr, t) ==> ':' in w.propmap(gr, t)[k])
    && Normalise.LowerOk(w.lower)
  }

  lemma PrintEndsInDigit(pre: string, n: nat)
    ensures EndsInDigit(pre + Print(n))
  {
    var s := pre + Print(n);
    assert s[|s| - 1] == Print(n)[|Print(n)| - 1];
  }

  /** Resolving a kernel IRI never lands on a reserved row. */
  lemma KernelRowUnreserved(w: World, g: Gov, project: string)
    requires GovWf(w, g)
    ensures var id := ResolveId(w, g.store, KernelRowIri(project));
      id in g.store.instances ==> !Reserved(id)
  {
    var ref := KernelRowIri(project);
    var id := ResolveId(w, g.store, ref);
    assert ref[|ref| - 1] == 'l' && ref[0] == 'u';
    if id in g.store.instances {
      assert RowWf(w, id, g.store.instances[id]);
      if id != ref {
        var bare := StripPrefix(ref, "urn:ckp:instance:");
        if bare.Some? && id == bare.value && id != "" {
          assert id[|id| - 1] == ref[|ref| - 1];
        }
      }
    }
  }

  // --------------------------------------------------------------- update_typed

  /** Keys no patch can reach: the row's type and identity. */
  predicate Fixed(key: string) { key == "type" || key == "@id" }

  lemma PatchOneKeeps(w: World, propmap: map<string, string>, ns: string, me: Option<string>, cur: Body, key: string, v: Json, fixed: string)
    requires forall k :: k in propmap ==> ':' in propmap[k]
    requires ns == "" || ns[|ns| - 1] == '/' || ns[|ns| - 1] == '#'
    requires Fixed(fixed) || fixed == OWNED_BY
    requires PatchOne(w, propmap, ns, me, cur, key, v).Patched?
    ensures var b := PatchOne(w, propmap, ns, me, cur, key, v).body;
      (fixed in b <==> fixed in cur) && (fixed in cur ==> b[fixed] == cur[fixed])
  {
    if !Unpatchable(key) {
      var iri := KeyIri(propmap, ns, key).value;
      if ':' !in key && propmap == map[] && ns != "" {
        assert iri[|ns| - 1] == ns[|ns| - 1];
      }
      assert Fixed(fixed) ==> ':' !in fixed && '/' !in fixed && '#' !in fixed;
      assert iri != fixed;
    }
  }

  /** No patch moves a row's type, identity or owner. */
  lemma {:induction false} PatchAllKeeps(w: World, propmap: map<string, string>, ns: string, me: Option<string>, cur: Body, patch: seq<(string, Json)>, fixed: string)
    requires forall k :: k in propmap ==> ':' in propmap[k]
    requires ns == "" || ns[|ns| - 1] == '/' || ns[|ns| - 1] == '#'
    requires Fixed(fixed) || fixed == OWNED_BY
    requires PatchAll(w, propmap, ns, me, cur, patch).Patched?
    ensures var b := PatchAll(w, propmap, ns, me, cur, patch).body;
      (fixed in b <==> fixed in cur) && (fixed in cur ==> b[fixed] == cur[fixed])
    decreases |patch|
  {
    if patch != [] {
      PatchOneKeeps(w, propmap, ns, me, cur, patch[0].0, patch[0].1, fixed);
      PatchAllKeeps(w, propmap, ns, me, PatchOne(w, propmap, ns, me, cur, patch[0].0, patch[0].1).body, patch[1..], fixed);
    }
  }

  lemma PatchedKeeps(w: World, sess: Session, g: Gov, cur: Body, patch: seq<(string, Json)>, fixed: string)
    requires WorldOk(w) && (Fixed(fixed) || fixed == OWNED_BY)
    requires PatchedBody(w, sess, g, cur, patch).Patched?
    ensures var b := PatchedBody(w, sess, g, cur, patch).body;
      (fixed in b <==> fixed in cur) && (fixed in cur ==> b[fixed] == cur[fixed]) && Field(w, b, fixed) == Field(w, cur, fixed)
  {
    assert fixed != "participant";
    PatchAllKeeps(w, PropMap(w, g, sess, cur), Namespace(Field(w, cur, "type")), OwnerIri(w, sess), cur - {"participant"}, patch, fixed);
  }

  /** What a rewrite is of. */
  lemma RewriteSound(w: World, sess: Session, g: Gov, ref: Option<string>, patch: Option<seq<(string, Json)>>)
    ensures var r := RewriteOf(w, sess, g, ref, patch);
      r.Rewrite? ==>
        && ref.Some? && patch.Some? && r.id == ResolveId(w, g.store, ref.value) && r.id in g.store.instances
        && PatchedBody(w, sess, g, g.store.instances[r.id], patch.value) == Patched(r.body)
  {
  }

  /** The one row an accepted patch rewrites; a refusal rewrites none. */
  lemma UpdateRows(w: World, sess: Session, g: Gov, ref: Option<string>, patch: Option<seq<(string, Json)>>, nonce: string, x: string)
    ensures var r := UpdateTyped(w, sess, g, ref, patch, nonce);
      && r.gov == g.(store := r.gov.store)
      && (!r.reply.Done? ==> r.reply.Refused? && Get(r.gov.store, x) == Get(g.store, x))
      && (r.reply.Done? ==>
            && ref.Some? && patch.Some? && r.reply.id == ResolveId(w, g.store, ref.value) && r.reply.id in g.store.instances
            && PatchedBody(w, sess, g, g.store.instances[r.reply.id], patch.value).Patched?
            && Get(r.gov.store, x) ==
                 if x == r.reply.id then Some(Canonical(w, sess, PatchedBody(w, sess, g, g.store.instances[x], patch.value).body, nonce))
                 else Get(g.store, x))
  {
    RewriteSound(w, sess, g, ref, patch);
    var r := RewriteOf(w, sess, g, ref, patch);
    if r.Rewrite? {
      SealRows(w, sess, g, r.id, r.body, nonce, x);
    }
  }

  // ---------------------------------------------------------------- well-formedness

  lemma SealListed(w: World, sess: Session, g: Gov, id: string, body: Body, nonce: string)
    requires Listed(g.store)
    ensures Listed(SealIn(w, sess, g, id, body, nonce).store)
  {
    if IdentityKey(sess).Some? {
      WrittenListed(w, IdentityKey(sess).value, g.store, id, Canonical(w, sess, body, nonce));
    }
  }

  /** Sealing a body that fits its id keeps every row in shape. */
  lemma SealWf(w: World, sess: Session, g: Gov, id: string, body: Body, nonce: string)
    requires GovWf(w, g) && RowWf(w, id, Canonical(w, sess, body, nonce))
    ensures GovWf(w, g.(store := SealIn(w, sess, g, id, body, nonce).store))
  {
    var s' := SealIn(w, sess, g, id, body, nonce).store;
    SealListed(w, sess, g, id, body, nonce);
    forall x | x in s'.instances ensures RowWf(w, x, s'.instances[x]) {
      SealRows(w, sess, g, id, body, nonce, x);
      assert Get(s', x) == Some(s'.instances[x]);
      if x in g.store.instances {
        assert RowWf(w, x, g.store.instances[x]);
      }
    }
  }

  /** An ordinary row: no reserved id, no governed type. */
  ghost predicate Ordinary(w: World, id: string, body: Body) {
    && !Reserved(id)
    && var t := Field(w, body, "type"); t != Some(PROPOSAL_T) && t != Some(VOTE_T) && t != Some(EPOCH_T) && t != Some(MAT_T)
  }

  /** Well-formedness reads no stamp, so sealing does not disturb it. */
  lemma CanonicalWf(w: World, sess: Session, id: string, body: Body, nonce: string)
    requires RowWf(w, id, body)
    ensures RowWf(w, id, Canonical(w, sess, body, nonce))
  {
    RecordKeysUnstamped();
    CanonicalKeeps(w, sess, body, nonce, "type");
    CanonicalKeeps(w, sess, body, nonce, "@id");
    CanonicalKeeps(w, sess, body, nonce, PROPOSAL_STATE);
  }

  lemma OrdinaryWf(w: World, sess: Session, id: string, body: Body, nonce: string)
    requires Ordinary(w, id, body)
    ensures RowWf(w, id, Canonical(w, sess, body, nonce))
  {
    RecordKeysUnstamped();
    CanonicalKeeps(w, sess, body, nonce, "type");
  }

  lemma UpdateWf(w: World, sess: Session, g: Gov, ref: Option<string>, patch: Option<seq<(string, Json)>>, nonce: string)
    requires WorldOk(w) && GovWf(w, g)
    requires ref.Some? && ResolveId(w, g.store, ref.value) in g.store.instances ==> !Reserved(ResolveId(w, g.store, ref.value))
    ensures GovWf(w, UpdateTyped(w, sess, g, ref, patch, nonce).gov)
  {
    RewriteSound(w, sess, g, ref, patch);
    var r := RewriteOf(w, sess, g, ref, patch);
    if r.Rewrite? {
      PatchSealWf(w, sess, g, r.id, patch.value, nonce);
    }
  }

  lemma PatchSealWf(w: World, sess: Session, g: Gov, id: string, patch: seq<(string, Json)>, nonce: string)
    requires WorldOk(w) && GovWf(w, g) && id in g.store.instances && !Reserved(id)
    requires PatchedBody(w, sess, g, g.store.instances[id], patch).Patched?
    ensures GovWf(w, g.(store := SealIn(w, sess, g, id, PatchedBody(w, sess, g, g.store.instances[id], patch).body, nonce).store))
  {
    var cur := g.store.instances[id];
    var body := PatchedBody(w, sess, g, cur, patch).body;
    PatchedKeeps(w, sess, g, cur, patch, "type");
    assert RowWf(w, id, cur);
    OrdinaryWf(w, sess, id, body, nonce);
    SealWf(w, sess, g, id, body, nonce);
  }
}
