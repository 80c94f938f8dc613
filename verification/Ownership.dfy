/** Ownership under `update_typed`: whatever the patches and however their keys
    are spelled, the declared owner never moves. */
module Ownership {
  import opened Text
  import opened Facts
  import opened Ledger
  import opened Governance
  import opened GovernanceFrames
  import opened Atomicity

  datatype Patch = Patch(sess: Session, ref: Option<string>, keys: Option<seq<(string, Json)>>, nonce: string)

  function Updated(w: World, g: Gov, p: Patch): Gov {
    UpdateTyped(w, p.sess, g, p.ref, p.keys, p.nonce).gov
  }

  function RunPatches(w: World, g: Gov, ps: seq<Patch>): Gov
    decreases |ps|
  {
    if ps == [] then g else RunPatches(w, Updated(w, g, ps[0]), ps[1..])
  }

  function At(b: Body, key: string): Option<Json> {
    if key in b then Some(b[key]) else None
  }

  /** The owner of a row binds its kind: a changed kind means no declared owner,
      or the owner's own hand. */
  lemma {:induction false} PatchAllKind(w: World, propmap: map<string, string>, ns: string, me: Option<string>, cur: Body, patch: seq<(string, Json)>)
    requires PatchAll(w, propmap, ns, me, cur, patch).Patched?
    ensures var b := PatchAll(w, propmap, ns, me, cur, patch).body;
      At(b, OWNED_BY) == At(cur, OWNED_BY)
    ensures var b := PatchAll(w, propmap, ns, me, cur, patch).body;
      At(b, PROJECT_KIND) != At(cur, PROJECT_KIND) ==> Field(w, cur, OWNED_BY).None? || me == Field(w, cur, OWNED_BY)
    decreases |patch|
  {
    if patch != [] {
      var one := PatchOne(w, propmap, ns, me, cur, patch[0].0, patch[0].1).body;
      assert At(one, OWNED_BY) == At(cur, OWNED_BY);
      assert Field(w, one, OWNED_BY) == Field(w, cur, OWNED_BY);
      PatchAllKind(w, propmap, ns, me, one, patch[1..]);
    }
  }

  lemma SealedKeepsOwner(w: World, sess: Session, b: Body, nonce: string)
    ensures var c := Canonical(w, sess, b, nonce);
      At(c, OWNED_BY) == At(b, OWNED_BY) && At(c, PROJECT_KIND) == At(b, PROJECT_KIND)
  {
    RecordKeysUnstamped();
    CanonicalKeeps(w, sess, b, nonce, OWNED_BY);
    CanonicalKeeps(w, sess, b, nonce, PROJECT_KIND);
  }

  /** One patch, any spelling: the owner stays, the kind moves only under the
      owner, and a refusal leaves every table as it was. */
  lemma OnePatch(w: World, g: Gov, p: Patch, id: string)
    requires id in g.store.instances
    ensures var g' := Updated(w, g, p);
      var cur := g.store.instances[id];
      && id in g'.store.instances
      && At(g'.store.instances[id], OWNED_BY) == At(cur, OWNED_BY)
      && (At(g'.store.instances[id], PROJECT_KIND) != At(cur, PROJECT_KIND) ==>
            Field(w, cur, OWNED_BY).None? || OwnerIri(w, p.sess) == Field(w, cur, OWNED_BY))
    ensures UpdateTyped(w, p.sess, g, p.ref, p.keys, p.nonce).reply.Refused? ==> SameContents(g, Updated(w, g, p))
  {
    var r := UpdateTyped(w, p.sess, g, p.ref, p.keys, p.nonce);
    UpdateRows(w, p.sess, g, p.ref, p.keys, p.nonce, id);
    UpdateRefusedSame(w, p.sess, g, p.ref, p.keys, p.nonce);
    var cur := g.store.instances[id];
    assert Get(g.store, id) == Some(cur);
    if r.reply.Done? && r.reply.id == id {
      var b := PatchedBody(w, p.sess, g, cur, p.keys.value).body;
      PatchAllKind(w, PropMap(w, g, p.sess, cur), Namespace(Field(w, cur, "type")), OwnerIri(w, p.sess), cur - {"participant"}, p.keys.value);
      SealedKeepsOwner(w, p.sess, b, p.nonce);
      OwnerIsNotClaims(w, cur);
    }
  }

  lemma OwnerIsNotClaims(w: World, cur: Body)
    ensures var b := cur - {"participant"};
      At(b, OWNED_BY) == At(cur, OWNED_BY) && At(b, PROJECT_KIND) == At(cur, PROJECT_KIND) && Field(w, b, OWNED_BY) == Field(w, cur, OWNED_BY)
  {
    assert OWNED_BY != "participant" && PROJECT_KIND != "participant";
  }

  /** OWNERSHIP IMMUTABILITY. Over every run of patches no instance's owner
      changes, and an owned instance keeps its kind unless its owner patched. */
  lemma {:induction false} OwnerNeverMoves(w: World, g: Gov, ps: seq<Patch>, id: string)
    requires id in g.store.instances
    ensures id in RunPatches(w, g, ps).store.instances
    ensures Stays(w, g.store.instances[id], RunPatches(w, g, ps).store.instances[id], Actors(w, ps))
    decreases |ps|
  {
    if ps != [] {
      PatchStays(w, g, ps[0], id);
      var g1 := Updated(w, g, ps[0]);
      OwnerNeverMoves(w, g1, ps[1..], id);
      StaysOn(w, g.store.instances[id], g1.store.instances[id], RunPatches(w, g, ps).store.instances[id], Actors(w, ps));
    }
  }

  /** Who patched, in order. */
  function Actors(w: World, ps: seq<Patch>): seq<Option<string>>
    decreases |ps|
  {
    if ps == [] then [] else [OwnerIri(w, ps[0].sess)] + Actors(w, ps[1..])
  }

  /** The owner is the same; the kind too, if there is an owner and it never acted. */
  ghost predicate Stays(w: World, cur: Body, b: Body, actors: seq<Option<string>>) {
    && At(b, OWNED_BY) == At(cur, OWNED_BY)
    && (Field(w, cur, OWNED_BY).Some? && Field(w, cur, OWNED_BY) !in actors ==> At(b, PROJECT_KIND) == At(cur, PROJECT_KIND))
  }

  lemma PatchStays(w: World, g: Gov, p: Patch, id: string)
    requires id in g.store.instances
    ensures id in Updated(w, g, p).store.instances
    ensures Stays(w, g.store.instances[id], Updated(w, g, p).store.instances[id], [OwnerIri(w, p.sess)])
  {
    OnePatch(w, g, p, id);
  }

  lemma StaysOn(w: World, cur: Body, mid: Body, last: Body, actors: seq<Option<string>>)
    requires actors != [] && Stays(w, cur, mid, [actors[0]]) && Stays(w, mid, last, actors[1..])
    ensures Stays(w, cur, last, actors)
  {
    assert actors == [actors[0]] + actors[1..];
    assert Field(w, mid, OWNED_BY) == Field(w, cur, OWNED_BY);
  }

  /** An accepted patch re-seals: the patched row verifies. */
  lemma PatchVerifies(w: World, key: string, g: Gov, p: Patch)
    requires Sound(w, key, g.store) && key != "" && Keyed(key, p.sess)
    ensures var r := UpdateTyped(w, p.sess, g, p.ref, p.keys, p.nonce);
      r.reply.Done? ==> Verify(w, Some(key), r.gov.store, r.reply.id)
  {
    var r := UpdateTyped(w, p.sess, g, p.ref, p.keys, p.nonce);
    UpdateLater(w, key, p.sess, g.store, g, p.ref, p.keys, p.nonce);
    SoundVerifies(w, key, r.gov.store);
    if r.reply.Done? {
      UpdateRows(w, p.sess, g, p.ref, p.keys, p.nonce, r.reply.id);
    }
  }
}
