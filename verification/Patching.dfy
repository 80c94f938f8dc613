/** What `update_typed` writes and what it refuses, key by key: the IRI each spelling
    stands for, the last value given for it, and everything else as it was. */
module Patching {
  import opened Text
  import opened Facts
  import opened Ledger
  import opened Governance
  import opened GovernanceFrames
  import opened OwnerGate
  import Normalise

  // ------------------------------------------------------------------- spellings

  /** The namespace of a type: everything up to its last slash or hash. */
  ghost predicate NamespaceIs(t: Option<string>, ns: string) {
    if t.None? then ns == ""
    else
      && (ns == "" || ns[|ns| - 1] == '/' || ns[|ns| - 1] == '#')
      && exists rest: string :: Free(rest, '/') && Free(rest, '#') && t.value == ns + rest
  }

  lemma {:induction false} NamespaceCut(t: string)
    ensures var n := NamespaceLength(t); Free(t[n..], '/') && Free(t[n..], '#')
  {
    var n := NamespaceLength(t);
    if t != "" && t[|t| - 1] != '/' && t[|t| - 1] != '#' {
      var front := t[..|t| - 1];
      NamespaceCut(front);
      assert t[n..] == front[n..] + [t[|t| - 1]];
    }
  }

  predicate Sep(c: char) { c == '/' || c == '#' }

  /** Two cuts after the last separator are one. */
  lemma OneCut(t: string, m: nat, n: nat)
    requires m <= |t| && n <= |t| && (m > 0 ==> Sep(t[m - 1])) && forall k :: n <= k < |t| ==> !Sep(t[k])
    ensures m <= n
  {
  }

  lemma CutIsNamespace(t: string)
    ensures NamespaceIs(Some(t), t[..NamespaceLength(t)])
  {
    var n := NamespaceLength(t);
    NamespaceCut(t);
    assert t == t[..n] + t[n..];
  }

  lemma OneNamespace(t: string, ns: string, ms: string)
    requires NamespaceIs(Some(t), ns) && NamespaceIs(Some(t), ms)
    ensures ns == ms
  {
    NoSepAfter(t, ns);
    NoSepAfter(t, ms);
    OneCut(t, |ns|, |ms|);
    OneCut(t, |ms|, |ns|);
  }

  lemma NoSepAfter(t: string, ns: string)
    requires NamespaceIs(Some(t), ns)
    ensures ns <= t && (|ns| > 0 ==> Sep(t[|ns| - 1])) && forall k :: |ns| <= k < |t| ==> !Sep(t[k])
  {
    var rest: string :| Free(rest, '/') && Free(rest, '#') && t == ns + rest;
    assert forall k :: |ns| <= k < |t| ==> t[k] == rest[k - |ns|];
  }

  lemma NamespaceExactly(t: Option<string>, ns: string)
    ensures Namespace(t) == ns <==> NamespaceIs(t, ns)
  {
    if t.Some? {
      CutIsNamespace(t.value);
      if NamespaceIs(t, ns) {
        OneNamespace(t.value, ns, Namespace(t));
      }
    }
  }

  /** A patch entry stands for an IRI: the key itself if it has a colon, the declared
      IRI if the type is shaped, and otherwise the namespace and the key. The id, the
      type and the @id stand for nothing. */
  predicate Stands(declared: map<string, string>, ns: string, key: string, iri: string) {
    && key != "id" && key != "type" && key != "@id"
    && (if ':' in key then iri == key
        else if declared != map[] then key in declared && iri == declared[key]
        else iri == ns + key)
  }

  /** The i-th entry is the last one standing for an IRI. */
  ghost predicate LastFor(declared: map<string, string>, ns: string, patch: seq<(string, Json)>, i: int, iri: string) {
    && 0 <= i < |patch| && Stands(declared, ns, patch[i].0, iri)
    && forall j :: i < j < |patch| ==> !Stands(declared, ns, patch[j].0, iri)
  }

  ghost predicate NoneFor(declared: map<string, string>, ns: string, patch: seq<(string, Json)>, iri: string) {
    forall i :: 0 <= i < |patch| ==> !Stands(declared, ns, patch[i].0, iri)
  }

  // --------------------------------------------------------------------- writing

  lemma {:induction false} LoopLeaves(w: World, declared: map<string, string>, ns: string, me: Option<string>, cur: Body, patch: seq<(string, Json)>, iri: string)
    requires PatchAll(w, declared, ns, me, cur, patch).Patched?
    requires forall i :: 0 <= i < |patch| ==> !Stands(declared, ns, patch[i].0, iri)
    ensures var b := PatchAll(w, declared, ns, me, cur, patch).body; (iri in b <==> iri in cur) && (iri in cur ==> b[iri] == cur[iri])
    decreases |patch|
  {
    if patch != [] {
      assert !Stands(declared, ns, patch[0].0, iri);
      LoopLeaves(w, declared, ns, me, PatchOne(w, declared, ns, me, cur, patch[0].0, patch[0].1).body, patch[1..], iri);
    }
  }

  lemma {:induction false} LoopWrites(w: World, declared: map<string, string>, ns: string, me: Option<string>, cur: Body, patch: seq<(string, Json)>, i: nat, iri: string)
    requires PatchAll(w, declared, ns, me, cur, patch).Patched? && i < |patch| && Stands(declared, ns, patch[i].0, iri)
    requires forall j :: i < j < |patch| ==> !Stands(declared, ns, patch[j].0, iri)
    ensures var b := PatchAll(w, declared, ns, me, cur, patch).body; iri in b && b[iri] == patch[i].1
    decreases |patch|
  {
    var one := PatchOne(w, declared, ns, me, cur, patch[0].0, patch[0].1).body;
    if i == 0 {
      assert forall j :: 0 <= j < |patch[1..]| ==> patch[1..][j] == patch[j + 1];
      LoopLeaves(w, declared, ns, me, one, patch[1..], iri);
    } else {
      LoopWrites(w, declared, ns, me, one, patch[1..], i - 1, iri);
    }
  }

  /** The declared properties of a row's type, as the session's project composes them. */
  function Declared(w: World, sess: Session, g: Gov, row: Body): map<string, string> {
    w.propmap(w.composed(g.graphs, Project(sess)), Field(w, row, "type"))
  }

  /** AN ACCEPTED PATCH IS WRITTEN. After `Done`, the IRI an entry stands for holds the
      value of the last entry standing for it; an IRI no entry stands for holds what it
      held. The keys seal stamps itself are its own. */
  lemma PatchWritten(w: World, sess: Session, g: Gov, ref: Option<string>, patch: Option<seq<(string, Json)>>, nonce: string, ns: string, iri: string)
    requires UpdateTyped(w, sess, g, ref, patch, nonce).reply.Done? && !Stamped(iri)
    requires var id := UpdateTyped(w, sess, g, ref, patch, nonce).reply.id;
      id in g.store.instances ==> NamespaceIs(Field(w, g.store.instances[id], "type"), ns)
    ensures var r := UpdateTyped(w, sess, g, ref, patch, nonce);
      && patch.Some? && r.reply.id in g.store.instances && r.reply.id in r.gov.store.instances
      && (var was, now := g.store.instances[r.reply.id], r.gov.store.instances[r.reply.id];
          var declared := Declared(w, sess, g, was);
          && (forall i :: LastFor(declared, ns, patch.value, i, iri) ==> iri in now && now[iri] == patch.value[i].1)
          && (NoneFor(declared, ns, patch.value, iri) ==> (iri in now <==> iri in was) && (iri in was ==> now[iri] == was[iri])))
  {
    var r := UpdateTyped(w, sess, g, ref, patch, nonce);
    UpdateRows(w, sess, g, ref, patch, nonce, r.reply.id);
    var was := g.store.instances[r.reply.id];
    var b := PatchedBody(w, sess, g, was, patch.value).body;
    assert Get(r.gov.store, r.reply.id) == Some(Canonical(w, sess, b, nonce));
    NamespaceExactly(Field(w, was, "type"), ns);
    CanonicalKeeps(w, sess, b, nonce, iri);
    LoopMeans(w, Declared(w, sess, g, was), ns, OwnerIri(w, sess), was, patch.value, iri);
  }

  lemma LoopMeans(w: World, declared: map<string, string>, ns: string, me: Option<string>, was: Body, patch: seq<(string, Json)>, iri: string)
    requires !Stamped(iri) && PatchAll(w, declared, ns, me, was - {"participant"}, patch).Patched?
    ensures var now := PatchAll(w, declared, ns, me, was - {"participant"}, patch).body;
      && (forall i :: LastFor(declared, ns, patch, i, iri) ==> iri in now && now[iri] == patch[i].1)
      && (NoneFor(declared, ns, patch, iri) ==> (iri in now <==> iri in was) && (iri in was ==> now[iri] == was[iri]))
  {
    var cur := was - {"participant"};
    var now := PatchAll(w, declared, ns, me, cur, patch).body;
    forall i | LastFor(declared, ns, patch, i, iri) ensures iri in now && now[iri] == patch[i].1 {
      LoopWrites(w, declared, ns, me, cur, patch, i, iri);
    }
    if NoneFor(declared, ns, patch, iri) {
      LoopLeaves(w, declared, ns, me, cur, patch, iri);
    }
  }

  // -------------------------------------------------------------------- refusing

  /** Why an entry is refused: a key the shaped type does not declare, the owner under
      any spelling, or the kind of an owned row under another hand. */
  ghost function Objection(w: World, sess: Session, declared: map<string, string>, ns: string, row: Body, key: string): Option<Code> {
    var owner := Field(w, row, OWNED_BY);
    if key == "id" || key == "type" || key == "@id" then None
    else if Undeclared(declared, key) then Some(UndeclaredKey)
    else if Stands(declared, ns, key, OWNED_BY) then Some(OwnershipNotPatchable)
    else if Stands(declared, ns, key, PROJECT_KIND) && owner.Some? && !CallerIs(w, sess, owner.value) then Some(NotOwner)
    else None
  }

  /** The shaped type does not declare the key, spelled short or in full. */
  ghost predicate Undeclared(declared: map<string, string>, key: string) {
    declared != map[] && if ':' in key then forall k :: k in declared ==> declared[k] != key else key !in declared
  }

  lemma KeyIriIs(declared: map<string, string>, ns: string, key: string, iri: string)
    ensures KeyIri(declared, ns, key).None? <==> Undeclared(declared, key)
    ensures !Unpatchable(key) && !Undeclared(declared, key) ==> (KeyIri(declared, ns, key) == Some(iri) <==> Stands(declared, ns, key, iri))
  {
  }

  lemma OneObjects(w: World, sess: Session, declared: map<string, string>, ns: string, row: Body, cur: Body, key: string, v: Json)
    requires Field(w, cur, OWNED_BY) == Field(w, row, OWNED_BY)
    ensures var r, o := PatchOne(w, declared, ns, OwnerIri(w, sess), cur, key, v), Objection(w, sess, declared, ns, row, key);
      (r.PatchRefused? <==> o.Some?) && (r.PatchRefused? ==> o == Some(r.code))
    ensures var r := PatchOne(w, declared, ns, OwnerIri(w, sess), cur, key, v);
      r.Patched? ==> Field(w, r.body, OWNED_BY) == Field(w, row, OWNED_BY)
  {
    var owner := Field(w, row, OWNED_BY);
    if owner.Some? {
      CallerIsOwner(w, sess, owner.value);
    }
    KeyIriIs(declared, ns, key, OWNED_BY);
    KeyIriIs(declared, ns, key, PROJECT_KIND);
    PatchOneKeepsOwner(w, declared, ns, OwnerIri(w, sess), cur, key, v);
  }

  lemma PatchOneKeepsOwner(w: World, declared: map<string, string>, ns: string, me: Option<string>, cur: Body, key: string, v: Json)
    ensures var r := PatchOne(w, declared, ns, me, cur, key, v); r.Patched? ==> Field(w, r.body, OWNED_BY) == Field(w, cur, OWNED_BY)
  {
  }

  /** THE PATCH LOOP REFUSES EXACTLY at its first objectionable entry, with that entry's
      objection; where no entry is objectionable it never refuses. */
  lemma {:induction false} LoopRefuses(w: World, sess: Session, declared: map<string, string>, ns: string, row: Body, cur: Body, patch: seq<(string, Json)>, code: Code)
    requires Field(w, cur, OWNED_BY) == Field(w, row, OWNED_BY)
    ensures PatchAll(w, declared, ns, OwnerIri(w, sess), cur, patch) == PatchRefused(code)
      <==> exists i :: FirstObjection(w, sess, declared, ns, row, patch, i, code)
    decreases |patch|
  {
    if patch != [] {
      var one := PatchOne(w, declared, ns, OwnerIri(w, sess), cur, patch[0].0, patch[0].1);
      OneObjects(w, sess, declared, ns, row, cur, patch[0].0, patch[0].1);
      if one.PatchRefused? {
        assert one == PatchRefused(code) ==> FirstObjection(w, sess, declared, ns, row, patch, 0, code);
      } else {
        LoopRefuses(w, sess, declared, ns, row, one.body, patch[1..], code);
        ObjectionShift(w, sess, declared, ns, row, patch, code);
      }
    }
  }

  ghost predicate FirstObjection(w: World, sess: Session, declared: map<string, string>, ns: string, row: Body, patch: seq<(string, Json)>, i: int, code: Code) {
    && 0 <= i < |patch| && Objection(w, sess, declared, ns, row, patch[i].0) == Some(code)
    && forall j :: 0 <= j < i ==> Objection(w, sess, declared, ns, row, patch[j].0).None?
  }

  lemma ObjectionShift(w: World, sess: Session, declared: map<string, string>, ns: string, row: Body, patch: seq<(string, Json)>, code: Code)
    requires patch != [] && Objection(w, sess, declared, ns, row, patch[0].0).None?
    ensures (exists i :: FirstObjection(w, sess, declared, ns, row, patch[1..], i, code))
       <==> (exists i :: FirstObjection(w, sess, declared, ns, row, patch, i, code))
  {
    if i :| FirstObjection(w, sess, declared, ns, row, patch[1..], i, code) {
      ObjectionNext(w, sess, declared, ns, row, patch, i, code);
    }
    if i :| FirstObjection(w, sess, declared, ns, row, patch, i, code) {
      ObjectionNext(w, sess, declared, ns, row, patch, i - 1, code);
    }
  }

  lemma ObjectionNext(w: World, sess: Session, declared: map<string, string>, ns: string, row: Body, patch: seq<(string, Json)>, i: int, code: Code)
    requires patch != [] && Objection(w, sess, declared, ns, row, patch[0].0).None?
    ensures FirstObjection(w, sess, declared, ns, row, patch[1..], i, code) ==> FirstObjection(w, sess, declared, ns, row, patch, i + 1, code)
    ensures FirstObjection(w, sess, declared, ns, row, patch, i + 1, code) ==> FirstObjection(w, sess, declared, ns, row, patch[1..], i, code)
  {
    var tail := patch[1..];
    assert forall j :: 0 <= j < |tail| ==> tail[j] == patch[j + 1];
    assert forall j :: 1 <= j < |patch| ==> patch[j] == tail[j - 1];
  }

  // -------------------------------------------------------------- which row it is

  /** The row a reference means: a stored id, else the first row stamped with it as its
      @id, else the id after `urn:ckp:instance:`. */
  ghost predicate Means(w: World, s: Store, ref: string, id: string) {
    && id in s.instances
    && if ref in s.instances then id == ref
       else if exists i :: FirstAtId(w, s, ref, i) then exists i :: FirstAtId(w, s, ref, i) && s.order[i] == id
       else ref == "urn:ckp:instance:" + id
  }

  ghost predicate FirstAtId(w: World, s: Store, ref: string, i: int) {
    && 0 <= i < |s.order| && StampedAs(w, s, s.order[i], ref)
    && forall j :: 0 <= j < i ==> !StampedAs(w, s, s.order[j], ref)
  }

  predicate StampedAs(w: World, s: Store, x: string, ref: string) {
    x in s.instances && Field(w, s.instances[x], "@id") == Some(ref)
  }

  lemma {:induction false} AtIdIs(w: World, s: Store, order: seq<string>, ref: string, i: int)
    requires 0 <= i < |order| && StampedAs(w, s, order[i], ref) && forall j :: 0 <= j < i ==> !StampedAs(w, s, order[j], ref)
    ensures FindAtId(w, s, order, ref) == Some(order[i])
    decreases |order|
  {
    if i > 0 {
      assert !StampedAs(w, s, order[0], ref);
      AtIdIs(w, s, order[1..], ref, i - 1);
    }
  }

  lemma {:induction false} AtIdAt(w: World, s: Store, order: seq<string>, ref: string) returns (i: int)
    requires FindAtId(w, s, order, ref).Some?
    ensures 0 <= i < |order| && StampedAs(w, s, order[i], ref) && forall j :: 0 <= j < i ==> !StampedAs(w, s, order[j], ref)
    decreases |order|
  {
    if StampedAs(w, s, order[0], ref) {
      i := 0;
    } else {
      i := AtIdAt(w, s, order[1..], ref);
      i := i + 1;
      assert forall j :: 1 <= j < i ==> order[j] == order[1..][j - 1];
    }
  }

  /** Resolution finds a stored row exactly when the reference means it. */
  lemma ResolveExactly(w: World, s: Store, ref: string, id: string)
    requires id in s.instances
    ensures ResolveId(w, s, ref) == id <==> Means(w, s, ref, id)
  {
    if ref !in s.instances {
      var hit := FindAtId(w, s, s.order, ref);
      if hit.Some? {
        var i := AtIdAt(w, s, s.order, ref);
        AtIdIs(w, s, s.order, ref, i);
        assert FirstAtId(w, s, ref, i);
        forall k | FirstAtId(w, s, ref, k) ensures s.order[k] == hit.value {
          AtIdIs(w, s, s.order, ref, k);
        }
      } else {
        forall k ensures !FirstAtId(w, s, ref, k) {
          if FirstAtId(w, s, ref, k) {
            AtIdIs(w, s, s.order, ref, k);
          }
        }
        StripPrefixOf("urn:ckp:instance:", id);
        var bare := StripPrefix(ref, "urn:ckp:instance:");
        assert bare.Some? ==> ref == "urn:ckp:instance:" + bare.value;
      }
    }
  }

  // ------------------------------------------------------------- the whole call

  predicate Blank(ref: Option<string>) { ref.None? || Trim(ref.value, Normalise.IsSpace) == "" }

  lemma RewriteAt(w: World, sess: Session, g: Gov, ref: string, patch: seq<(string, Json)>, id: string)
    requires !Blank(Some(ref)) && ResolveId(w, g.store, ref) == id && id in g.store.instances
    ensures var row := g.store.instances[id];
      var r := PatchAll(w, Declared(w, sess, g, row), Namespace(Field(w, row, "type")), OwnerIri(w, sess), row - {"participant"}, patch);
      RewriteOf(w, sess, g, Some(ref), Some(patch)) == if r.PatchRefused? then NoRewrite(r.code) else Rewrite(id, r.body)
  {
  }

  /** The row's patch is objected to, first at one of its entries. */
  ghost predicate Objects(w: World, sess: Session, g: Gov, id: string, patch: seq<(string, Json)>, ns: string, code: Code)
    requires id in g.store.instances
  {
    var row := g.store.instances[id];
    exists i :: FirstObjection(w, sess, Declared(w, sess, g, row), ns, row, patch, i, code)
  }

  lemma LoopObjects(w: World, sess: Session, g: Gov, id: string, patch: seq<(string, Json)>, ns: string, code: Code)
    requires id in g.store.instances && NamespaceIs(Field(w, g.store.instances[id], "type"), ns)
    ensures var row := g.store.instances[id];
      PatchAll(w, Declared(w, sess, g, row), Namespace(Field(w, row, "type")), OwnerIri(w, sess), row - {"participant"}, patch) == PatchRefused(code)
      <==> Objects(w, sess, g, id, patch, ns, code)
  {
    var row := g.store.instances[id];
    NamespaceExactly(Field(w, row, "type"), ns);
    assert OWNED_BY != "participant";
    LoopRefuses(w, sess, Declared(w, sess, g, row), ns, row, row - {"participant"}, patch, code);
  }

  lemma RewriteExactly(w: World, sess: Session, g: Gov, ref: string, patch: seq<(string, Json)>, id: string, ns: string, code: Code)
    requires !Blank(Some(ref)) && Means(w, g.store, ref, id) && NamespaceIs(Field(w, g.store.instances[id], "type"), ns)
    ensures RewriteOf(w, sess, g, Some(ref), Some(patch)) == NoRewrite(code) <==> Objects(w, sess, g, id, patch, ns, code)
  {
    ResolveExactly(w, g.store, ref, id);
    RewriteAt(w, sess, g, ref, patch, id);
    LoopObjects(w, sess, g, id, patch, ns, code);
  }

  lemma RewriteEarly(w: World, sess: Session, g: Gov, ref: Option<string>, patch: Option<seq<(string, Json)>>)
    ensures var r := RewriteOf(w, sess, g, ref, patch);
      && (r == NoRewrite(IdRequired) <==> Blank(ref))
      && (r == NoRewrite(InvalidPatch) <==> !Blank(ref) && patch.None?)
      && (r == NoRewrite(UnknownInstance) <==> !Blank(ref) && patch.Some? && ResolveId(w, g.store, ref.value) !in g.store.instances)
      && r != NoRewrite(SealRefused)
  {
    if !Blank(ref) && patch.Some? {
      var id := ResolveId(w, g.store, ref.value);
      if id in g.store.instances {
        RewriteAt(w, sess, g, ref.value, patch.value, id);
        var row := g.store.instances[id];
        PatchCodes(w, Declared(w, sess, g, row), Namespace(Field(w, row, "type")), OwnerIri(w, sess), row - {"participant"}, patch.value);
      }
    }
  }

  /** WHY A PATCH IS REFUSED, in the order the call asks: no id, no patch, no such row,
      then its entries, and last the seal itself. */
  lemma UpdateRefusals(w: World, sess: Session, g: Gov, ref: Option<string>, patch: Option<seq<(string, Json)>>, nonce: string)
    ensures var r := UpdateTyped(w, sess, g, ref, patch, nonce).reply;
      && (r == Refused(IdRequired) <==> Blank(ref))
      && (r == Refused(InvalidPatch) <==> !Blank(ref) && patch.None?)
      && (r == Refused(UnknownInstance) <==> !Blank(ref) && patch.Some? && ResolveId(w, g.store, ref.value) !in g.store.instances)
  {
    RewriteEarly(w, sess, g, ref, patch);
    UpdateReply(w, sess, g, ref, patch, nonce);
  }

  lemma UpdateReply(w: World, sess: Session, g: Gov, ref: Option<string>, patch: Option<seq<(string, Json)>>, nonce: string)
    ensures var r, rw := UpdateTyped(w, sess, g, ref, patch, nonce).reply, RewriteOf(w, sess, g, ref, patch);
      if rw.NoRewrite? then r == Refused(rw.code) else r == Done(rw.id) || r == Refused(SealRefused)
  {
  }

  lemma {:induction false} PatchCodes(w: World, declared: map<string, string>, ns: string, me: Option<string>, cur: Body, patch: seq<(string, Json)>)
    ensures var r := PatchAll(w, declared, ns, me, cur, patch);
      r.PatchRefused? ==> r.code == UndeclaredKey || r.code == OwnershipNotPatchable || r.code == NotOwner
    decreases |patch|
  {
    if patch != [] {
      var one := PatchOne(w, declared, ns, me, cur, patch[0].0, patch[0].1);
      if one.Patched? {
        PatchCodes(w, declared, ns, me, one.body, patch[1..]);
      }
    }
  }

  /** The call is refused for an entry exactly when that entry is its patch's first
      objection. */
  lemma UpdateObjects(w: World, sess: Session, g: Gov, ref: string, patch: seq<(string, Json)>, nonce: string, id: string, ns: string, code: Code)
    requires !Blank(Some(ref)) && Means(w, g.store, ref, id) && NamespaceIs(Field(w, g.store.instances[id], "type"), ns)
    requires code == UndeclaredKey || code == OwnershipNotPatchable || code == NotOwner
    ensures UpdateTyped(w, sess, g, Some(ref), Some(patch), nonce).reply == Refused(code) <==> Objects(w, sess, g, id, patch, ns, code)
  {
    RewriteExactly(w, sess, g, ref, patch, id, ns, code);
    UpdateReply(w, sess, g, Some(ref), Some(patch), nonce);
  }

  /** An accepted update touches the one row its reference means, and no other. */
  lemma UpdateTouchesOne(w: World, sess: Session, g: Gov, ref: Option<string>, patch: Option<seq<(string, Json)>>, nonce: string, x: string)
    requires UpdateTyped(w, sess, g, ref, patch, nonce).reply.Done?
    ensures var r := UpdateTyped(w, sess, g, ref, patch, nonce);
      && ref.Some? && Means(w, g.store, ref.value, r.reply.id)
      && (x != r.reply.id ==> Get(r.gov.store, x) == Get(g.store, x))
  {
    UpdateRows(w, sess, g, ref, patch, nonce, x);
    ResolveExactly(w, g.store, ref.value, UpdateTyped(w, sess, g, ref, patch, nonce).reply.id);
  }
}
