/** After a refusal that kept its cascade the gate stands where it stood: the same
    proposal is admitted again, and another cascade can follow. */
module Retry {
  import opened Text
  import opened Facts
  import opened Ledger
  import opened Plans
  import opened Governance
  import opened GovernanceFrames
  import opened GovernanceRuns
  import opened Atomicity
  import opened Refusals

  /** Not a row the gate of `ckp.apply` reads. */
  predicate Unread(w: World, s: Store, x: string) {
    x in s.instances ==>
      var t := Field(w, s.instances[x], "type");
      t != Some(PROPOSAL_T) && t != Some(VOTE_T) && t != Some(PROJECT_T)
  }

  /** The two stores agree on every row the gate reads, and the later one lists
      nothing more that it does. */
  ghost predicate AgreeAt(w: World, s: Store, s': Store, x: string) {
    Get(s', x) == Get(s, x) || (Unread(w, s, x) && Unread(w, s', x))
  }

  ghost predicate GateSees(w: World, s: Store, s': Store, more: seq<string>) {
    && s'.order == s.order + more
    && (forall x {:trigger AgreeAt(w, s, s', x)} :: AgreeAt(w, s, s', x))
    && (forall i :: 0 <= i < |more| ==> Unread(w, s', more[i]))
  }

  predicate GateType(t: string) { t == PROPOSAL_T || t == PROJECT_T }

  lemma RowIsSame(w: World, s: Store, s': Store, x: string, at: string, t: string)
    requires AgreeAt(w, s, s', x) && GateType(t)
    ensures RowIs(w, s', x, at, t) <==> RowIs(w, s, x, at, t)
    ensures RowIs(w, s, x, at, t) ==> Get(s', x) == Get(s, x)
  {
    assert Get(s, x).Some? <==> x in s.instances;
    assert Get(s', x).Some? <==> x in s'.instances;
  }

  lemma {:induction false} FirstSame(w: World, s: Store, s': Store, order: seq<string>, more: seq<string>, at: string, t: string)
    requires (forall x {:trigger AgreeAt(w, s, s', x)} :: AgreeAt(w, s, s', x)) && GateType(t)
    requires forall i :: 0 <= i < |more| ==> Unread(w, s', more[i])
    ensures FindFirst(w, s', order + more, at, t) == FindFirst(w, s, order, at, t)
  {
    if order == [] {
      assert order + more == more;
    } else {
      assert (order + more)[1..] == order[1..] + more;
      assert AgreeAt(w, s, s', order[0]);
      RowIsSame(w, s, s', order[0], at, t);
      FirstSame(w, s, s', order[1..], more, at, t);
    }
  }

  lemma {:induction false} LastSame(w: World, s: Store, s': Store, order: seq<string>, at: string, t: string)
    requires (forall x {:trigger AgreeAt(w, s, s', x)} :: AgreeAt(w, s, s', x)) && GateType(t)
    ensures FindLast(w, s', order, at, t) == FindLast(w, s, order, at, t)
  {
    if order != [] {
      var n := |order| - 1;
      assert AgreeAt(w, s, s', order[n]);
      RowIsSame(w, s, s', order[n], at, t);
      LastSame(w, s, s', order[..n], at, t);
    }
  }

  lemma {:induction false} LastSkips(w: World, s: Store, order: seq<string>, more: seq<string>, at: string, t: string)
    requires GateType(t) && forall i :: 0 <= i < |more| ==> Unread(w, s, more[i])
    ensures FindLast(w, s, order + more, at, t) == FindLast(w, s, order, at, t)
  {
    if more == [] {
      assert order + more == order;
    } else {
      var n := |more| - 1;
      assert (order + more)[..|order| + n] == order + more[..n];
      LastSkips(w, s, order, more[..n], at, t);
    }
  }

  lemma ProjectFieldSame(w: World, s: Store, s': Store, more: seq<string>, project: string, key: string)
    requires GateSees(w, s, s', more)
    ensures ProjectField(w, s', project, key) == ProjectField(w, s, project, key)
  {
    var at := "urn:ckp:project:" + project;
    LastSkips(w, s', s.order, more, at, PROJECT_T);
    LastSame(w, s, s', s.order, at, PROJECT_T);
    var row := FindLast(w, s, s.order, at, PROJECT_T);
    if row.Some? {
      assert AgreeAt(w, s, s', row.value);
      RowIsSame(w, s, s', row.value, at, PROJECT_T);
      assert Get(s', row.value) == Some(s.instances[row.value]);
    }
  }

  lemma MayEnactSame(w: World, sess: Session, s: Store, s': Store, more: seq<string>, about: Option<string>)
    requires GateSees(w, s, s', more)
    ensures MayEnact(w, sess, s', about) <==> MayEnact(w, sess, s, about)
  {
    if about.Some? && TargetProject(about.value).Some? {
      ProjectFieldSame(w, s, s', more, TargetProject(about.value).value, OWNED_BY);
    }
  }

  lemma CountsSame(w: World, s: Store, s': Store, about: string, x: string)
    requires AgreeAt(w, s, s', x)
    ensures Counts(w, s', about, x) <==> Counts(w, s, about, x)
    ensures Counts(w, s, about, x) ==> Get(s', x) == Get(s, x)
  {
    assert Get(s, x).Some? <==> x in s.instances;
    assert Get(s', x).Some? <==> x in s'.instances;
  }

  lemma ApproversSame(w: World, s: Store, s': Store, about: string)
    requires forall x {:trigger AgreeAt(w, s, s', x)} :: AgreeAt(w, s, s', x)
    ensures Approvers(w, s', about) == Approvers(w, s, about)
  {
    forall who | who in Approvers(w, s, about) ensures who in Approvers(w, s', about) {
      var x :| x in s.instances && Counts(w, s, about, x) && who == Field(w, s.instances[x], CREATED_BY).value;
      assert AgreeAt(w, s, s', x);
      CountsSame(w, s, s', about, x);
      assert Get(s', x) == Some(s.instances[x]);
    }
    forall who | who in Approvers(w, s', about) ensures who in Approvers(w, s, about) {
      var x :| x in s'.instances && Counts(w, s', about, x) && who == Field(w, s'.instances[x], CREATED_BY).value;
      assert AgreeAt(w, s, s', x);
      CountsSame(w, s, s', about, x);
      assert Get(s, x) == Some(s'.instances[x]);
    }
  }

  /** Everything the gate reads of a store, for one proposal IRI. */
  ghost predicate SameReads(w: World, sess: Session, s: Store, s': Store, about: string) {
    var pid := FindFirst(w, s, s.order, about, PROPOSAL_T);
    && FindFirst(w, s', s'.order, about, PROPOSAL_T) == pid
    && (MayEnact(w, sess, s', Some(about)) <==> MayEnact(w, sess, s, Some(about)))
    && QuorumFloor(w, s', Project(sess)) == QuorumFloor(w, s, Project(sess))
    && Approvers(w, s', about) == Approvers(w, s, about)
    && (pid.Some? ==>
         && pid.value in s.instances && pid.value in s'.instances && s'.instances[pid.value] == s.instances[pid.value]
         && (MayEnact(w, sess, s', Field(w, s.instances[pid.value], ABOUT)) <==> MayEnact(w, sess, s, Field(w, s.instances[pid.value], ABOUT))))
  }

  lemma ReadsSame(w: World, sess: Session, s: Store, s': Store, more: seq<string>, about: string)
    requires GateSees(w, s, s', more)
    ensures SameReads(w, sess, s, s', about)
  {
    MayEnactSame(w, sess, s, s', more, Some(about));
    FirstSame(w, s, s', s.order, more, about, PROPOSAL_T);
    ApproversSame(w, s, s', about);
    ProjectFieldSame(w, s, s', more, Project(sess), PROJECT_KIND);
    var pid := FindFirst(w, s, s.order, about, PROPOSAL_T);
    if pid.Some? {
      assert AgreeAt(w, s, s', pid.value);
      RowIsSame(w, s, s', pid.value, about, PROPOSAL_T);
      assert Get(s', pid.value) == Some(s.instances[pid.value]);
      MayEnactSame(w, sess, s, s', more, Field(w, s.instances[pid.value], ABOUT));
    }
  }

  lemma GateFromReads(w: World, sess: Session, g: Gov, g': Gov, about: Option<string>)
    requires about.Some? ==> SameReads(w, sess, g.store, g'.store, about.value)
    ensures ApplyGate(w, sess, g', about) == ApplyGate(w, sess, g, about)
  {
  }

  /** The gate answers the same on stores it cannot tell apart. */
  lemma GateSame(w: World, sess: Session, g: Gov, g': Gov, more: seq<string>, about: Option<string>)
    requires GateSees(w, g.store, g'.store, more)
    ensures ApplyGate(w, sess, g', about) == ApplyGate(w, sess, g, about)
  {
    if about.Some? {
      ReadsSame(w, sess, g.store, g'.store, more, about.value);
    }
    GateFromReads(w, sess, g, g', about);
  }

  // ---------------------------------------------------------- what a cascade adds

  lemma SealOrder(w: World, sess: Session, g: Gov, id: string, body: Body, nonce: string)
    requires SealIn(w, sess, g, id, body, nonce).Sealed?
    ensures var s' := SealIn(w, sess, g, id, body, nonce).store;
      && s'.order == (if id in g.store.instances then g.store.order else g.store.order + [id])
      && s'.instances == g.store.instances[id := Canonical(w, sess, body, nonce)]
  {
    WrittenShape(w, IdentityKey(sess).value, g.store, id, Canonical(w, sess, body, nonce));
  }

  function Fresh(s: Store, id: string): seq<string> { if id in s.instances then [] else [id] }

  lemma CascadeStore(w: World, sess: Session, g: Gov, nonce: string)
    requires CascadePhase(w, sess, g, nonce).Advanced?
    ensures var p, s' := Project(sess), CascadePhase(w, sess, g, nonce).gov.store;
      var n := BumpedTo(g, p);
      && s'.order == g.store.order + (Fresh(g.store, EpochId(p, n)) + Fresh(g.store, MatId(p, n)))
      && s'.instances == g.store.instances[EpochId(p, n) := Canonical(w, sess, CascadeEpoch(w, g, p, n), nonce)]
                                          [MatId(p, n) := Canonical(w, sess, CascadeMat(w, g, p, n), nonce)]
  {
    var p := Project(sess);
    var n := BumpedTo(g, p);
    var g1 := g.(cache := Bump(g.cache, p));
    var e := SealIn(w, sess, g1, EpochId(p, n), CascadeEpoch(w, g, p, n), nonce);
    SealOrder(w, sess, g1, EpochId(p, n), CascadeEpoch(w, g, p, n), nonce);
    var g2 := Pin(g1.(store := e.store), p, Surface(w, g, p));
    SealOrder(w, sess, g2, MatId(p, n), CascadeMat(w, g, p, n), nonce);
    assert EpochId(p, n)[0] == 'e' && MatId(p, n)[0] == 'm';
    TwoWrites(g.store, e.store, CascadePhase(w, sess, g, nonce).gov.store, EpochId(p, n), MatId(p, n),
              Canonical(w, sess, CascadeEpoch(w, g, p, n), nonce), Canonical(w, sess, CascadeMat(w, g, p, n), nonce));
  }

  lemma TwoWrites(s: Store, s1: Store, s2: Store, e: string, m: string, eb: Body, mb: Body)
    requires e != m
    requires s1.order == (if e in s.instances then s.order else s.order + [e]) && s1.instances == s.instances[e := eb]
    requires s2.order == (if m in s1.instances then s1.order else s1.order + [m]) && s2.instances == s1.instances[m := mb]
    ensures s2.order == s.order + (Fresh(s, e) + Fresh(s, m)) && s2.instances == s.instances[e := eb][m := mb]
  {
  }

  lemma CascadeTypes(w: World, sess: Session, g: Gov, nonce: string)
    ensures var p, n := Project(sess), BumpedTo(g, Project(sess));
      && Field(w, Canonical(w, sess, CascadeEpoch(w, g, p, n), nonce), "type") == Some(EPOCH_T)
      && Field(w, Canonical(w, sess, CascadeMat(w, g, p, n), nonce), "type") == Some(MAT_T)
  {
    var p, n := Project(sess), BumpedTo(g, Project(sess));
    RecordTypes(w, g, p, n);
    RecordKeysUnstamped();
    SealedField(w, sess, CascadeEpoch(w, g, p, n), nonce, "type", EPOCH_T);
    SealedField(w, sess, CascadeMat(w, g, p, n), nonce, "type", MAT_T);
  }

  lemma RecordTypes(w: World, g: Gov, p: string, n: nat)
    ensures var e, m := CascadeEpoch(w, g, p, n), CascadeMat(w, g, p, n);
      "type" in e && e["type"] == Str(EPOCH_T) && "type" in m && m["type"] == Str(MAT_T)
  {
  }

  /** A reserved record row, there already, is nothing the gate reads. */
  lemma RecordUnread(w: World, s: Store, x: string)
    requires StoreWf(w, s) && ("epoch-" <= x || "mat-" <= x)
    ensures Unread(w, s, x)
  {
    if x in s.instances {
      assert RowWf(w, x, s.instances[x]);
    }
  }

  /** Two rows written beside what the gate reads. */
  lemma BesideGate(w: World, s: Store, s': Store, e: string, m: string, eb: Body, mb: Body)
    requires Unread(w, s, e) && Unread(w, s, m) && e != m
    requires s'.instances == s.instances[e := eb][m := mb]
    requires Field(w, eb, "type") == Some(EPOCH_T) && Field(w, mb, "type") == Some(MAT_T)
    requires s'.order == s.order + (Fresh(s, e) + Fresh(s, m))
    ensures GateSees(w, s, s', Fresh(s, e) + Fresh(s, m))
  {
    assert Unread(w, s', e) && Unread(w, s', m);
    forall x ensures AgreeAt(w, s, s', x) {
      assert x != e && x != m ==> Get(s', x) == Get(s, x);
    }
  }

  lemma CascadeUnseen(w: World, sess: Session, g: Gov, nonce: string, after: Store)
    requires GovWf(w, g) && CascadePhase(w, sess, g, nonce).Advanced?
    requires var s' := CascadePhase(w, sess, g, nonce).gov.store; after.instances == s'.instances && after.order == s'.order
    ensures var p, n := Project(sess), BumpedTo(g, Project(sess));
      GateSees(w, g.store, after, Fresh(g.store, EpochId(p, n)) + Fresh(g.store, MatId(p, n)))
  {
    var p, n := Project(sess), BumpedTo(g, Project(sess));
    CascadeStore(w, sess, g, nonce);
    CascadeTypes(w, sess, g, nonce);
    assert EpochId(p, n)[0] == 'e' && MatId(p, n)[0] == 'm';
    RecordUnread(w, g.store, EpochId(p, n));
    RecordUnread(w, g.store, MatId(p, n));
    BesideGate(w, g.store, after, EpochId(p, n), MatId(p, n),
               Canonical(w, sess, CascadeEpoch(w, g, p, n), nonce), Canonical(w, sess, CascadeMat(w, g, p, n), nonce));
  }

  /** A REGISTRATION REFUSAL CAN BE REPEATED. The call is refused, the live epoch has
      moved on, and the gate admits the very same proposal again. */
  lemma RefusalRepeats(w: World, sess: Session, g: Gov, about: Option<string>, nonce: string)
    requires GovWf(w, g) && ApplyGate(w, sess, g, about).Admitted?
    requires ApplyGate(w, sess, g, about).pid in g.store.instances
    requires KeepsCascade(w, sess, g, g.store.instances[ApplyGate(w, sess, g, about).pid], nonce)
    ensures var r, p := Apply(w, sess, g, about, nonce), Project(sess);
      && r.reply.Refused? && Registration(r.reply.code)
      && LiveEpoch(r.gov, p) == BumpedTo(g, p) > LiveEpoch(g, p)
      && ApplyGate(w, sess, r.gov, about) == ApplyGate(w, sess, g, about)
  {
    var p, gate := Project(sess), ApplyGate(w, sess, g, about);
    var prop := g.store.instances[gate.pid];
    ApplyExactly(w, sess, g, about, nonce);
    KeptSeen(w, sess, g, prop, nonce, Apply(w, sess, g, about, nonce).gov);
    GateSame(w, sess, g, Apply(w, sess, g, about, nonce).gov,
             Fresh(g.store, EpochId(p, BumpedTo(g, p))) + Fresh(g.store, MatId(p, BumpedTo(g, p))), about);
  }

  /** What a kept cascade leaves, as the gate and the epoch table see it. */
  lemma KeptSeen(w: World, sess: Session, g: Gov, prop: Body, nonce: string, g': Gov)
    requires GovWf(w, g) && KeepsCascade(w, sess, g, prop, nonce)
    requires var a := GraphPhase(w, Project(sess), g, prop);
      a.Go? && (var c := CascadePhase(w, sess, a.gov, nonce); c.Advanced? && SameContents(c.gov, g'))
    ensures var p, n := Project(sess), BumpedTo(g, Project(sess));
      && GateSees(w, g.store, g'.store, Fresh(g.store, EpochId(p, n)) + Fresh(g.store, MatId(p, n)))
      && LiveEpoch(g', p) == n > LiveEpoch(g, p)
  {
    GraphPhaseShape(w, Project(sess), g, prop);
    var mid := GraphPhase(w, Project(sess), g, prop).gov;
    CascadeMoves(w, sess, mid, nonce);
    CascadeUnseen(w, sess, mid, nonce, g'.store);
  }
}
