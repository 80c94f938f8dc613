/** What a successful `ckp.apply` has written when it returns, row by row: the kernel
    graph, the policy, the Epoch and Materialization, the registration and the proposal. */
module Enacted {
  import opened Text
  import opened Facts
  import opened Ledger
  import opened Plans
  import opened Governance
  import opened GovernanceFrames
  import opened GovernanceRuns
  import opened GovernanceSafety
  import opened Atomicity
  import opened EpochChain
  import opened Refusals
  import opened OwnerGate
  import opened Patching
  import Door

  // -------------------------------------------------------------- the phases it took

  /** The states an enacted call went through: the graph folded, the policy patched, the
      cascade committed, the registrations made, the proposal sealed. */
  lemma Phases(w: World, sess: Session, g: Gov, gate: Gate, nonce: string) returns (g1: Gov, g2: Gov, c: Gov, a: Gov, o: Gov)
    requires gate.Admitted? && gate.pid in g.store.instances && Enact(w, sess, g, gate, nonce).reply.Enacted?
    ensures var r, prop := Enact(w, sess, g, gate, nonce), g.store.instances[gate.pid];
      && GraphPhase(w, Project(sess), g, prop) == Go(g1) && PolicyPhase(w, sess, g1, prop, nonce) == Go(g2)
      && CascadePhase(w, sess, g2, nonce) == Advanced(c, r.reply.epoch)
      && AffordancePhase(w, sess, c, prop, r.reply.epoch, nonce) == Go(a)
      && ObligationPhase(w, sess, a, prop, r.reply.epoch) == Go(o) && r.reply.pid == gate.pid
      && (var sealed := SealIn(w, sess, o, gate.pid, AppliedBody(prop, r.reply.epoch), nonce);
          sealed.Sealed? && r.gov == o.(store := sealed.store))
  {
    var prop := g.store.instances[gate.pid];
    EnactedPhases(w, sess, g, gate, nonce);
    BeforeCascade(w, sess, g, gate, nonce);
    g1 := GraphPhase(w, Project(sess), g, prop).gov;
    g2 := PolicyPhase(w, sess, g1, prop, nonce).gov;
    var k := CascadePhase(w, sess, g2, nonce);
    c := k.gov;
    Finished(w, sess, g, c, gate, prop, k.epoch, nonce);
    a := AffordancePhase(w, sess, c, prop, k.epoch, nonce).gov;
    o := ObligationPhase(w, sess, a, prop, k.epoch).gov;
  }

  lemma Finished(w: World, sess: Session, before: Gov, c: Gov, gate: Gate, prop: Body, epoch: nat, nonce: string)
    requires gate.Admitted? && Finish(w, sess, before, c, gate, prop, epoch, nonce).reply.Enacted?
    ensures var r, a := Finish(w, sess, before, c, gate, prop, epoch, nonce), AffordancePhase(w, sess, c, prop, epoch, nonce);
      && a.Go? && r.reply.epoch == epoch && r.reply.pid == gate.pid
      && (var o := ObligationPhase(w, sess, a.gov, prop, epoch);
          o.Go? && (var sealed := SealIn(w, sess, o.gov, gate.pid, AppliedBody(prop, epoch), nonce);
                    sealed.Sealed? && r.gov == o.gov.(store := sealed.store)))
  {
    var a := AffordancePhase(w, sess, c, prop, epoch, nonce);
    AffordanceHalts(w, sess, c, prop, epoch, nonce);
    if a.Halt? {
      FinishContents(w, sess, before, c, gate, prop, epoch, nonce);
      FinishRefusedExactly(w, sess, before, c, gate, prop, epoch, nonce);
    } else {
      ObligationHaltsRefused(w, sess, a.gov, prop, epoch);
    }
  }

  lemma ObligationHaltsRefused(w: World, sess: Session, g: Gov, prop: Body, epoch: nat)
    ensures var o := ObligationPhase(w, sess, g, prop, epoch); o.Halt? ==> o.out.reply.Refused?
  {
  }

  // ------------------------------------------------------------------- the graph

  /** The kernel graph after an op: folded with its Turtle, or as it was without any. */
  ghost predicate GraphsAre(w: World, p: string, before: map<string, Graph>, prop: Body, after: map<string, Graph>) {
    match w.opToTtl(prop)
    case Untranslatable => false
    case NoTtl => after == before
    case Ttl(ttl) =>
      exists x: Graph :: w.applyTtl(ttl, if p in before then before[p] else {}) == GraphIs(x) && after == before[p := x]
  }

  lemma GraphFolded(w: World, sess: Session, g: Gov, prop: Body)
    requires GraphPhase(w, Project(sess), g, prop).Go?
    ensures GraphsAre(w, Project(sess), g.graphs, prop, GraphPhase(w, Project(sess), g, prop).gov.graphs)
  {
  }

  // ------------------------------------------------------------------ registrations

  /** The verb with its dots dashed. */
  ghost predicate DashedIs(verb: string, d: string) {
    |d| == |verb| && forall i :: 0 <= i < |verb| ==> d[i] == (if verb[i] == '.' then '-' else verb[i])
  }

  /** What an affordance row declares. */
  ghost predicate Declares(w: World, row: Body, p: string, verb: string, n: nat) {
    && Field(w, row, "type") == Some("ckp:core#Affordance") && Field(w, row, "@id") == Some("ckp://Affordance#" + p + "." + verb)
    && Field(w, row, "ckp:core#inTopic") == Some("input.kernel." + p + ".action." + verb)
    && Field(w, row, "ckp:core#outTopic") == Some("result.kernel." + p + "." + verb)
    && Field(w, row, "ckp:core#plane") == Some("derived")
    && Field(w, row, "ckp:core#derivedBy") == Some("urn:ckp:" + p + "/materialization/" + Print(n))
  }

  lemma BodyDeclares(p: string, verb: string, n: nat)
    ensures var b := AffordanceBody(p, verb, n);
      && "type" in b && b["type"] == Str("ckp:core#Affordance") && "@id" in b && b["@id"] == Str("ckp://Affordance#" + p + "." + verb)
      && "ckp:core#inTopic" in b && b["ckp:core#inTopic"] == Str("input.kernel." + p + ".action." + verb)
      && "ckp:core#outTopic" in b && b["ckp:core#outTopic"] == Str("result.kernel." + p + "." + verb)
      && "ckp:core#plane" in b && b["ckp:core#plane"] == Str("derived")
      && "ckp:core#derivedBy" in b && b["ckp:core#derivedBy"] == Str("urn:ckp:" + p + "/materialization/" + Print(n))
  {
  }

  lemma SealedDeclares(w: World, sess: Session, p: string, verb: string, n: nat, nonce: string)
    ensures Declares(w, Canonical(w, sess, AffordanceBody(p, verb, n), nonce), p, verb, n)
  {
    BodyDeclares(p, verb, n);
    RecordKeysUnstamped();
    var b := AffordanceBody(p, verb, n);
    SealedField(w, sess, b, nonce, "type", "ckp:core#Affordance");
    SealedField(w, sess, b, nonce, "@id", "ckp://Affordance#" + p + "." + verb);
    SealedField(w, sess, b, nonce, "ckp:core#inTopic", "input.kernel." + p + ".action." + verb);
    SealedField(w, sess, b, nonce, "ckp:core#outTopic", "result.kernel." + p + "." + verb);
    SealedField(w, sess, b, nonce, "ckp:core#plane", "derived");
    SealedField(w, sess, b, nonce, "ckp:core#derivedBy", "urn:ckp:" + p + "/materialization/" + Print(n));
  }

  /** What a registration that went through left: the plan and the route of the verb
      that validated; nothing where the op registers nothing. */
  lemma AffordanceLeft(w: World, sess: Session, c: Gov, prop: Body, epoch: nat, nonce: string)
    requires AffordancePhase(w, sess, c, prop, epoch, nonce).Go?
    ensures var a, p := AffordancePhase(w, sess, c, prop, epoch, nonce).gov, Project(sess);
      if !AddsAffordance(w, prop) then a == c
      else
        && w.affordance(prop).Some?
        && (var verb, plan := w.affordance(prop).value.0, w.affordance(prop).value.1;
            && a.cache.plans == c.cache.plans[PlanKey(p, verb, epoch) := plan] && a.cache.epochs == c.cache.epochs
            && a.routes == c.routes[(p, verb) := epoch] && a.graphs == c.graphs && a.obligations == c.obligations)
  {
    if AddsAffordance(w, prop) {
      AffordanceHalts(w, sess, c, prop, epoch, nonce);
    }
  }

  /** And the row that declares it. */
  lemma AffordanceRow(w: World, sess: Session, c: Gov, prop: Body, epoch: nat, nonce: string, verb: string, plan: Plan)
    requires AffordancePhase(w, sess, c, prop, epoch, nonce).Go? && AddsAffordance(w, prop) && w.affordance(prop) == Some((verb, plan))
    ensures var row := Get(AffordancePhase(w, sess, c, prop, epoch, nonce).gov.store, AffordanceId(Project(sess), verb));
      row.Some? && Declares(w, row.value, Project(sess), verb, epoch)
  {
    var p := Project(sess);
    AffordanceHalts(w, sess, c, prop, epoch, nonce);
    var g1 := c.(cache := c.cache.(plans := c.cache.plans[PlanKey(p, verb, epoch) := plan]), routes := c.routes[(p, verb) := epoch]);
    SealRows(w, sess, g1, AffordanceId(p, verb), AffordanceBody(p, verb, epoch), nonce, AffordanceId(p, verb));
    SealedDeclares(w, sess, p, verb, epoch, nonce);
  }

  lemma AffordanceIdIs(p: string, verb: string, d: string)
    requires DashedIs(verb, d)
    ensures AffordanceId(p, verb) == "aff-" + p + "-" + d
  {
    assert Dashed(verb) == d;
  }

  /** What an affordance declares is what the door does: a message on its input topic is
      routed to its kernel and verb with no identity, and answered on its output topic. */
  lemma DeclaredIsRouted(p: string, verb: string)
    requires Door.Token(p) && verb != ""
    ensures Door.RouteInbound("input.kernel." + p + ".action." + verb)
      == Some(Door.Routed(p, None, verb, "result.kernel." + p + "." + verb))
  {
    assert "." + ("action." + verb) == ".action." + verb;
    assert "input.kernel." + p + ".action." + verb == Door.Address(p, None, verb);
    Door.AddressRoutes(p, None, verb);
  }

  lemma ObligationLeft(w: World, sess: Session, a: Gov, prop: Body, epoch: nat)
    requires ObligationPhase(w, sess, a, prop, epoch).Go?
    ensures var o, p := ObligationPhase(w, sess, a, prop, epoch).gov, Project(sess);
      if !AddsObligation(w, prop) then o == a
      else
        && w.obligation(prop, epoch).Some?
        && (var name, row := w.obligation(prop, epoch).value.0, w.obligation(prop, epoch).value.1;
            o == a.(obligations := o.obligations)
            && (row.active ==> o.obligations == a.obligations[(p, name) := row])
            && (!row.active ==> (p, name) in a.obligations)
            && (!row.active ==> o.obligations == a.obligations[(p, name) := a.obligations[(p, name)].(active := false)]))
  {
  }

  // ------------------------------------------------------------- the whole call

  /** An enacted call, by its phases. */
  lemma ApplyPhases(w: World, sess: Session, g: Gov, about: Option<string>, nonce: string) returns (g1: Gov, g2: Gov, c: Gov, a: Gov, o: Gov)
    requires Apply(w, sess, g, about, nonce).reply.Enacted?
    ensures var r := Apply(w, sess, g, about, nonce);
      && r.reply.pid in g.store.instances
      && (var prop := g.store.instances[r.reply.pid];
          && GraphPhase(w, Project(sess), g, prop) == Go(g1) && PolicyPhase(w, sess, g1, prop, nonce) == Go(g2)
          && CascadePhase(w, sess, g2, nonce) == Advanced(c, r.reply.epoch)
          && AffordancePhase(w, sess, c, prop, r.reply.epoch, nonce) == Go(a) && ObligationPhase(w, sess, a, prop, r.reply.epoch) == Go(o)
          && (var sealed := SealIn(w, sess, o, r.reply.pid, AppliedBody(prop, r.reply.epoch), nonce);
              sealed.Sealed? && r.gov == o.(store := sealed.store)))
  {
    EnactedGateOpen(w, sess, g, about, nonce);
    g1, g2, c, a, o := Phases(w, sess, g, ApplyGate(w, sess, g, about), nonce);
  }

  /** THE KERNEL GRAPH of an enacted op is the old one folded with the op's Turtle. */
  lemma EnactedGraph(w: World, sess: Session, g: Gov, about: Option<string>, nonce: string)
    requires Apply(w, sess, g, about, nonce).reply.Enacted?
    ensures var r := Apply(w, sess, g, about, nonce);
      r.reply.pid in g.store.instances && GraphsAre(w, Project(sess), g.graphs, g.store.instances[r.reply.pid], r.gov.graphs)
  {
    var g1, g2, c, a, o := ApplyPhases(w, sess, g, about, nonce);
    var r := Apply(w, sess, g, about, nonce);
    var prop := g.store.instances[r.reply.pid];
    GraphFolded(w, sess, g, prop);
    PolicyGraphs(w, sess, g1, prop, nonce);
    CascadeMoves(w, sess, g2, nonce);
    AffordanceLeft(w, sess, c, prop, r.reply.epoch, nonce);
    ObligationLeft(w, sess, a, prop, r.reply.epoch);
  }

  lemma PolicyGraphs(w: World, sess: Session, g: Gov, prop: Body, nonce: string)
    requires PolicyPhase(w, sess, g, prop, nonce).Go?
    ensures var g2 := PolicyPhase(w, sess, g, prop, nonce).gov; g2 == g.(store := g2.store)
  {
    var field, value := Nested(w, prop, "proposalDetail", "field"), Detail(prop, "value");
    if field.Some? && value.Some? {
      UpdateRows(w, sess, g, Some(KernelRowIri(Project(sess))), Some([(CORE + field.value, value.value)]), nonce, "");
    }
  }

  /** THE REGISTRATION of an enacted op: the route, the plan and the declared row of an
      affordance; the row of an obligation, or its retirement; no registry moves else. */
  lemma EnactedRegistration(w: World, sess: Session, g: Gov, about: Option<string>, nonce: string)
    requires Apply(w, sess, g, about, nonce).reply.Enacted?
    ensures var r, p := Apply(w, sess, g, about, nonce), Project(sess);
      var n := r.reply.epoch;
      && r.reply.pid in g.store.instances
      && (var prop := g.store.instances[r.reply.pid];
          && (!AddsAffordance(w, prop) ==> r.gov.routes == g.routes)
          && (AddsAffordance(w, prop) ==> w.affordance(prop).Some?)
          && (AddsAffordance(w, prop) ==>
               var verb, plan := w.affordance(prop).value.0, w.affordance(prop).value.1;
               && r.gov.routes == g.routes[(p, verb) := n]
               && PlanKey(p, verb, n) in r.gov.cache.plans && r.gov.cache.plans[PlanKey(p, verb, n)] == plan)
          && (!AddsObligation(w, prop) ==> r.gov.obligations == g.obligations)
          && (AddsObligation(w, prop) ==> w.obligation(prop, n).Some?)
          && (AddsObligation(w, prop) ==>
               var name, row := w.obligation(prop, n).value.0, w.obligation(prop, n).value.1;
               && (row.active ==> r.gov.obligations == g.obligations[(p, name) := row])
               && (!row.active ==> (p, name) in g.obligations)
               && (!row.active ==> r.gov.obligations == g.obligations[(p, name) := g.obligations[(p, name)].(active := false)])))
  {
    var g1, g2, c, a, o := ApplyPhases(w, sess, g, about, nonce);
    var r := Apply(w, sess, g, about, nonce);
    var prop := g.store.instances[r.reply.pid];
    GraphPhaseShape(w, Project(sess), g, prop);
    PolicyGraphs(w, sess, g1, prop, nonce);
    CascadeRows(w, sess, g2, nonce, "");
    AffordanceLeft(w, sess, c, prop, r.reply.epoch, nonce);
    ObligationLeft(w, sess, a, prop, r.reply.epoch);
  }

  /** The affordance row, as the enacted call leaves it. */
  lemma EnactedDeclares(w: World, sess: Session, g: Gov, about: Option<string>, nonce: string, verb: string, plan: Plan, d: string)
    requires var r := Apply(w, sess, g, about, nonce).reply;
      && r.Enacted? && "proposal-" <= r.pid && r.pid in g.store.instances
      && AddsAffordance(w, g.store.instances[r.pid]) && w.affordance(g.store.instances[r.pid]) == Some((verb, plan))
    requires DashedIs(verb, d)
    ensures var r, p := Apply(w, sess, g, about, nonce), Project(sess);
      var row := Get(r.gov.store, "aff-" + p + "-" + d);
      row.Some? && Declares(w, row.value, p, verb, r.reply.epoch)
  {
    var g1, g2, c, a, o := ApplyPhases(w, sess, g, about, nonce);
    var r, p := Apply(w, sess, g, about, nonce), Project(sess);
    var prop := g.store.instances[r.reply.pid];
    AffordanceIdIs(p, verb, d);
    AffordanceRow(w, sess, c, prop, r.reply.epoch, nonce, verb, plan);
    ObligationLeft(w, sess, a, prop, r.reply.epoch);
    assert AffordanceId(p, verb)[0] == 'a' && r.reply.pid[0] == 'p';
    SealRows(w, sess, o, r.reply.pid, AppliedBody(prop, r.reply.epoch), nonce, AffordanceId(p, verb));
  }

  /** THE PROPOSAL of an enacted call says applied, at which epoch, and otherwise what it
      said, under the applier's stamps. */
  lemma EnactedProposal(w: World, sess: Session, g: Gov, about: Option<string>, nonce: string, key: string)
    requires Apply(w, sess, g, about, nonce).reply.Enacted?
    ensures var r := Apply(w, sess, g, about, nonce);
      && r.reply.pid in g.store.instances && r.reply.pid in r.gov.store.instances
      && (var was, now := g.store.instances[r.reply.pid], r.gov.store.instances[r.reply.pid];
          && Field(w, now, PROPOSAL_STATE) == Some("applied") && Field(w, now, APPLIED_EPOCH) == Some(Print(r.reply.epoch))
          && (!Stamped(key) && key != PROPOSAL_STATE && key != APPLIED_EPOCH ==> (key in now <==> key in was) && (key in was ==> now[key] == was[key])))
  {
    var g1, g2, c, a, o := ApplyPhases(w, sess, g, about, nonce);
    var r := Apply(w, sess, g, about, nonce);
    var prop := g.store.instances[r.reply.pid];
    SealRows(w, sess, o, r.reply.pid, AppliedBody(prop, r.reply.epoch), nonce, r.reply.pid);
    assert Get(r.gov.store, r.reply.pid) == Some(Canonical(w, sess, AppliedBody(prop, r.reply.epoch), nonce));
    AppliedSays(w, sess, prop, r.reply.epoch, nonce, key);
  }

  lemma AppliedSays(w: World, sess: Session, was: Body, n: nat, nonce: string, key: string)
    ensures var now := Canonical(w, sess, AppliedBody(was, n), nonce);
      && Field(w, now, PROPOSAL_STATE) == Some("applied") && Field(w, now, APPLIED_EPOCH) == Some(Print(n))
      && (!Stamped(key) && key != PROPOSAL_STATE && key != APPLIED_EPOCH ==> (key in now <==> key in was) && (key in was ==> now[key] == was[key]))
  {
    var body := AppliedBody(was, n);
    RecordKeysUnstamped();
    assert PROPOSAL_STATE != APPLIED_EPOCH;
    SealedField(w, sess, body, nonce, PROPOSAL_STATE, "applied");
    SealedField(w, sess, body, nonce, APPLIED_EPOCH, Print(n));
    if !Stamped(key) {
      CanonicalKeeps(w, sess, body, nonce, key);
    }
  }

  // ---------------------------------------------------------------- the policy

  /** One entry under a full IRI is written under it. */
  lemma OneEntry(w: World, sess: Session, g: Gov, ref: string, patch: seq<(string, Json)>, nonce: string)
    requires UpdateTyped(w, sess, g, Some(ref), Some(patch), nonce).reply.Done? && |patch| == 1 && ':' in patch[0].0
    ensures var r := UpdateTyped(w, sess, g, Some(ref), Some(patch), nonce);
      Means(w, g.store, ref, r.reply.id) && Holds(r.gov.store, r.reply.id, patch[0].0, patch[0].1)
  {
    var iri := patch[0].0;
    var id := UpdateTyped(w, sess, g, Some(ref), Some(patch), nonce).reply.id;
    UpdateTouchesOne(w, sess, g, Some(ref), Some(patch), nonce, id);
    UpdateRows(w, sess, g, Some(ref), Some(patch), nonce, id);
    assert Get(UpdateTyped(w, sess, g, Some(ref), Some(patch), nonce).gov.store, id).Some?;
    var t := Field(w, g.store.instances[id], "type");
    NamespaceExactly(t, Namespace(t));
    if !Stamped(iri) {
      PatchWritten(w, sess, g, Some(ref), Some(patch), nonce, Namespace(t), iri);
      AloneIsLast(Declared(w, sess, g, g.store.instances[id]), Namespace(t), patch);
    }
  }

  lemma AloneIsLast(declared: map<string, string>, ns: string, patch: seq<(string, Json)>)
    requires |patch| == 1 && ':' in patch[0].0
    ensures LastFor(declared, ns, patch, 0, patch[0].0)
  {
    assert ':' !in "id" && ':' !in "type" && ':' !in "@id";
  }

  lemma PolicyIsUpdate(w: World, sess: Session, g: Gov, prop: Body, nonce: string, field: string, v: Json) returns (patch: seq<(string, Json)>)
    requires PolicyPhase(w, sess, g, prop, nonce).Go? && SetsPolicy(w, prop, field, v)
    ensures |patch| == 1 && patch[0] == ("ckp:core#" + field, v)
    ensures var r := UpdateTyped(w, sess, g, Some("urn:ckp:" + Project(sess) + "/kernel"), Some(patch), nonce);
      r.reply.Done? && PolicyPhase(w, sess, g, prop, nonce).gov == r.gov
  {
    patch := [("ckp:core#" + field, v)];
  }

  lemma PolicyWritten(w: World, sess: Session, g: Gov, prop: Body, nonce: string, field: string, v: Json) returns (id: string)
    requires GovWf(w, g) && PolicyPhase(w, sess, g, prop, nonce).Go? && SetsPolicy(w, prop, field, v)
    ensures Means(w, g.store, "urn:ckp:" + Project(sess) + "/kernel", id) && !Reserved(id)
    ensures Holds(PolicyPhase(w, sess, g, prop, nonce).gov.store, id, "ckp:core#" + field, v)
  {
    var ref := KernelRowIri(Project(sess));
    var patch := PolicyIsUpdate(w, sess, g, prop, nonce, field, v);
    HasColon(field);
    id := UpdateTyped(w, sess, g, Some(ref), Some(patch), nonce).reply.id;
    OneEntry(w, sess, g, ref, patch, nonce);
    MeansUnreserved(w, sess, g, id);
  }

  lemma HasColon(field: string)
    ensures ':' in "ckp:core#" + field
  {
    assert ("ckp:core#" + field)[3] == ':';
  }

  lemma MeansUnreserved(w: World, sess: Session, g: Gov, id: string)
    requires GovWf(w, g) && Means(w, g.store, KernelRowIri(Project(sess)), id)
    ensures !Reserved(id)
  {
    ResolveExactly(w, g.store, KernelRowIri(Project(sess)), id);
    KernelRowUnreserved(w, g, Project(sess));
  }

  /** A row maps an IRI to a value, unless seal stamps that IRI itself. */
  ghost predicate Holds(s: Store, id: string, iri: string, v: Json) {
    id in s.instances && (!Stamped(iri) ==> iri in s.instances[id] && s.instances[id][iri] == v)
  }

  lemma HoldsOn(s: Store, s': Store, id: string, iri: string, v: Json)
    requires Holds(s, id, iri, v) && Get(s', id) == Get(s, id)
    ensures Holds(s', id, iri, v)
  {
  }

  /** After the policy phase nothing touches an unreserved row, where the op registers
      nothing. */
  lemma UnreservedAfter(w: World, sess: Session, g2: Gov, c: Gov, a: Gov, o: Gov, prop: Body, pid: string, n: nat, nonce: string, id: string)
    requires CascadePhase(w, sess, g2, nonce) == Advanced(c, n) && AffordancePhase(w, sess, c, prop, n, nonce) == Go(a)
    requires ObligationPhase(w, sess, a, prop, n) == Go(o) && !AddsAffordance(w, prop) && !AddsObligation(w, prop)
    requires !Reserved(id) && "proposal-" <= pid
    ensures Get(SealIn(w, sess, o, pid, AppliedBody(prop, n), nonce).store, id) == Get(g2.store, id)
  {
    CascadeRows(w, sess, g2, nonce, id);
    var p, m := Project(sess), BumpedTo(g2, Project(sess));
    RecordIdsInjective(p, m, p, m);
    AffordanceLeft(w, sess, c, prop, n, nonce);
    ObligationLeft(w, sess, a, prop, n);
    SealRows(w, sess, o, pid, AppliedBody(prop, n), nonce, id);
  }

  predicate SetsPolicy(w: World, prop: Body, field: string, v: Json) {
    && Field(w, prop, PROPOSAL_OP) == Some("set_kernel_policy")
    && Nested(w, prop, "proposalDetail", "field") == Some(field) && Detail(prop, "value") == Some(v)
  }

  /** THE POLICY of an enacted `set_kernel_policy` is written on the kernel's own row. */
  lemma EnactedPolicy(w: World, sess: Session, g: Gov, about: Option<string>, nonce: string, field: string, v: Json) returns (id: string)
    requires GovWf(w, g) && Apply(w, sess, g, about, nonce).reply.Enacted?
    requires var pid := Apply(w, sess, g, about, nonce).reply.pid;
      pid in g.store.instances && "proposal-" <= pid && SetsPolicy(w, g.store.instances[pid], field, v)
    ensures Means(w, g.store, "urn:ckp:" + Project(sess) + "/kernel", id)
    ensures Holds(Apply(w, sess, g, about, nonce).gov.store, id, "ckp:core#" + field, v)
  {
    var g1, g2, c, a, o := ApplyPhases(w, sess, g, about, nonce);
    var r := Apply(w, sess, g, about, nonce);
    var prop := g.store.instances[r.reply.pid];
    GraphPhaseShape(w, Project(sess), g, prop);
    id := PolicyWritten(w, sess, g1, prop, nonce, field, v);
    PolicyRegisters(w, prop, field, v);
    UnreservedAfter(w, sess, g2, c, a, o, prop, r.reply.pid, r.reply.epoch, nonce, id);
    HoldsOn(g2.store, r.gov.store, id, "ckp:core#" + field, v);
  }

  lemma PolicyRegisters(w: World, prop: Body, field: string, v: Json)
    requires SetsPolicy(w, prop, field, v)
    ensures !AddsAffordance(w, prop) && !AddsObligation(w, prop)
  {
    assert "set_kernel_policy" != "add_affordance" && "set_kernel_policy" != "add_proof_obligation";
  }

  // ---------------------------------------------------------------- the records

  /** What the sealed Epoch of a project and number says. */
  ghost predicate EpochSays(w: World, row: Body, p: string, n: nat, graphs: map<string, Graph>) {
    && Field(w, row, "type") == Some("ckp:core#Epoch") && Field(w, row, "@id") == Some("urn:ckp:" + p + "/epoch/" + Print(n))
    && EPOCH in row && row[EPOCH] == Num(n)
    && Field(w, row, SURFACE_DIGEST) == Some(w.surfaceDigest(w.composed(graphs, p)))
    && Field(w, row, STRUCTURAL_DIGEST) == Some(w.structuralDigest(w.composed(graphs, p)))
    && Field(w, row, PRODUCED_BY) == Some("urn:ckp:" + p + "/kernel/ck")
  }

  /** What the sealed Materialization says: from which epoch to which, of which graph. */
  ghost predicate MatSays(w: World, row: Body, p: string, from: nat, n: nat, graphs: map<string, Graph>) {
    && Field(w, row, "type") == Some("ckp:core#Materialization") && Field(w, row, "@id") == Some("urn:ckp:" + p + "/materialization/" + Print(n))
    && Field(w, row, MATERIALIZES) == Some("urn:ckp:" + p + "/kernel/ck")
    && FROM_EPOCH in row && row[FROM_EPOCH] == Num(from) && TO_EPOCH in row && row[TO_EPOCH] == Num(n)
    && Field(w, row, SOURCE_DIGEST) == Some(w.surfaceDigest(if p in graphs then graphs[p] else {}))
    && Field(w, row, SURFACE_DIGEST) == Some(w.surfaceDigest(w.composed(graphs, p)))
    && Field(w, row, PRODUCES_EPOCH) == Some("urn:ckp:" + p + "/epoch/" + Print(n))
  }

  lemma SealedEpochSays(w: World, sess: Session, g: Gov, n: nat, nonce: string)
    ensures EpochSays(w, Canonical(w, sess, CascadeEpoch(w, g, Project(sess), n), nonce), Project(sess), n, g.graphs)
  {
    var p := Project(sess);
    var b := CascadeEpoch(w, g, p, n);
    RecordKeysUnstamped();
    CanonicalStamps(w, sess, b, nonce);
    SealedField(w, sess, b, nonce, "type", "ckp:core#Epoch");
    SealedField(w, sess, b, nonce, "@id", EpochIri(p, n));
    CanonicalKeeps(w, sess, b, nonce, EPOCH);
    SealedField(w, sess, b, nonce, SURFACE_DIGEST, Surface(w, g, p));
    SealedField(w, sess, b, nonce, STRUCTURAL_DIGEST, w.structuralDigest(w.composed(g.graphs, p)));
  }

  lemma SealedMatSays(w: World, sess: Session, g: Gov, n: nat, nonce: string)
    ensures MatSays(w, Canonical(w, sess, CascadeMat(w, g, Project(sess), n), nonce), Project(sess), LiveEpoch(g, Project(sess)), n, g.graphs)
  {
    var p := Project(sess);
    var b := CascadeMat(w, g, p, n);
    RecordKeysUnstamped();
    MatBodySays(p, LiveEpoch(g, p), n, Source(w, g, p), Surface(w, g, p));
    SealedField(w, sess, b, nonce, "type", "ckp:core#Materialization");
    SealedField(w, sess, b, nonce, "@id", MatIri(p, n));
    SealedField(w, sess, b, nonce, MATERIALIZES, KernelIri(p));
    CanonicalKeeps(w, sess, b, nonce, FROM_EPOCH);
    CanonicalKeeps(w, sess, b, nonce, TO_EPOCH);
    SealedField(w, sess, b, nonce, SOURCE_DIGEST, Source(w, g, p));
    SealedField(w, sess, b, nonce, SURFACE_DIGEST, Surface(w, g, p));
    SealedField(w, sess, b, nonce, PRODUCES_EPOCH, EpochIri(p, n));
  }

  lemma MatBodySays(p: string, from: nat, n: nat, source: string, surface: string)
    ensures var b := MatBody(p, from, n, source, surface);
      && "type" in b && b["type"] == Str("ckp:core#Materialization") && "@id" in b && b["@id"] == Str(MatIri(p, n))
      && MATERIALIZES in b && b[MATERIALIZES] == Str(KernelIri(p)) && FROM_EPOCH in b && b[FROM_EPOCH] == Num(from)
      && TO_EPOCH in b && b[TO_EPOCH] == Num(n) && SOURCE_DIGEST in b && b[SOURCE_DIGEST] == Str(source)
      && SURFACE_DIGEST in b && b[SURFACE_DIGEST] == Str(surface) && PRODUCES_EPOCH in b && b[PRODUCES_EPOCH] == Str(EpochIri(p, n))
  {
  }

  /** The records of the cascade, under their ids. */
  lemma CascadeSays(w: World, sess: Session, g2: Gov, nonce: string)
    requires CascadePhase(w, sess, g2, nonce).Advanced?
    ensures var c, p := CascadePhase(w, sess, g2, nonce), Project(sess);
      var e, m := Get(c.gov.store, "epoch-" + (p + "-" + Print(c.epoch))), Get(c.gov.store, "mat-" + (p + "-" + Print(c.epoch)));
      && e.Some? && EpochSays(w, e.value, p, c.epoch, c.gov.graphs)
      && m.Some? && MatSays(w, m.value, p, LiveEpoch(g2, p), c.epoch, c.gov.graphs)
  {
    var p, n := Project(sess), BumpedTo(g2, Project(sess));
    CascadeRows(w, sess, g2, nonce, EpochId(p, n));
    CascadeRows(w, sess, g2, nonce, MatId(p, n));
    RecordIdsInjective(p, n, p, n);
    SealedEpochSays(w, sess, g2, n, nonce);
    SealedMatSays(w, sess, g2, n, nonce);
  }

  /** THE RECORDS of an enacted call, spelled out. */
  lemma EnactedRecordsSay(w: World, sess: Session, g: Gov, about: Option<string>, nonce: string)
    requires GovWf(w, g) && Apply(w, sess, g, about, nonce).reply.Enacted? && "proposal-" <= Apply(w, sess, g, about, nonce).reply.pid
    ensures var r, p := Apply(w, sess, g, about, nonce), Project(sess);
      var n := r.reply.epoch;
      var e, m := Get(r.gov.store, "epoch-" + (p + "-" + Print(n))), Get(r.gov.store, "mat-" + (p + "-" + Print(n)));
      && e.Some? && EpochSays(w, e.value, p, n, r.gov.graphs)
      && m.Some? && MatSays(w, m.value, p, if p in g.cache.epochs then g.cache.epochs[p].epoch else 0, n, r.gov.graphs)
  {
    var g1, g2, c, a, o := ApplyPhases(w, sess, g, about, nonce);
    var r, p := Apply(w, sess, g, about, nonce), Project(sess);
    var prop := g.store.instances[r.reply.pid];
    GraphPhaseShape(w, p, g, prop);
    PolicyGraphs(w, sess, g1, prop, nonce);
    CascadeSays(w, sess, g2, nonce);
    RecordsStay(w, sess, c, a, o, prop, r.reply.pid, r.reply.epoch, nonce, EpochId(p, r.reply.epoch));
    RecordsStay(w, sess, c, a, o, prop, r.reply.pid, r.reply.epoch, nonce, MatId(p, r.reply.epoch));
    RecordIdsInjective(p, r.reply.epoch, p, r.reply.epoch);
  }

  lemma RecordsStay(w: World, sess: Session, c: Gov, a: Gov, o: Gov, prop: Body, pid: string, n: nat, nonce: string, x: string)
    requires AffordancePhase(w, sess, c, prop, n, nonce) == Go(a) && ObligationPhase(w, sess, a, prop, n) == Go(o)
    requires "proposal-" <= pid && Record(x)
    ensures Get(SealIn(w, sess, o, pid, AppliedBody(prop, n), nonce).store, x) == Get(c.store, x) && o.graphs == c.graphs
  {
    AffordanceLeft(w, sess, c, prop, n, nonce);
    AffordanceRecords(w, sess, c, prop, n, nonce, x);
    ObligationLeft(w, sess, a, prop, n);
    assert pid[0] == 'p';
    SealRows(w, sess, o, pid, AppliedBody(prop, n), nonce, x);
  }

  lemma AffordanceRecords(w: World, sess: Session, c: Gov, prop: Body, n: nat, nonce: string, x: string)
    requires AffordancePhase(w, sess, c, prop, n, nonce).Go? && Record(x)
    ensures Get(AffordancePhase(w, sess, c, prop, n, nonce).gov.store, x) == Get(c.store, x)
  {
    if AddsAffordance(w, prop) {
      AffordanceHalts(w, sess, c, prop, n, nonce);
      var p := Project(sess);
      var (verb, plan) := w.affordance(prop).value;
      var g1 := c.(cache := c.cache.(plans := c.cache.plans[PlanKey(p, verb, n) := plan]), routes := c.routes[(p, verb) := n]);
      assert AffordanceId(p, verb)[0] == 'a';
      SealRows(w, sess, g1, AffordanceId(p, verb), AffordanceBody(p, verb, n), nonce, x);
    }
  }
}
