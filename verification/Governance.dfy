/** The governance plane: `propose_change`, `vote`, `apply` and the typed patch
    verb `update_typed`, each one transaction over the sealed store. */
module Governance {
  import opened Text
  import opened Facts
  import opened Ledger
  import opened Plans
  import Normalise

  const PROPOSAL_T := "ckp:core#Proposal"
  const VOTE_T := "ckp:core#Vote"
  const EPOCH_T := "ckp:core#Epoch"
  const MAT_T := "ckp:core#Materialization"
  const PROJECT_T := "ckp:core#Project"
  const AFFORDANCE_T := "ckp:core#Affordance"

  const OPS: seq<string> := ["add_class", "add_property", "modify_shape_constraint", "add_affordance",
                             "set_transition_map", "set_quorum", "set_materialize_policy",
                             "set_kernel_policy", "add_proof_obligation"]

  /** Everything a governed change can move. */
  datatype Gov = Gov(
    store: Store,
    graphs: map<string, Graph>,
    cache: Cache,
    routes: map<(string, string), nat>,
    obligations: map<(string, string), Obligation>)

  datatype Code =
    | InvalidAbout | NotOwner | UnknownProposal | NotPending | QuorumNotMet
    | OpTranslateFailed | GraphApplyFailed | InvalidPatch | PolicyRefused
    | AffordanceFailed | ObligationFailed
    | UnknownOp | InvalidQuorum | InvalidVote | ShapeViolation
    | IdRequired | UnknownInstance | UndeclaredKey | OwnershipNotPatchable | SealRefused

  datatype Reply =
    | Refused(code: Code)
    | Aborted
    | Done(id: string)
    | Enacted(pid: string, epoch: nat, approvals: nat, quorum: int)

  datatype Outcome = Outcome(gov: Gov, reply: Reply)

  function GraphOf(g: Gov, project: string): Graph {
    if project in g.graphs then g.graphs[project] else {}
  }

  /** A raise unwinds the whole call; only the counters keep their advance. */
  function Abort(before: Gov, after: Store): Outcome {
    Outcome(before.(store := Rollback(before.store, after)), Aborted)
  }

  // ------------------------------------------------------------------- look-ups

  function Get(s: Store, id: string): Option<Body> {
    if id in s.instances then Some(s.instances[id]) else None
  }

  predicate RowIs(w: World, s: Store, id: string, atId: string, typ: string) {
    id in s.instances && Field(w, s.instances[id], "@id") == Some(atId) && Field(w, s.instances[id], "type") == Some(typ)
  }

  /** First matching row in creation order. */
  function FindFirst(w: World, s: Store, order: seq<string>, atId: string, typ: string): (r: Option<string>)
    ensures r.Some? ==> r.value in order && RowIs(w, s, r.value, atId, typ)
    ensures r.None? ==> forall id :: id in order ==> !RowIs(w, s, id, atId, typ)
  {
    if order == [] then None
    else if RowIs(w, s, order[0], atId, typ) then Some(order[0])
    else FindFirst(w, s, order[1..], atId, typ)
  }

  /** `ORDER BY ts_created DESC LIMIT 1`. */
  function FindLast(w: World, s: Store, order: seq<string>, atId: string, typ: string): (r: Option<string>)
    ensures r.Some? ==> r.value in order && RowIs(w, s, r.value, atId, typ)
    ensures r.None? ==> forall id :: id in order ==> !RowIs(w, s, id, atId, typ)
  {
    if order == [] then None
    else
      var n := |order| - 1;
      if RowIs(w, s, order[n], atId, typ) then Some(order[n]) else FindLast(w, s, order[..n], atId, typ)
  }

  function ProjectField(w: World, s: Store, project: string, key: string): Option<string> {
    var row := FindLast(w, s, s.order, "urn:ckp:project:" + project, PROJECT_T);
    if row.None? then None else Field(w, s.instances[row.value], key)
  }

  function QuorumFloor(w: World, s: Store, project: string): int {
    if ProjectField(w, s, project, PROJECT_KIND) == Some("shared") then 2 else 1
  }

  /** `substring(about from '^urn:ckp:([a-z0-9-]+)/')`. */
  function TargetProject(about: string): Option<string> {
    var rest := StripPrefix(about, "urn:ckp:");
    if rest.None? then None
    else
      var cut := SplitOnce(rest.value, '/');
      if cut.Some? && cut.value.0 != "" && (forall i :: 0 <= i < |cut.value.0| ==> Normalise.AlnumOrHyphen(cut.value.0[i]))
      then Some(cut.value.0) else None
  }

  /** The owner a text binds, when it names a project that declared one. */
  function DeclaredOwner(w: World, s: Store, about: Option<string>): Option<string> {
    if about.None? || TargetProject(about.value).None? then None
    else ProjectField(w, s, TargetProject(about.value).value, OWNED_BY)
  }

  predicate MayEnact(w: World, sess: Session, s: Store, about: Option<string>) {
    var owner := DeclaredOwner(w, s, about);
    owner.Some? ==> OwnerIri(w, sess) == owner
  }

  /** `^[A-Za-z][A-Za-z0-9+.:#/_-]*$`. */
  predicate IriLike(s: string) {
    && s != "" && IsLetter(s[0])
    && forall i :: 0 <= i < |s| ==> IsLetter(s[i]) || IsDigit(s[i]) || s[i] in "+.:#/_-"
  }

  predicate IsLetter(c: char) { 'a' <= c <= 'z' || 'A' <= c <= 'Z' }

  // -------------------------------------------------------------------- approvals

  predicate ApproveVote(w: World, b: Body, about: string) {
    && Field(w, b, "type") == Some(VOTE_T) && Field(w, b, ABOUT) == Some(about)
    && Field(w, b, VOTE_VALUE) == Some("approve")
  }

  /** Does row `id` count, and for whom. */
  predicate Counts(w: World, s: Store, about: string, id: string) {
    && id in s.instances && ApproveVote(w, s.instances[id], about)
    && Field(w, s.instances[id], CREATED_BY).Some? && !IsAnon(Field(w, s.instances[id], CREATED_BY).value)
  }

  /** `count(DISTINCT createdBy)` over approve votes, anonymous ones excluded. */
  function Approvers(w: World, s: Store, about: string): set<string> {
    set id | id in s.instances && Counts(w, s, about, id) :: Field(w, s.instances[id], CREATED_BY).value
  }

  // ---------------------------------------------------------------- update_typed

  datatype PatchResult = PatchRefused(code: Code) | Patched(body: Body)

  /** The IRI a patch key resolves to; None is an undeclared key. */
  function KeyIri(propmap: map<string, string>, ns: string, key: string): Option<string> {
    if ':' in key then
      if propmap != map[] && key !in propmap.Values then None else Some(key)
    else if propmap != map[] then
      if key in propmap then Some(propmap[key]) else None
    else Some(ns + key)
  }

  predicate Unpatchable(key: string) { key == "id" || key == "type" || key == "@id" }

  /** One turn of the patch loop. */
  function PatchOne(w: World, propmap: map<string, string>, ns: string, me: Option<string>, cur: Body, key: string, v: Json): PatchResult {
    if Unpatchable(key) then Patched(cur)
    else
      var iri := KeyIri(propmap, ns, key);
      if iri.None? then PatchRefused(UndeclaredKey)
      else if iri.value == OWNED_BY then PatchRefused(OwnershipNotPatchable)
      else if iri.value == PROJECT_KIND && Field(w, cur, OWNED_BY).Some? && me != Field(w, cur, OWNED_BY) then PatchRefused(NotOwner)
      else Patched(cur[iri.value := v])
  }

  function PatchAll(w: World, propmap: map<string, string>, ns: string, me: Option<string>, cur: Body, patch: seq<(string, Json)>): PatchResult
    decreases |patch|
  {
    if patch == [] then Patched(cur)
    else
      var r := PatchOne(w, propmap, ns, me, cur, patch[0].0, patch[0].1);
      if r.PatchRefused? then r else PatchAll(w, propmap, ns, me, r.body, patch[1..])
  }

  /** The type's namespace: everything up to its last `/` or `#`. */
  function Namespace(t: Option<string>): string {
    if t.None? then "" else t.value[..NamespaceLength(t.value)]
  }

  function NamespaceLength(t: string): (n: nat)
    ensures n <= |t|
    ensures n > 0 ==> t[n - 1] == '/' || t[n - 1] == '#'
  {
    if t == "" then 0
    else if t[|t| - 1] == '/' || t[|t| - 1] == '#' then |t|
    else NamespaceLength(t[..|t| - 1])
  }

  function FindAtId(w: World, s: Store, order: seq<string>, atId: string): (r: Option<string>)
    ensures r.Some? ==> r.value in s.instances && Field(w, s.instances[r.value], "@id") == Some(atId)
  {
    if order == [] then None
    else if order[0] in s.instances && Field(w, s.instances[order[0]], "@id") == Some(atId) then Some(order[0])
    else FindAtId(w, s, order[1..], atId)
  }

  /** Bare id, stamped @id, or urn:ckp:instance:<id>; anything else as it is. */
  function ResolveId(w: World, s: Store, ref: string): string {
    if ref in s.instances then ref
    else
      var hit := FindAtId(w, s, s.order, ref);
      if hit.Some? then hit.value
      else
        var bare := StripPrefix(ref, "urn:ckp:instance:");
        if bare.Some? && bare.value in s.instances then bare.value else ref
  }

  function PropMap(w: World, g: Gov, sess: Session, cur: Body): map<string, string> {
    w.propmap(w.composed(g.graphs, Project(sess)), Field(w, cur, "type"))
  }

  /** The patched body `update_typed` re-seals, or why it refuses. */
  function PatchedBody(w: World, sess: Session, g: Gov, cur: Body, patch: seq<(string, Json)>): PatchResult {
    PatchAll(w, PropMap(w, g, sess, cur), Namespace(Field(w, cur, "type")), OwnerIri(w, sess), cur - {"participant"}, patch)
  }

  function SealIn(w: World, sess: Session, g: Gov, id: string, body: Body, nonce: string): SealOutcome {
    Seal(w, sess, GraphOf(g, Project(sess)), g.store, id, body, nonce)
  }

  /** The row an update is going to seal, or why it is refused. */
  datatype Rewrite = NoRewrite(code: Code) | Rewrite(id: string, body: Body)

  function RewriteOf(w: World, sess: Session, g: Gov, ref: Option<string>, patch: Option<seq<(string, Json)>>): Rewrite {
    if Trimmed(ref).None? then NoRewrite(IdRequired)
    else if patch.None? then NoRewrite(InvalidPatch)
    else
      var id := ResolveId(w, g.store, ref.value);
      if id !in g.store.instances then NoRewrite(UnknownInstance)
      else
        var r := PatchedBody(w, sess, g, g.store.instances[id], patch.value);
        if r.PatchRefused? then NoRewrite(r.code) else Rewrite(id, r.body)
  }

  /** `ckp.update_typed`; its handler turns a raise into a refusal. */
  function UpdateTyped(w: World, sess: Session, g: Gov, ref: Option<string>, patch: Option<seq<(string, Json)>>, nonce: string): Outcome {
    match RewriteOf(w, sess, g, ref, patch)
    case NoRewrite(code) => Outcome(g, Refused(code))
    case Rewrite(id, body) =>
      var sealed := SealIn(w, sess, g, id, body, nonce);
      Outcome(g.(store := sealed.store), if sealed.Sealed? then Done(id) else Refused(SealRefused))
  }

  // --------------------------------------------------------------- propose, vote

  function ProposalId(tick: nat): string { "proposal-" + Print(tick) }

  function VoteId(tick: nat): string { "vote-" + Print(tick) }

  function ProposalBody(tick: nat, about: string, op: string, quorum: nat, detail: Json): Body {
    map["type" := Str(PROPOSAL_T), "@id" := Str("ckp://Proposal#" + ProposalId(tick)),
        ABOUT := Str(about), PROPOSAL_STATE := Str("pending"), PROPOSAL_OP := Str(op),
        REQUIRES_QUORUM := Str(Print(quorum)), "proposalDetail" := detail]
  }

  function VoteBody(tick: nat, about: string, value: string): Body {
    map["type" := Str(VOTE_T), "@id" := Str("ckp://Vote#" + VoteId(tick)),
        ABOUT := Str(about), VOTE_VALUE := Str(value)]
  }

  /** Seal a row as the whole effect of a call. */
  function SealCall(w: World, sess: Session, g: Gov, id: string, body: Body, nonce: string): Outcome {
    var r := SealIn(w, sess, g, id, body, nonce);
    if r.Raised? then Abort(g, r.store) else Outcome(g.(store := r.store), Done(id))
  }

  datatype Intent = Refuse(code: Code) | Raise | Write(body: Body)

  /** The field gates of `propose_change`, then the SHACL gate. */
  function ProposeIntent(w: World, kernelUrn: Option<string>, payload: Body, tick: nat): Intent {
    var op := Field(w, payload, "op");
    var about := OrElse(Field(w, payload, "about"), kernelUrn);
    var asked := Field(w, payload, "requires_quorum");
    var quorum := if asked.None? then Some(1) else w.cast(asked.value);
    if op.None? || op.value !in OPS then Refuse(UnknownOp)
    else if about.None? || !IriLike(about.value) then Refuse(InvalidAbout)
    else if quorum.None? || quorum.value < 1 then Refuse(InvalidQuorum)
    else
      var detail := if "detail" in payload then payload["detail"] else Obj(map[]);
      var body := ProposalBody(tick, about.value, op.value, quorum.value, detail);
      if w.coreOk(body - {"proposalDetail"}) then Write(body) else Refuse(ShapeViolation)
  }

  /** The gates of `vote`: field gates, a pending proposal, the SHACL gate. */
  function VoteIntent(w: World, s: Store, about: Option<string>, value: Option<string>, tick: nat): Intent {
    if value != Some("approve") && value != Some("reject") then Refuse(InvalidVote)
    else if about.None? || !IriLike(about.value) then Refuse(InvalidAbout)
    else
      var pid := FindFirst(w, s, s.order, about.value, PROPOSAL_T);
      if pid.None? then Refuse(UnknownProposal)
      else if NotPendingState(w, s.instances[pid.value]) then Refuse(NotPending)
      else
        var quorum := Field(w, s.instances[pid.value], REQUIRES_QUORUM);
        var body := VoteBody(tick, about.value, value.value);
        if quorum.Some? && w.cast(quorum.value).None? then Raise
        else if w.coreOk(body) then Write(body) else Refuse(ShapeViolation)
  }

  function CarryOut(w: World, sess: Session, g: Gov, id: string, i: Intent, nonce: string): Outcome {
    match i
    case Refuse(code) => Outcome(g, Refused(code))
    case Raise => Abort(g, g.store)
    case Write(body) => SealCall(w, sess, g, id, body, nonce)
  }

  function ProposeChange(w: World, sess: Session, g: Gov, kernelUrn: Option<string>, payload: Body, tick: nat, nonce: string): Outcome {
    CarryOut(w, sess, g, ProposalId(tick), ProposeIntent(w, kernelUrn, payload, tick), nonce)
  }

  function CastVote(w: World, sess: Session, g: Gov, about: Option<string>, value: Option<string>, tick: nat, nonce: string): Outcome {
    CarryOut(w, sess, g, VoteId(tick), VoteIntent(w, g.store, about, value, tick), nonce)
  }

  /** `state <> 'pending'` under SQL: an absent state does not refuse. */
  predicate NotPendingState(w: World, b: Body) {
    Field(w, b, PROPOSAL_STATE).Some? && Field(w, b, PROPOSAL_STATE) != Some("pending")
  }

  // ----------------------------------------------------------------------- apply

  datatype Gate = GateRefused(code: Code) | GateRaised | Admitted(pid: string, approvals: nat, quorum: int)

  /** Everything `ckp.apply` asks before it changes anything. */
  function ApplyGate(w: World, sess: Session, g: Gov, about: Option<string>): Gate {
    var s := g.store;
    if about.None? || !IriLike(about.value) then GateRefused(InvalidAbout)
    else if !MayEnact(w, sess, s, about) then GateRefused(NotOwner)
    else
      var pid := FindFirst(w, s, s.order, about.value, PROPOSAL_T);
      if pid.None? then GateRefused(UnknownProposal)
      else
        var prop := s.instances[pid.value];
        var asked := Field(w, prop, REQUIRES_QUORUM);
        var sealedQuorum := if asked.None? then Some(1) else w.cast(asked.value);
        if NotPendingState(w, prop) then GateRefused(NotPending)
        else if !MayEnact(w, sess, s, Field(w, prop, ABOUT)) then GateRefused(NotOwner)
        else if sealedQuorum.None? then GateRaised
        else
          var floor := QuorumFloor(w, s, Project(sess));
          var quorum := if sealedQuorum.value < floor then floor else sealedQuorum.value;
          var approvals := |Approvers(w, s, about.value)|;
          if approvals < quorum then GateRefused(QuorumNotMet) else Admitted(pid.value, approvals, quorum)
  }

  datatype Phase = Halt(out: Outcome) | Go(gov: Gov)

  /** 4a: fold the op's Turtle into the project's kernel graph. */
  function GraphPhase(w: World, project: string, g: Gov, prop: Body): Phase {
    match w.opToTtl(prop)
    case Untranslatable => Halt(Outcome(g, Refused(OpTranslateFailed)))
    case NoTtl => Go(g)
    case Ttl(ttl) =>
      match w.applyTtl(ttl, GraphOf(g, project))
      case ShapeRefused => Halt(Outcome(g, Refused(GraphApplyFailed)))
      case ShapeRaised => Halt(Abort(g, g.store))
      case GraphIs(graph) => Go(g.(graphs := g.graphs[project := graph]))
  }

  function Detail(prop: Body, key: string): Option<Json> {
    if "proposalDetail" in prop && prop["proposalDetail"].Obj? && key in prop["proposalDetail"].fields
    then Some(prop["proposalDetail"].fields[key]) else None
  }

  /** 4a-bis: a kernel policy is a governed patch of the sealed Kernel. */
  function PolicyPhase(w: World, sess: Session, g: Gov, prop: Body, nonce: string): Phase {
    if Field(w, prop, PROPOSAL_OP) != Some("set_kernel_policy") then Go(g)
    else
      var field := Nested(w, prop, "proposalDetail", "field");
      var value := Detail(prop, "value");
      if field.None? || value.None? then Halt(Outcome(g, Refused(InvalidPatch)))
      else
        var r := UpdateTyped(w, sess, g, Some(KernelRowIri(Project(sess))), Some([(CORE + field.value, value.value)]), nonce);
        if r.reply.Done? then Go(r.gov) else Halt(Outcome(r.gov, Refused(PolicyRefused)))
  }

  function KernelRowIri(project: string): string { "urn:ckp:" + project + "/kernel" }

  function EpochId(project: string, n: nat): string { "epoch-" + (project + "-" + Print(n)) }

  function MatId(project: string, n: nat): string { "mat-" + (project + "-" + Print(n)) }

  function EpochIri(project: string, n: nat): string { "urn:ckp:" + project + "/epoch/" + Print(n) }

  function MatIri(project: string, n: nat): string { "urn:ckp:" + project + "/materialization/" + Print(n) }

  function EpochBody(project: string, n: nat, surface: string, structural: string): Body {
    map["type" := Str(EPOCH_T), "@id" := Str(EpochIri(project, n)), EPOCH := Num(n),
        SURFACE_DIGEST := Str(surface), STRUCTURAL_DIGEST := Str(structural)]
  }

  function MatBody(project: string, from: nat, n: nat, source: string, surface: string): Body {
    map["type" := Str(MAT_T), "@id" := Str(MatIri(project, n)), MATERIALIZES := Str(KernelIri(project)),
        FROM_EPOCH := Num(from), TO_EPOCH := Num(n), SOURCE_DIGEST := Str(source),
        SURFACE_DIGEST := Str(surface), PRODUCES_EPOCH := Str(EpochIri(project, n))]
  }

  /** The epoch as every reader renders it: an absent row is 0. */
  function LiveEpoch(g: Gov, project: string): nat {
    if project in g.cache.epochs then g.cache.epochs[project].epoch else 0
  }

  function Surface(w: World, g: Gov, project: string): string {
    w.surfaceDigest(w.composed(g.graphs, project))
  }

  function Source(w: World, g: Gov, project: string): string {
    w.surfaceDigest(GraphOf(g, project))
  }

  function Pin(g: Gov, project: string, digest: string): Gov
    requires project in g.cache.epochs
  {
    g.(cache := g.cache.(epochs := g.cache.epochs[project := g.cache.epochs[project].(digest := Some(digest))]))
  }

  datatype Cascade = CascadeRaised(store: Store) | Advanced(gov: Gov, epoch: nat)

  /** 4b: bump the epoch, seal its Epoch, pin its digest, seal the Materialization. */
  function CascadePhase(w: World, sess: Session, g: Gov, nonce: string): Cascade {
    var project := Project(sess);
    var from := LiveEpoch(g, project);
    var g1 := g.(cache := Bump(g.cache, project));
    var epoch := EpochOf(g1.cache, project);
    var surface, source := Surface(w, g1, project), Source(w, g1, project);
    var structural := w.structuralDigest(w.composed(g1.graphs, project));
    var e := SealIn(w, sess, g1, EpochId(project, epoch), EpochBody(project, epoch, surface, structural), nonce);
    if e.Raised? then CascadeRaised(e.store)
    else
      var g2 := Pin(g1.(store := e.store), project, surface);
      var m := SealIn(w, sess, g2, MatId(project, epoch), MatBody(project, from, epoch, source, surface), nonce);
      if m.Raised? then CascadeRaised(m.store) else Advanced(g2.(store := m.store), epoch)
  }

  function AffordanceId(project: string, verb: string): string {
    "aff-" + project + "-" + Dashed(verb)
  }

  /** `replace(verb, '.', '-')`. */
  function Dashed(verb: string): string {
    seq(|verb|, i requires 0 <= i < |verb| => if verb[i] == '.' then '-' else verb[i])
  }

  function AffordanceBody(project: string, verb: string, epoch: nat): Body {
    map["type" := Str(AFFORDANCE_T), "@id" := Str("ckp://Affordance#" + project + "." + verb),
        "ckp:core#inTopic" := Str("input.kernel." + project + ".action." + verb),
        "ckp:core#outTopic" := Str("result.kernel." + project + "." + verb),
        "ckp:core#plane" := Str("derived"), "ckp:core#derivedBy" := Str(MatIri(project, epoch))]
  }

  /** 4c: compile and declare a query affordance; a raise inside is caught and
      turned into a refusal, the cascade standing. */
  function AffordancePhase(w: World, sess: Session, g: Gov, prop: Body, epoch: nat, nonce: string): Phase {
    var project := Project(sess);
    if Field(w, prop, PROPOSAL_OP) != Some("add_affordance") || Detail(prop, "query").None? then Go(g)
    else match w.affordance(prop)
      case None => Halt(Outcome(g, Refused(AffordanceFailed)))
      case Some((verb, plan)) =>
        var g1 := g.(cache := g.cache.(plans := g.cache.plans[PlanKey(project, verb, epoch) := plan]),
                     routes := g.routes[(project, verb) := epoch]);
        var r := SealIn(w, sess, g1, AffordanceId(project, verb), AffordanceBody(project, verb, epoch), nonce);
        if r.Sealed? then Go(g1.(store := r.store))
        else Halt(Outcome(g.(store := r.store), Refused(AffordanceFailed)))
  }

  /** 4d: register or retire a proof obligation, with the same handler. */
  function ObligationPhase(w: World, sess: Session, g: Gov, prop: Body, epoch: nat): Phase {
    if Field(w, prop, PROPOSAL_OP) != Some("add_proof_obligation") then Go(g)
    else match w.obligation(prop, epoch)
      case None => Halt(Outcome(g, Refused(ObligationFailed)))
      case Some((name, row)) =>
        var key := (Project(sess), name);
        if row.active then Go(g.(obligations := g.obligations[key := row]))
        else if key in g.obligations then Go(g.(obligations := g.obligations[key := g.obligations[key].(active := false)]))
        else Halt(Outcome(g, Refused(ObligationFailed)))
  }

  function AppliedBody(prop: Body, epoch: nat): Body {
    prop[PROPOSAL_STATE := Str("applied")][APPLIED_EPOCH := Str(Print(epoch))]
  }

  /** What follows the cascade: registrations, then the proposal itself. */
  function Finish(w: World, sess: Session, before: Gov, g: Gov, gate: Gate, prop: Body, epoch: nat, nonce: string): Outcome
    requires gate.Admitted?
  {
    var a := AffordancePhase(w, sess, g, prop, epoch, nonce);
    if a.Halt? then a.out
    else
      var o := ObligationPhase(w, sess, a.gov, prop, epoch);
      if o.Halt? then o.out
      else
        var r := SealIn(w, sess, o.gov, gate.pid, AppliedBody(prop, epoch), nonce);
        if r.Raised? then Abort(before, r.store)
        else Outcome(o.gov.(store := r.store), Enacted(gate.pid, epoch, gate.approvals, gate.quorum))
  }

  /** Everything after the gate. */
  function Enact(w: World, sess: Session, g: Gov, gate: Gate, nonce: string): Outcome
    requires gate.Admitted? && gate.pid in g.store.instances
  {
    var prop := g.store.instances[gate.pid];
    var a := GraphPhase(w, Project(sess), g, prop);
    if a.Halt? then a.out
    else
      var p := PolicyPhase(w, sess, a.gov, prop, nonce);
      if p.Halt? then p.out
      else
        var c := CascadePhase(w, sess, p.gov, nonce);
        if c.CascadeRaised? then Abort(g, c.store)
        else Finish(w, sess, g, c.gov, gate, prop, c.epoch, nonce)
  }

  /** `ckp.apply`. */
  function Apply(w: World, sess: Session, g: Gov, about: Option<string>, nonce: string): Outcome {
    var gate := ApplyGate(w, sess, g, about);
    match gate
    case GateRefused(code) => Outcome(g, Refused(code))
    case GateRaised => Abort(g, g.store)
    case Admitted(pid, _, _) => Enact(w, sess, g, gate, nonce)
  }
}
