/** JSON bodies, the core vocabulary, the session settings the SQL functions
    read, and the world they call into (digests, SHACL verdicts, the RDF engine). */
module Facts {
  import opened Text
  import opened Utf8
  import Normalise

  datatype Json =
    | Null
    | Bool(b: bool)
    | Num(n: int)
    | Str(s: string)
    | Obj(fields: map<string, Json>)
    | Arr(items: seq<Json>)

  type Body = map<string, Json>

  type Graph = set<(string, string, string)>

  // The core vocabulary, one namespace for every ontology version.
  const CORE := "ckp:core#"
  const OWNED_BY := "ckp:core#ownedBy"
  const PROJECT_KIND := "ckp:core#projectKind"
  const PARTICIPANT := "ckp:core#participant"
  const CREATED_BY := "ckp:core#createdBy"
  const PRODUCED_BY := "ckp:core#producedBy"
  const ABOUT := "ckp:core#about"
  const PROPOSAL_STATE := "ckp:core#proposalState"
  const PROPOSAL_OP := "ckp:core#proposalOp"
  const REQUIRES_QUORUM := "ckp:core#requiresQuorum"
  const APPLIED_EPOCH := "ckp:core#appliedEpoch"
  const VOTE_VALUE := "ckp:core#voteValue"
  const EPOCH := "ckp:core#epoch"
  const SURFACE_DIGEST := "ckp:core#surfaceDigest"
  const STRUCTURAL_DIGEST := "ckp:core#structuralDigest"
  const SOURCE_DIGEST := "ckp:core#sourceDigest"
  const MATERIALIZES := "ckp:core#materializes"
  const FROM_EPOCH := "ckp:core#fromEpoch"
  const TO_EPOCH := "ckp:core#toEpoch"
  const PRODUCES_EPOCH := "ckp:core#producesEpoch"

  const PARTICIPANT_IRI := "urn:ckp:participant:"
  const ANON_IRI := "urn:ckp:participant:anon:"

  /** What the op-to-Turtle translation of a proposal gives. */
  datatype OpTtl = Untranslatable | NoTtl | Ttl(ttl: string)

  /** What folding Turtle into a kernel graph gives. */
  datatype ShapeApply = GraphIs(graph: Graph) | ShapeRefused | ShapeRaised

  /** A compiled plan: statement text and the payload keys bound to it. */
  datatype Plan = Plan(statement: string, params: seq<string>)

  datatype Obligation = Obligation(target: string, check: string, epoch: nat, active: bool)

  /** Everything the SQL calls that is not part of the model. */
  datatype World = World(
    render: Json -> string,                              // jsonb::text of a compound value
    bytes: Body -> seq<byte>,                            // convert_to(body::text, 'UTF8')
    digest: seq<byte> -> string,                         // encode(digest(_, 'sha256'), 'hex')
    hmac: (string, string) -> string,                    // encode(hmac(text, key, 'sha256'), 'hex')
    lower: char -> char,
    cast: string -> Option<int>,                         // text::int, None when it raises
    coreOk: Body -> bool,                                // SHACL verdict against the core shapes
    required: (Graph, string) -> set<string>,            // properties with sh:minCount >= 1 for a type
    propmap: (Graph, Option<string>) -> map<string, string>,
    opToTtl: Body -> OpTtl,
    applyTtl: (string, Graph) -> ShapeApply,
    composed: (map<string, Graph>, string) -> Graph,
    surfaceDigest: Graph -> string,
    structuralDigest: Graph -> string,
    affordance: Body -> Option<(string, Plan)>,          // the validated verb and plan of add_affordance
    obligation: (Body, nat) -> Option<(string, Obligation)>)

  /** The text of a scalar, or the engine's rendering of a compound value. */
  function Scalar(w: World, j: Json): string {
    match j
    case Str(s) => s
    case Bool(b) => if b then "true" else "false"
    case Num(n) => if n < 0 then "-" + Print(-n) else Print(n)
    case _ => w.render(j)
  }

  /** `body ->> key`. */
  function Field(w: World, b: Body, key: string): Option<string> {
    if key !in b || b[key].Null? then None else Some(Scalar(w, b[key]))
  }

  /** `body -> outer ->> key`. */
  function Nested(w: World, b: Body, outer: string, key: string): Option<string> {
    if outer in b && b[outer].Obj? then Field(w, b[outer].fields, key) else None
  }

  /** The digest of the bytes that are published for a body. */
  function Sha(w: World, b: Body): string {
    w.digest(w.bytes(b))
  }

  // ------------------------------------------------------------------ settings

  datatype Session = Session(
    project: Option<string>,      // ckp.project
    key: Option<string>,          // ckp.identity_key
    configKey: Option<string>,    // ckp.config, k = 'identity_key'
    requester: Option<string>)    // ckp.requester

  function OrElse(a: Option<string>, b: Option<string>): Option<string> {
    if a.Some? then a else b
  }

  /** `NULLIF(x, '')`. */
  function NonEmpty(a: Option<string>): Option<string> {
    if a == Some("") then None else a
  }

  /** `NULLIF(trim(COALESCE(x, '')), '')`. */
  function Trimmed(a: Option<string>): Option<string> {
    if a.None? then None else NonEmpty(Some(Trim(a.value, Normalise.IsSpace)))
  }

  function Project(sess: Session): string {
    var p := NonEmpty(sess.project);
    if p.Some? then p.value else "demo"
  }

  /** The signing key in force; an empty key counts as none. */
  function IdentityKey(sess: Session): Option<string> {
    NonEmpty(OrElse(NonEmpty(sess.key), sess.configKey))
  }

  function KernelIri(project: string): string {
    "urn:ckp:" + project + "/kernel/ck"
  }

  function NamedParticipant(w: World, name: string): string {
    PARTICIPANT_IRI + Normalise.UrnNormalise(name, w.lower)
  }

  /** What the owner gates compare with the declared owner. */
  function OwnerIri(w: World, sess: Session): Option<string> {
    var me := Trimmed(sess.requester);
    if me.None? then None else Some(PARTICIPANT_IRI + Normalise.Slug(me.value, w.lower))
  }

  predicate IsAnon(participant: string) {
    ANON_IRI <= participant
  }
}
