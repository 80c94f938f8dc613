# pgCK: a model of the governed store, the subject door and the embedded NATS server

pgCK keeps governed instances in PostgreSQL. `ckp.seal` writes an instance, a
hash-chained ledger row and a proof row, and a trigger adds the outbox row that
announces it; `ckp.verify` re-checks the chain independently. On top of that runs a
propose, vote, apply state machine with a distinct-party quorum, an owner gate and a
sealed epoch history. Outside, a NATS door maps identities to subjects and subjects to
dispatches, a worker drains the outbox and the inbound queue, and an embedded NATS Core
server frames and fans out messages.

This project models those parts and proves what they promise, over every input and
every run. `dafny verify dfyconfig.toml` checks all of it.

| part | modules |
|---|---|
| text, UTF-8, normalisers, key order | `Text`, `Utf8`, `Normalise`, `Order` |
| facts of a body and the outside world | `Facts` |
| ledger, runs, tampering | `Ledger`, `Sealing`, `Announced`, `LedgerRuns`, `Tamper` |
| plan cache | `Plans` |
| governance plane | `Governance`, `GovernanceFrames`, `GovernanceRuns`, `GovernanceSafety` |
| its calls in terms of the rows | `OwnerGate`, `Recorded`, `Patching`, `Enacted` |
| its consequences | `Atomicity`, `Refusals`, `Retry`, `RefusedRun`, `Ownership`, `EpochChain`, `SurfaceCheck`, `Reachable`, `GovernedPlans` |
| the same calls as procedures on tables | `Database` |
| subject door | `Matcher`, `Door`, `Grants`, `Roster`, `Registry` |
| inbound bridge | `Inbound` |
| embedded NATS server | `Wire`, `Fanout` |
| typed query | `SqlText`, `Query` |

How the model is laid out:

- Code that updates tables, queues, maps or buffers in place is a class or a method
  with loops (`Database.Database`, `Plans.PlanTables`, `Fanout.Router`,
  `Fanout.Connection`, `Inbound.Worker`, `Roster.CalloutPolicy`,
  `Registry.AffordanceRegistry`, `Wire.Reader`, `Query.Compile`). Each is proved to end
  in the state a specification function names; the theorems are about those functions.
- `Facts.World` holds what is not modelled as uninterpreted functions: the jsonb text,
  the digest, the HMAC, SHACL conformance of the core rows, the required properties of
  a type (the `sh:minCount >= 1` fragment of section 4.2.1 of W3C SHACL), the op
  translation, the composed surface and its digest. Nothing is assumed of them except
  where a lemma says so: `CollisionFree` in the tamper lemmas, `WorldOk` (declared
  property paths are IRIs; lower-casing fixes `[a-z0-9-]`), and `CastOk` (int4 reads
  back what was printed) in the surface check.
- The v3.7, v3.8 and v3.11 IRIs are one vocabulary, written `ckp:core#`.

Which definitions are followed: seal, verify and the trigger as in
`sql/pgck--0.2.2.sql`, with the requester arm and the `createdBy` and `producedBy`
stamps of `sql/pgck-baseline.sql:7751-7756`, `7793-7800` and `2903-2908`; propose and
vote as in 0.3.4 (the op list also has `set_kernel_policy` and `add_proof_obligation`,
`sql/pgck-baseline.sql:6624`); the quorum floor at `sql/pgck-baseline.sql:6583-6597`;
`resolve_id` at `3146-3168`; the registration functions at `7102-7237`; plans 0.3.3;
query 0.3.5; apply and `update_typed` 0.4.102; `surface_check` 0.4.103.

Where the code and its own words differ, the code is followed:

- A refused `ckp.apply` leaves nothing behind, except for the two registration refusals:
  they return after the cascade and keep it. `Refusals.ApplyExactly` says exactly when,
  from what is known before the call; `Retry.RefusalRepeats` that the same proposal is
  then admitted again; `RefusedRun.RefusedYetMoved` gives a run from the empty database
  whose refused apply leaves the live epoch at 2, and a second one at 3.
- An enacted affordance may name a verb of the read catalogue. It then answers in the
  catalogue's place, until the next cascade or the next compilation for a verb without
  a plan (`GovernedPlans.GovernedExec`).
- The inbound worker promises a structured reply on error. The payload is cast to jsonb
  outside the wrapper that catches errors, so a payload that is not JSON ends the worker
  with the rest of its batch unanswered (`Inbound.EmptyPayloadNeverAnswered`). Where no
  SPI error ends a transaction before that cast, an accepted action can be answered
  exactly when it and every arrival before it are JSON (`Inbound.AnsweredOnlyIfJson`,
  `Inbound.JsonIsAnswered`).
- `contains` is a LIKE: it means "substring" exactly for values free of `%`, `_` and
  backslash (`Query.ContainsExactly`). The numeric guard admits texts such as `1.2.3`
  that no cast accepts: such a filter raises (`Query.GuardAdmitsNonNumeral`). A filter
  without an operator is not refused, because `NOT (NULL)` is not true, and its text is
  a syntax error (`SqlText.CondReads`).
- A proposal without `proposalState` would not be refused by the pending test, because
  a comparison with NULL is not true; sealed proposals always carry one.
- Two Rust tests are out of date with the code they test (src/nats_client.rs:601-604,
  src/auth_callout.rs:414-417).

## Model

| member | source | states |
|---|---|---|
| `Normalise.SlugShape` | sql/dispatch.sql:20-22 | `_slug` always yields alphanumeric runs joined by single hyphens |
| `Normalise.SlugFixedPoints` | sql/dispatch.sql:20-22 | its fixed points are exactly such names |
| `Normalise.SlugIdempotent` | sql/dispatch.sql:20-22 | `_slug` is idempotent |
| `Normalise.UrnIdempotent` | sql/pgck--0.2.2.sql:336-339 | `urn_normalise` is idempotent |
| `Normalise.UrnFixedPoints` | sql/pgck--0.2.2.sql:336-339 | its fixed points are exactly the texts over [a-z0-9-] |
| `Normalise.SlugIsRuns` | sql/dispatch.sql:20-22 | the trimmed, collapsed slug is what a one-pass reader of alphanumeric runs gives, and `x` where there is none |
| `Normalise.SlugOfUrn` | sql/pgck--0.4.101--0.4.102.sql:311-313 | slug(urn_normalise(x)) = slug(x): owner gates and seal agree up to slug |
| `Utf8.RoundTrip` | src/nats/server.rs:132-137 | every string decodes from its UTF-8 bytes |
| `Utf8.DecodeSound` | src/nats/server.rs:132-137 | only encodings decode: no overlong form, no surrogate, no stray byte |
| `Ledger.SealSound` | sql/pgck--0.2.2.sql:575-690 | one seal, committed or raised at any gate, keeps ledger chain, proofs, digests and counters sound |
| `Ledger.SoundVerifies` | sql/pgck--0.2.2.sql:197-256 | on a sound store the independent re-check is true of every instance |
| `Sealing.SealsExactly` | sql/pgck--0.2.2.sql:575-690 | a seal succeeds if and only if there is a type and a key, the stamped body has every required property, and both ops conform |
| `Sealing.SealStores` | sql/pgck-baseline.sql:7751-7800 | the stored row: participant and createdBy from the requester, else the claim, else anonymous; producedBy the session's kernel; display claims of identified callers; no raw claims; every other key as given |
| `Sealing.SealSigns` | sql/pgck--0.2.2.sql:651-690 | the ledger row carries the digest of the stored bytes, its HMAC under the session's key or else the configured one, and the newest row before it; the proof row mirrors it |
| `Sealing.JudgedOps` | sql/pgck--0.2.2.sql:658-682 | the two ops judged are the protocol's own ledger entry and proof, about this id, with this digest and signature |
| `Sealing.RaiseLeavesTables` | sql/pgck--0.2.2.sql:600-682 | a seal that raises leaves every table as it was |
| `Sealing.KeyExactly` | sql/pgck--0.2.2.sql:580-583 | which key signs |
| `Sealing.VerifyNeeds` | sql/pgck--0.2.2.sql:197-256 | verification is false without a key, the row, a ledger row or a proof row |
| `Announced.AnnouncedOn` | sql/pgck--0.2.2.sql:953-1008 | the queued row carries the stored bytes on `event.kernel.pgCK.<class>.sealed`, the class being what follows the type's last slash or hash, or the whole type, or `Instance` where that is empty |
| `Announced.AnnouncedWith` | sql/pgck--0.2.2.sql:990-1003 | its headers are the ledger number, the content type, the sender where the body names one, and no other |
| `Announced.HeardBy` | src/auth_callout.rs:84-106 | the announcement of whatever is sealed reaches exactly the connections minted for the kernel `pgCK` |
| `Ledger.WrittenShape` | sql/pgck--0.2.2.sql:651-690 | a successful seal adds exactly one ledger, proof and outbox row, the outbox payload being the stored body's bytes |
| `LedgerRuns.TxnKeeps` | sql/pgck--0.2.2.sql:575-690 | a transaction of any number of seals, committed or rolled back, keeps chain and conservation |
| `LedgerRuns.RunKeeps` | sql/pgck--0.2.2.sql:977-1008 | over every run of transactions and drains: each ledger row has exactly one outbox row, pending or drained, whose payload hashes to its sha; replaying payloads in ledger order rebuilds the instances |
| `LedgerRuns.EveryInstanceVerifies` | sql/pgck--0.2.2.sql:197-256 | from the empty database, after any run under one key, prev_seq is always the immediate predecessor and every instance verifies |
| `LedgerRuns.BatchesInOrder` | src/publish_drain.rs:27-107 | no row of an earlier batch has a larger outbox or ledger seq than a row of a later batch |
| `LedgerRuns.DrainTakesLowest` | src/publish_drain.rs:42-80 | a drain takes the lowest pending sequence numbers |
| `LedgerRuns.DrainsEmpty` | src/publish_drain.rs:27-80 | n pending rows are gone after exactly ceil(n/100) drains |
| `Tamper.BodyEdit` | sql/pgck--0.2.2.sql:219-255 | an edited body verifies iff its digest is unchanged (never, with a collision-free digest); no other verdict moves |
| `Tamper.LedgerEdit` | sql/pgck--0.2.2.sql:219-255 | changing sha, sig or prev_seq of an instance's latest ledger row fails it, and only it |
| `Tamper.ProofEdit` | sql/pgck--0.2.2.sql:219-255 | the same for method and digest of the latest proof row |
| `Tamper.RowDeleted` | sql/pgck--0.2.2.sql:219-255 | exactly which verdicts fail when a ledger row is deleted |
| `Plans.PlanTables.CompilePlans` | sql/pgck--0.3.2--0.3.3.sql:55-83 | the upsert loop compiles the whole catalogue at the kernel's epoch |
| `Plans.PlanTables.BumpEpoch` | sql/pgck--0.3.2--0.3.3.sql:146-159 | in-place increment and recompilation |
| `Plans.PlanTables.PlanExec` | sql/pgck--0.3.2--0.3.3.sql:88-128 | recompile-then-retry, and the reply it gives |
| `Plans.ExecRefinesCatalogue` | sql/pgck--0.3.2--0.3.3.sql:88-128 | after any run of compile, bump and exec on any kernels, a catalogued verb answers what its catalogue statement evaluates to, tagged with the current epoch, never no_plan |
| `Plans.ExecBinds` | sql/pgck--0.3.2--0.3.3.sql:113-127 | and runs it on the payload's values for the plan's parameters, in order, NULL where absent or null |
| `Plans.CatalogueAnswers` | sql/pgck--0.3.2--0.3.3.sql:60-128 | the two verbs spelled out: statement and bound values |
| `GovernedPlans.GovernedExec` | sql/pgck-baseline.sql:7126-7131 | after any governed run from the empty database, a catalogued verb runs exactly the plan registered for it since the kernel last compiled, and where there is none its catalogue statement |
| `GovernedPlans.GovernedBinds` | sql/pgck--0.3.2--0.3.3.sql:113-127 | that plan runs on the payload's values for its parameters, or is refused when it has more than two |
| `Plans.KernelsIsolated` | sql/pgck--0.3.2--0.3.3.sql:55-159 | a step on one kernel changes no other kernel's plans or epoch |
| `Plans.BumpRecompiles` | sql/pgck--0.3.2--0.3.3.sql:146-159 | a bump lands on a later epoch with every catalogue plan present |
| `GovernanceSafety.ApproversAfter` | sql/pgck--0.3.3--0.3.4.sql:127-163 | each act changes a proposal's approvers by exactly its own named approval: repeated or anonymous votes never raise the count |
| `GovernanceSafety.ApproversVoted` | sql/pgck--0.4.101--0.4.102.sql:332-341 | over any run the approvers are exactly those there were and those whose accepted, sealed, named votes the run added |
| `GovernanceSafety.NamedNotAnon` | sql/pgck--0.4.101--0.4.102.sql:332-341 | a verified name, however spelled, never reads as an anonymous participant |
| `GovernanceSafety.StepIntoApplied` | sql/pgck--0.4.101--0.4.102.sql:277-344 | the only step into applied is an apply from pending, with the quorum met and by the declared owner |
| `GovernanceSafety.AppliedForever` | sql/pgck--0.4.101--0.4.102.sql:282-284 | an applied proposal's row never changes again, in any run |
| `GovernanceSafety.AppliedWasGoverned` | sql/pgck--0.4.101--0.4.102.sql:277-344 | in every run, a proposal that ends applied was enacted once, from pending, with max(requiresQuorum, floor) distinct named approvers whose votes were accepted, by its target's owner where one is declared |
| `GovernanceSafety.EnactedOnce` | sql/pgck--0.4.101--0.4.102.sql:498-499 | two applies of one proposal never both succeed |
| `OwnerGate.GateExactly` | sql/pgck--0.4.101--0.4.102.sql:224-344 | the gate admits a proposal if and only if the rows say so: its row pending, distinct named approvals for the sealed quorum and for the floor, and no other party owning what the call or the proposal names |
| `OwnerGate.OwnerEnacts` | sql/pgck--0.4.101--0.4.102.sql:301-321 | whoever enacts a proposal about `urn:ckp:<p>/...`, where the latest Project row of p declares an owner, is that owner |
| `OwnerGate.NotOwnerExactly` | sql/pgck--0.4.101--0.4.102.sql:246-321 | `not_owner` is answered if and only if another party owns the project the call names, or the pending proposal it found names |
| `OwnerGate.FloorExactly` | sql/pgck-baseline.sql:6583-6597 | the floor is two exactly when the latest Project row of the session's project says shared |
| `OwnerGate.NothingToEnact` | sql/pgck--0.4.101--0.4.102.sql:277-281 | an IRI no proposal carries is never admitted |
| `Reachable.EveryReachableState` | sql/pgck--0.4.101--0.4.102.sql:203-519 | from the empty database, every governed run leaves a store whose instances all verify and whose epoch history is one chain per project |
| `Reachable.AppliedNeedsVoters` | sql/pgck--0.4.101--0.4.102.sql:325-344 | from the empty database, an applied proposal had at least its bar of distinct verified parties whose approving votes were accepted in that very run |
| `Atomicity.ActSound` | sql/pgck--0.4.101--0.4.102.sql:203-519 | every governed call, however it ends, keeps the proof chain sound |
| `Atomicity.GovernedRunVerifies` | sql/pgck--0.2.2.sql:197-256 | after any governed run under one key every stored instance verifies |
| `Refusals.FinishRefusedExactly` | sql/pgck--0.4.101--0.4.102.sql:474-496 | after the cascade the call is refused if and only if the registration fails: an affordance that does not validate or does not seal, an obligation that does not validate or retires one that is not there |
| `Refusals.ApplyExactly` | sql/pgck--0.4.101--0.4.102.sql:224-499 | an apply that does not succeed changes graphs, epoch, plans, proposal or ledger contents if and only if, told before the call, its registration fails after a cascade that goes through, which leaves exactly that cascade, or it is a refused policy whose op changed the kernel graph |
| `Refusals.OtherOpsAtomic` | sql/pgck--0.4.101--0.4.102.sql:345-408 | every op that registers nothing is enacted or moves nothing, whatever the reply |
| `Refusals.CascadeFailsExactly` | sql/pgck--0.4.101--0.4.102.sql:419-470 | when the cascade raises, in terms of the two seals it makes |
| `Retry.RefusalRepeats` | sql/pgck--0.4.101--0.4.102.sql:474-496 | after such a refusal the live epoch has advanced and the gate gives the very answer it gave before: the same proposal is admitted again |
| `Retry.GateSame` | sql/pgck--0.4.101--0.4.102.sql:277-344 | the gate answers the same on any two stores that agree on proposals, votes and projects |
| `RefusedRun.RefusedYetMoved` | sql/pgck--0.4.101--0.4.102.sql:474-481 | a concrete world and run from the empty database: propose, vote, apply is refused with the epoch at 2, applying again is refused with the epoch at 3 |
| `Ownership.OnePatch` | sql/pgck--0.4.101--0.4.102.sql:89-192 | one patch in any spelling keeps ownedBy, moves projectKind of an owned row only under its owner, and a refusal anywhere in the loop changes nothing |
| `Ownership.OwnerNeverMoves` | sql/pgck--0.4.101--0.4.102.sql:89-192 | the same over every run of patches |
| `Ownership.PatchVerifies` | sql/pgck--0.4.101--0.4.102.sql:189-192 | every accepted patch still verifies |
| `Patching.PatchWritten` | sql/pgck--0.4.101--0.4.102.sql:108-190 | after an accepted update, the IRI an entry stands for holds the value of the last entry standing for it, and an IRI no entry stands for what it held |
| `Patching.UpdateTouchesOne` | sql/pgck--0.4.101--0.4.102.sql:84-190 | the row patched is the one the reference means, by id, @id or instance URN, and no other row changes |
| `Patching.ResolveExactly` | sql/pgck-baseline.sql:3146-3168 | which row a reference means |
| `Patching.UpdateRefusals` | sql/pgck--0.4.101--0.4.102.sql:76-88 | the refusals before the loop, exactly |
| `Patching.UpdateObjects` | sql/pgck--0.4.101--0.4.102.sql:108-187 | the loop refuses exactly for its first objectionable entry: undeclared in either spelling, the owner, or the kind under another hand |
| `EpochChain.RunChain` | sql/pgck--0.4.101--0.4.102.sql:419-470 | over every run, sealed Epochs and Materializations form one chain per project, ending at the live epoch row |
| `EpochChain.ChainLinks` | sql/pgck--0.4.101--0.4.102.sql:461-470 | each toEpoch is the next fromEpoch |
| `EpochChain.ChainUnbroken` | sql/pgck--0.4.101--0.4.102.sql:419-470 | from any sealed epoch to the live one no epoch is missing |
| `EpochChain.LiveDigestIsSealed` | sql/pgck--0.4.101--0.4.102.sql:448-470 | the live row carries the digest its Epoch and Materialization sealed |
| `EpochChain.ApplyAdvances` | sql/pgck--0.3.2--0.3.3.sql:146-159 | one committed cascade advances the epoch by one; from an absent row it records 0 to 2 |
| `EpochChain.EnactedMovesAll` | sql/pgck--0.4.101--0.4.102.sql:345-499 | a successful apply moves together, at the replied epoch: the kernel graph, the live epoch and its digest, the Epoch and Materialization rows with that digest, the compiled plans, and the proposal with its appliedEpoch |
| `Enacted.EnactedGraph` | sql/pgck--0.4.101--0.4.102.sql:345-360 | the kernel graph after an enacted op is the old one folded with the op's Turtle, and unchanged without any |
| `Enacted.EnactedPolicy` | sql/pgck--0.4.101--0.4.102.sql:381-408 | an enacted policy's field and value are on the kernel's own row |
| `Enacted.EnactedRecordsSay` | sql/pgck--0.4.101--0.4.102.sql:437-470 | the Epoch and Materialization rows field by field, under their ids |
| `Enacted.EnactedRegistration` | sql/pgck--0.4.101--0.4.102.sql:474-496 | the route and plan of an enacted affordance, the row of an enacted obligation or its retirement, and no registry change else |
| `Enacted.EnactedDeclares` | sql/pgck-baseline.sql:7144-7161 | the affordance row: its id, IRI, topics, plane and provenance |
| `Enacted.DeclaredIsRouted` | src/nats_client.rs:240-269 | a message on a declared input topic is routed to that kernel and verb and answered on the declared output topic |
| `Enacted.EnactedProposal` | sql/pgck--0.4.101--0.4.102.sql:498-499 | the proposal row says applied and the epoch, and otherwise what it said |
| `SurfaceCheck.Check` | sql/pgck--0.4.102--0.4.103.sql:150-348 | both the core-only answer and, for a named kernel, state, epoch, pinned and actual digests, module list, findings in order and health |
| `SurfaceCheck.HealthyExactly` | sql/pgck--0.4.102--0.4.103.sql:226-346 | with a sealed live epoch a kernel is called healthy if and only if no adopted module is empty, a sealed kernel's graph is not, there are shapes, and both digests are the sealed ones |
| `SurfaceCheck.ReportExactly` | sql/pgck--0.4.102--0.4.103.sql:200-346 | the report field by field: epoch and its IRI, the sealed digests, the ones in force and whether they agree, state, modules |
| `SurfaceCheck.CoreReportExactly` | sql/pgck--0.4.102--0.4.103.sql:177-197 | with no kernel named the surface is the core at epoch 0, and healthy |
| `SurfaceCheck.FindingsExactly` | sql/pgck--0.4.102--0.4.103.sql:229-270 | the empty modules by name, a wiped graph, a bare surface, each exactly |
| `SurfaceCheck.DriftExactly` | sql/pgck--0.4.102--0.4.103.sql:288-300 | in any reachable state with a sealed live epoch, surface and source drift are reported exactly when the digests differ from the sealed ones |
| `SurfaceCheck.NoDriftAfterApply` | sql/pgck--0.4.102--0.4.103.sql:203-221 | right after a committed cascade no drift is reported |
| `Database.Database.SealInstance` | sql/pgck--0.2.2.sql:575-690 | the procedure on the tables, its trigger and its undo, ends as the specification says |
| `Database.Database.DrainBatch` | src/publish_drain.rs:42-80 | deletes and returns the lowest hundred outbox rows |
| `Database.Database.PatchLoop` | sql/pgck--0.4.101--0.4.102.sql:105-187 | the patch loop rewrites the working body or stops at the first refusal |
| `Database.Database.Update` | sql/pgck--0.4.101--0.4.102.sql:58-200 | `update_typed` on the tables |
| `Database.Database.Propose` | sql/pgck--0.3.3--0.3.4.sql:17-83 | the gates in source order, statement by statement, end as the specification says: first objection, or one sealed pending proposal |
| `Recorded.ProposalRecords` | sql/pgck--0.3.3--0.3.4.sql:36-79 | on success the new row carries the payload's target or the kernel's, its op, its quorum or 1, its detail, state pending and its own IRI |
| `Recorded.ProposeRefusals` | sql/pgck--0.3.3--0.3.4.sql:36-54 | which refusal is given, exactly, in the order of the gates |
| `Recorded.MintedIsAddressable` | sql/pgck--0.3.3--0.3.4.sql:41-43 | every minted proposal IRI passes the IRI gate of vote and apply |
| `Recorded.AcceptedIsSafe` | sql/pgck--0.3.3--0.3.4.sql:56-66 | no accepted IRI can leave the brackets of the Turtle built from it |
| `GovernanceSafety.ProposeRows` | sql/pgck--0.3.3--0.3.4.sql:61-75 | a proposal call changes at most its own row |
| `Database.Database.Vote` | sql/pgck--0.3.3--0.3.4.sql:101-169 | the gates in source order, statement by statement, end as the specification says: first objection, an abort when the sealed quorum does not cast, or one sealed vote |
| `GovernanceSafety.VoteRows` | sql/pgck--0.3.3--0.3.4.sql:127-155 | a vote call changes at most its own row, to the vote cast under the caller's identity |
| `Recorded.VoteRecords` | sql/pgck--0.3.3--0.3.4.sql:117-155 | on success the proposal named was pending, and the new row carries its IRI, the value cast and its own IRI |
| `Recorded.VoteIntentExactly` | sql/pgck--0.3.3--0.3.4.sql:117-137 | which refusal is given, exactly, in the order of the gates |
| `GovernanceSafety.VoteCounts` | sql/pgck--0.4.101--0.4.102.sql:332-341 | a sealed vote counts for a proposal exactly when it approves it, for its verified caller, and as anonymous exactly when there is none |
| `Database.Database.RunCascade` | sql/pgck--0.4.101--0.4.102.sql:419-470 | bump, seal the Epoch, pin the digest, seal the Materialization |
| `Database.Database.ApplyProposal` | sql/pgck--0.4.101--0.4.102.sql:203-519 | `apply` on the tables, phase by phase, with its savepoints |
| `Matcher.MatchLoop` | src/nats/router.rs:29-54 | the index-driven loop equals the recursive token relation |
| `Matcher.WiderMatchesMore` | src/nats/router.rs:29-54 | a pattern that covers another tokenwise matches every subject the other does |
| `Matcher.NotWiderSeparates` | src/nats/router.rs:29-54 | where tokenwise coverage fails, a subject tells the two patterns apart |
| `Door.PermissionsFor` | src/auth_callout.rs:84-106 | the pushing loop mints exactly the specified grants |
| `Door.RouteIffAddress` | src/nats_client.rs:240-269 | routing is the exact inverse of addressing |
| `Door.OneRelayHears` | src/nats_client.rs:69-76 | a granted subject is heard by the scoped relay subscription and not by the other |
| `Door.GrantedRoute` | src/nats_client.rs:240-269 | its route is its own identity and kernel, or none exactly when the verb is empty |
| `Door.GrantsAgreeWithRoutes` | src/auth_callout.rs:84-106 | grants, relay subscriptions, routes and reply grants agree for every admission, filtered kernel list and admitted subject |
| `Door.PublishSetsDisjoint` | src/auth_callout.rs:29-106 | subs with different tokens have disjoint publish sets |
| `Grants.MayPublish` | src/auth_callout.rs:84-106 | a verified connection may publish exactly the addresses of its own token on its kernels, an anonymous one nothing |
| `Grants.MayHear` | src/auth_callout.rs:84-106 | events of a kernel reach every connection minted for it, results the verified ones, and no other |
| `Grants.InboxHeard` | src/auth_callout.rs:26-106 | an inbox is heard exactly by verified connections |
| `Grants.TokenExactly` | src/auth_callout.rs:51-67 | which token a sub becomes, exactly |
| `Grants.CleanSubsKept` | src/auth_callout.rs:48-50 | clean subs, such as UUIDs, pass unchanged |
| `Grants.KernelNameExactly` | src/lib.rs:350-360 | which names pass the filter, exactly |
| `Roster.CalloutPolicy.SetLedgerKernels` | src/lib.rs:295-304 | a name is cached if and only if it is the trim of a given name and is one literal token |
| `Roster.CalloutPolicy.Refresh` | src/lib.rs:310-328 | appends each sealed name not yet present to the configured ones |
| `Roster.OnlyNamesExactly` | src/lib.rs:350-360 | the filter keeps exactly the names that are one literal token |
| `Roster.ConfiguredExactly` | src/lib.rs:344-360 | the setting names exactly the trimmed comma-separated pieces that are one token; an absent one names none |
| `Roster.UnionExactly` | src/lib.rs:310-328 | the union keeps the configured names in front, holds exactly both sets, and adds no duplicate |
| `Roster.RosterGrantsAgree` | src/lib.rs:295-360 | setting and ledger in, agreement of grants and routes out |
| `Registry.RegistryAgreesWithRoute` | sql/pgck--0.3.0--0.3.1.sql:70-75 | a topic is registered under (kernel, verb) exactly when it routes there with no identity |
| `Registry.AffordanceRegistry.Refresh` | sql/pgck--0.3.0--0.3.1.sql:37-98 | the upsert loop merges the facts' rows and counts them, or raises and changes nothing |
| `Registry.RefreshCounts` | sql/pgck--0.3.0--0.3.1.sql:94-97 | with unique keys the count returned is the number of rows |
| `Registry.RowsExactly` | sql/pgck--0.3.0--0.3.1.sql:70-98 | with unique keys the index holds exactly the derivable facts |
| `Registry.RowSays` | sql/pgck--0.3.0--0.3.1.sql:76-98 | a row carries its fact's texts without their datatype suffix, with plane `instance`, epoch 1 and no delegation as defaults, and raises when one does not cast |
| `Registry.LookupAfterRefresh` | sql/pgck--0.3.0--0.3.1.sql:110-118 | a lookup after refresh returns the fact for its key, whatever the index held before |
| `Registry.LookupElsewhere` | sql/pgck--0.3.0--0.3.1.sql:110-118 | a key no fact names is found exactly as before the refresh |
| `Registry.RefreshAgain` | sql/pgck--0.3.0--0.3.1.sql:37-98 | refreshing again with the same facts, read in any order, gives the same rows and leaves the index as it is |
| `Inbound.RunSound` | src/inbound_dispatch.rs:43-138 | under every interleaving of enqueues and worker steps: queue at most 1000; accepted = dispatched, in flight, queued, in order; one reply each; each dispatch under its own kernel and its own identity or none |
| `Inbound.AcceptedExactly` | src/inbound_dispatch.rs:51-57 | a message is accepted, as exactly one action, if and only if the worker lives, fewer than 1000 wait and its subject addresses a kernel and verb |
| `Inbound.UnroutedIgnored` | src/inbound_dispatch.rs:51-57 | a subject that addresses no kernel and verb changes nothing |
| `Inbound.ReplySays` | src/inbound_dispatch.rs:130-138 | what is replied in each ending; an error text cannot end its JSON string early |
| `Inbound.DispatchMatchesSubject` | src/nats_client.rs:240-269 | the i-th dispatch is the i-th accepted action, isolated, and answers on the reply subject its own address routes to |
| `Inbound.OwnProjectExactly` | sql/dispatch.sql:73-80 | when a dispatch reads its own kernel, for any session and any action |
| `Inbound.ProjectLeaks` | sql/dispatch.sql:79-80 | after a returned dispatch an action without a kernel would read the previous one's, one with a kernel reads its own |
| `Inbound.RefusedLeaksNothing` | sql/pgck--0.4.40--0.4.41.sql:27-51 | after a refused one it would read what the session held before, or the empty text |
| `Inbound.AnsweredOnlyIfJson` | src/inbound_dispatch.rs:111-123 | an answered action, and every arrival before it, carried JSON (no SPI error intervening) |
| `Inbound.JsonIsAnswered` | src/inbound_dispatch.rs:70-76 | an action that is JSON, after arrivals that are, is answered in some continuation |
| `Inbound.EmptyPayloadNeverAnswered` | src/inbound_dispatch.rs:111-123 | a concrete accepted action that is never answered |
| `Inbound.BadPayloadSilences` | src/inbound_dispatch.rs:111-123 | reaching a payload that is not JSON ends all replies, whatever comes after |
| `Inbound.JsonKeepsAlive` | src/inbound_dispatch.rs:70-76 | with JSON payloads alone the worker never dies |
| `Inbound.Worker.Enqueue` | src/inbound_dispatch.rs:51-57 | route, then push unless the queue is full |
| `Inbound.Worker.DispatchOne` | src/inbound_dispatch.rs:78-138 | one transaction, setting by setting, for every way it can end |
| `Inbound.Worker.DrainAndDispatch` | src/inbound_dispatch.rs:70-76 | taking all and dispatching each is that run of worker steps |
| `Wire.ParseControl` | src/nats/parser.rs:28-90 | every control line parses back to its message; decimal lengths print and parse back |
| `Wire.ParsedExactly` | src/nats/parser.rs:28-78 | a line that is no CONNECT parses to a message if and only if its words say it: verb in any case, no word too many or too few, numerals of 64 bits |
| `Wire.WordsAre` | src/nats/parser.rs:28-32 | the words of any line |
| `Wire.UpperExactly` | src/nats/parser.rs:33-33 | how a verb is raised |
| `Wire.ConnectSays` | src/nats/parser.rs:36-36 | what parses to a CONNECT starts with that word and carries its options |
| `Wire.BadLineBreaks` | src/nats/server.rs:90-101 | the stream ends only at its end, and breaks on a line that is not UTF-8 or not a message |
| `Wire.PayloadExactly` | src/nats/server.rs:104-127 | a payload is read exactly when it is at most 1 MiB, complete and followed by CR LF; otherwise the connection breaks |
| `Wire.ReadBack` | src/nats/server.rs:90-137 | one encoded message, whatever follows, is read back and exactly consumed |
| `Wire.StreamReadBack` | src/nats/server.rs:90-137 | any sequence of messages, payload bytes arbitrary up to 1 MiB, reads back as itself and leaves the following bytes untouched |
| `Wire.StreamsUnique` | src/nats/server.rs:90-137 | streams with equal bytes are equal, and equally long |
| `Wire.Reader.ReadClientMessage` | src/nats/server.rs:90-130 | the in-place reader returns what the specification reads and leaves the rest |
| `Wire.WriteMsg` | src/nats/server.rs:139-163 | the bytes written for a delivery |
| `Wire.MsgReadBack` | src/nats/server.rs:139-163 | a client reading the MSG entry of the NATS protocol recovers delivery, sid and the bytes that follow |
| `Fanout.Router.Matching` | src/nats/router.rs:21-26 | exactly the matching sids, each once, in key order |
| `Fanout.MatchingUnique` | src/nats/router.rs:21-26 | that determines the list |
| `Fanout.WrittenInPublishOrder` | src/nats/server.rs:30-88 | in every interleaving with lag and write errors, each sid's messages rise strictly through the publish order |
| `Fanout.WrittenMatched` | src/nats/server.rs:72-79 | every written message was written at a step where its sid's live pattern matched it |
| `Fanout.SilentUntilSub` | src/nats/server.rs:61-62 | from any state without the subscription, nothing is written for the sid until a SUB |
| `Fanout.UnsubSilences` | src/nats/server.rs:62-62 | after UNSUB nothing is written for the sid until a new SUB |
| `Fanout.DeliveredExactly` | src/nats/server.rs:72-79 | while a subscription stands without lag or failure, exactly the matching publications passed by the cursor are written, in order |
| `Fanout.MissedMeansLagged` | src/nats/server.rs:80-81 | with lag, a matching publication is missing only if more than 1024 publications followed it while the cursor had not passed it |
| `Fanout.ReceiveExactly` | src/nats/server.rs:72-83 | more than 1024 behind: nothing written, put 1024 behind; otherwise one publication written and passed |
| `Fanout.HearsOnlyLater` | src/nats/server.rs:33-41 | a connection hears nothing published before it was accepted |
| `Fanout.PublishedIsReadBack` | src/nats/server.rs:63-79 | a subscriber reads back the publisher's subject, reply and payload |
| `Fanout.Connection.HandleMessage` | src/nats/server.rs:57-70 | the arm of the loop that has read a client message |
| `Fanout.MessageExactly` | src/nats/server.rs:57-70 | the pattern of every sid, and the log, after each kind of message |
| `Fanout.Connection.HandleDelivery` | src/nats/server.rs:72-83 | the arm that receives: skips when lagging, or writes one frame per matching sid until the socket fails, and closes then |
| `Fanout.DeliveryIsStep` | src/nats/server.rs:72-83 | what it does, failing or not, is a step of the runs above |
| `SqlText.QuotedReadsBack` | sql/pgck--0.3.4--0.3.5.sql:33-55 | a quoted value is read back whole, whatever it contains |
| `SqlText.CondReads` | sql/pgck--0.3.4--0.3.5.sql:45-55 | a template reads back as its condition, or is a syntax error exactly when its operator slot is empty or its raw numeral is not one |
| `SqlText.WhereReadsBack` | sql/pgck--0.3.4--0.3.5.sql:33-61 | the accumulated WHERE text is read as exactly the intended conditions: no expression position is reachable |
| `SqlText.ShapeExactly` | sql/pgck--0.3.4--0.3.5.sql:48-52 | what the numeric guard admits |
| `SqlText.NumberIs` | sql/pgck--0.3.4--0.3.5.sql:51-52 | the number a decimal numeral spells |
| `SqlText.WholeNumberIs` | sql/pgck--0.3.4--0.3.5.sql:51-52 | every printed number casts to itself |
| `Query.ContainsExactly` | sql/pgck--0.3.4--0.3.5.sql:45-46 | `contains` means substring for every text iff the value has no LIKE metacharacter |
| `Query.Compile` | sql/pgck--0.3.4--0.3.5.sql:35-56 | the filter loop builds the text of all conditions, or stops with the first objection |
| `Query.FilterMeans` | sql/pgck--0.3.4--0.3.5.sql:45-55 | under three-valued logic a filter's conditions are true exactly when its key is present and its comparison holds |
| `Query.TextMeans` | sql/pgck--0.3.4--0.3.5.sql:33-61 | the WHERE text executes iff every filter is executable, and is then true of exactly the wanted bodies |
| `Query.Query` | sql/pgck--0.3.4--0.3.5.sql:15-66 | refusals, raises, and otherwise type, count and the page of the id-ordered rows, with bodies, that are wanted |
| `Query.RowsAre` | sql/pgck--0.3.4--0.3.5.sql:57-66 | the rows of an answer are wanted rows with the bodies they are stored with, in id order from the offset |
| `Query.BoundsAre` | sql/pgck--0.3.4--0.3.5.sql:24-25 | 100 rows unless asked, at least 1, at most 1000, no negative offset |
| `Query.FilterRefusals` | sql/pgck--0.3.4--0.3.5.sql:37-51 | why a filter is refused, exactly |
| `Query.FirstRefusal` | sql/pgck--0.3.4--0.3.5.sql:35-56 | the call is refused for its first refused filter |
| `Query.RefusedExactly` | sql/pgck--0.3.4--0.3.5.sql:30-56 | a request is refused exactly for a kind that does not begin with a letter, and otherwise for its first refused filter |
| `Query.CastableNeverRaises` | sql/pgck--0.3.4--0.3.5.sql:47-52 | with castable stored numerals an executable request is always answered with rows |
| `Query.GuardAdmitsNonNumeral` | sql/pgck--0.3.4--0.3.5.sql:48-52 | a value the guard admits and no cast accepts |
| `Query.PagesAreWhole` | sql/pgck--0.3.4--0.3.5.sql:24-25 | pages at 0, L, 2L, ... concatenate to the whole, later ones are empty |
| `Query.PagedQuery` | sql/pgck--0.3.4--0.3.5.sql:57-64 | the rows answered at those offsets concatenate to the full id-ordered result, nothing lost or repeated |

## Left out

- Overlapping uncommitted seals: the code takes no lock around `max(seq)`; the chain is stated for serial transactions.
- Cancellation of a read by `tokio::select!` between bytes of a message: one message read is one step.
- Ids made from the clock: assumed fresh for proposals and votes.
- `update_typed` aimed at rows named `proposal-`, `vote-`, `epoch-` or `mat-`: outside the governed run relation, inside the ownership runs.
- Ties of `ts_created` within one transaction: rows are ordered by creation.
- Verification of the chain across a change of the identity key: runs are under one key.
- The raw vote counts in `vote`'s reply, `project_links`, and the quad and shape counts of `surface_check`, which are inputs; its roster, storage and engine sections.
- pgRDF, SHACL beyond the required-property gate, HMAC and digest internals, JWT verification and minting: uninterpreted or inputs.
- The bodies of verbs behind `dispatch`: an outcome per action is an input of the inbound run, and they are taken not to set `ckp.requester` session-wide.
- A restarted worker: each inbound run is one life of the worker process.
- JetStream, connection retries, threads, logging, roles, the INFO banner, and queue groups and the UNSUB count, which the server parses and ignores.
- Collations: ids and sids are ordered by code point.
- Casts of `limit` and `offset` that overflow int4, and filters that are not a JSON array.
- `Fanout.Connection.HandleDelivery`: a socket fails between frames; the bytes of a frame cut in half are not modelled.
- `SurfaceCheck.DriftExactly`: stated for live epochs within int4, because the check casts the epoch text back to int4.
- `Query.Query`: conditions are tried left to right over the whole table, and a row that raises makes the query raise; PostgreSQL promises no order of AND and may stop at the LIMIT on an id index.
- `ckp.storage`, `identity_triple`, `fleet_adoptions`, `stage_ttl`, `ckp.transition`, `instance.reach` and the legacy list verbs: reporting or easy members.
