/** `ckp.surface_check`: what the sealed records pin, what the surface is now, and
    which findings follow. */
module SurfaceCheck {
  import opened Text
  import opened Facts
  import opened Ledger
  import opened Governance
  import opened GovernanceFrames
  import opened GovernanceRuns
  import opened EpochChain

  datatype Finding =
    | ModuleMissing(iri: string)
    | KernelGraphWiped
    | NoShapes
    | EpochUnsealed
    | SurfaceDrift
    | SourceDrift

  /** No kernel named; named, with no Kernel sealed; or sealed. */
  datatype State = CoreOnly | Unsealed | Sprouted

  /** A digest as sealed and as it is, and whether they agree. */
  datatype Pair = Pair(pinned: Option<string>, actual: Option<string>, same: Option<bool>)

  datatype Report = Report(kernel: Option<string>, state: State, epoch: nat, resource: Option<string>,
                           surface: Pair, source: Pair, emptyGraph: Option<bool>, shapes: nat,
                           modules: seq<(Module, bool)>, findings: seq<Finding>, healthy: bool)

  /** An adopted module graph and how many quads it holds. */
  datatype Module = Module(iri: string, quads: nat)

  predicate EpochRowIs(w: World, s: Store, id: string, project: string, epoch: nat) {
    && id in s.instances
    && Field(w, s.instances[id], "type") == Some(EPOCH_T)
    && Field(w, s.instances[id], PRODUCED_BY) == Some(KernelIri(project))
    && Field(w, s.instances[id], EPOCH).Some? && w.cast(Field(w, s.instances[id], EPOCH).value) == Some(epoch)
  }

  predicate MatRowIs(w: World, s: Store, id: string, epochIri: Option<string>) {
    && id in s.instances && epochIri.Some?
    && Field(w, s.instances[id], "type") == Some(MAT_T)
    && Field(w, s.instances[id], PRODUCES_EPOCH) == epochIri
  }

  /** The latest Epoch this kernel sealed for an epoch number. */
  function PinnedEpoch(w: World, s: Store, order: seq<string>, project: string, epoch: nat): (r: Option<string>)
    ensures r.Some? ==> r.value in order && EpochRowIs(w, s, r.value, project, epoch)
    ensures r.None? ==> forall id :: id in order ==> !EpochRowIs(w, s, id, project, epoch)
  {
    if order == [] then None
    else
      var n := |order| - 1;
      if EpochRowIs(w, s, order[n], project, epoch) then Some(order[n]) else PinnedEpoch(w, s, order[..n], project, epoch)
  }

  function PinnedMat(w: World, s: Store, order: seq<string>, epochIri: Option<string>): (r: Option<string>)
    ensures r.Some? ==> r.value in order && MatRowIs(w, s, r.value, epochIri)
    ensures r.None? ==> forall id :: id in order ==> !MatRowIs(w, s, id, epochIri)
  {
    if order == [] then None
    else
      var n := |order| - 1;
      if MatRowIs(w, s, order[n], epochIri) then Some(order[n]) else PinnedMat(w, s, order[..n], epochIri)
  }

  function FieldOf(w: World, s: Store, row: Option<string>, key: string): Option<string> {
    if row.Some? && row.value in s.instances then Field(w, s.instances[row.value], key) else None
  }

  function PinRow(w: World, g: Gov, project: string): Option<string> {
    PinnedEpoch(w, g.store, g.store.order, project, LiveEpoch(g, project))
  }

  function PinnedSurface(w: World, g: Gov, project: string): Option<string> {
    FieldOf(w, g.store, PinRow(w, g, project), SURFACE_DIGEST)
  }

  function PinnedSource(w: World, g: Gov, project: string): Option<string> {
    var iri := FieldOf(w, g.store, PinRow(w, g, project), "@id");
    FieldOf(w, g.store, PinnedMat(w, g.store, g.store.order, iri), SOURCE_DIGEST)
  }

  function Germinated(w: World, s: Store, project: string): bool {
    FindFirst(w, s, s.order, KernelRowIri(project), "ckp:core#Kernel").Some?
  }

  function Missing(mods: seq<Module>): seq<Finding> {
    if mods == [] then []
    else
      var n := |mods| - 1;
      Missing(mods[..n]) + (if mods[n].quads == 0 then [ModuleMissing(mods[n].iri)] else [])
  }

  function When(c: bool, f: Finding): seq<Finding> { if c then [f] else [] }

  /** The findings, in the order they are appended. */
  function Listing(missing: seq<Finding>, wiped: bool, bare: bool, unsealed: bool, drift: bool, sourceDrift: bool): seq<Finding> {
    missing + When(wiped, KernelGraphWiped) + When(bare, NoShapes)
    + (if unsealed then [EpochUnsealed] else When(drift, SurfaceDrift)) + When(sourceDrift, SourceDrift)
  }

  function Findings(w: World, g: Gov, project: string, mods: seq<Module>, shapes: nat): seq<Finding> {
    var pin, src := PinnedSurface(w, g, project), PinnedSource(w, g, project);
    var germ := Germinated(w, g.store, project);
    Listing(Missing(mods), GraphOf(g, project) == {} && germ, shapes == 0,
            pin.None? && germ && LiveEpoch(g, project) > 0,
            pin.Some? && pin.value != Surface(w, g, project),
            src.Some? && src.value != Source(w, g, project))
  }

  function StateOf(w: World, s: Store, project: string): State {
    if Germinated(w, s, project) then Sprouted else Unsealed
  }

  /** Each module with whether its graph holds anything. */
  function Presence(mods: seq<Module>): seq<(Module, bool)> {
    seq(|mods|, i requires 0 <= i < |mods| => (mods[i], mods[i].quads > 0))
  }

  /** `IS NOT DISTINCT FROM` on the two digests. */
  function Compared(pinned: Option<string>, actual: string): Pair {
    Pair(pinned, Some(actual), Some(pinned == Some(actual)))
  }

  /** The report for a named kernel. */
  function KernelReport(w: World, g: Gov, project: string, mods: seq<Module>, shapes: nat): Report {
    var found := Findings(w, g, project, mods, shapes);
    Report(Some(project), StateOf(w, g.store, project), LiveEpoch(g, project), FieldOf(w, g.store, PinRow(w, g, project), "@id"),
           Compared(PinnedSurface(w, g, project), Surface(w, g, project)),
           Compared(PinnedSource(w, g, project), Source(w, g, project)),
           Some(GraphOf(g, project) == {}), shapes, Presence(mods), found, found == [])
  }

  /** The report when no kernel is named: the surface is the core itself. */
  function CoreReport(w: World, core: Graph, shapes: nat): Report {
    Report(None, CoreOnly, 0, None, Pair(None, Some(w.surfaceDigest(core)), None), Pair(None, None, None), None, shapes, [], [], true)
  }

  /** `ckp.surface_check`. */
  method Check(w: World, g: Gov, project: Option<string>, core: Graph, mods: seq<Module>, shapes: nat) returns (r: Report)
    ensures r == if project.None? then CoreReport(w, core, shapes) else KernelReport(w, g, project.value, mods, shapes)
  {
    if project.None? {
      return Report(None, CoreOnly, 0, None, Pair(None, Some(w.surfaceDigest(core)), None), Pair(None, None, None), None, shapes, [], [], true);
    }
    r := CheckKernel(w, g, project.value, mods, shapes);
  }

  method CheckKernel(w: World, g: Gov, project: string, mods: seq<Module>, shapes: nat) returns (r: Report)
    ensures r == KernelReport(w, g, project, mods, shapes)
  {
    var epoch := if project in g.cache.epochs then g.cache.epochs[project].epoch else 0;
    var resource, pin, src := ReadPins(w, g, project, epoch);
    var actual, actualSrc := Surface(w, g, project), Source(w, g, project);
    var found, listed := Scan(mods);
    var state := if Germinated(w, g.store, project) then Sprouted else Unsealed;
    var empty := GraphOf(g, project) == {};
    found := Judge(found, empty && state == Sprouted, shapes == 0, pin.None? && state == Sprouted && epoch > 0,
                   pin.Some? && pin.value != actual, src.Some? && src.value != actualSrc);
    r := Report(Some(project), state, epoch, resource, Compared(pin, actual), Compared(src, actualSrc),
                Some(empty), shapes, listed, found, |found| == 0);
  }

  /** The two reads of the sealed records: the Epoch in force, then the
      Materialization that produced it. */
  method ReadPins(w: World, g: Gov, project: string, epoch: nat) returns (resource: Option<string>, pin: Option<string>, src: Option<string>)
    requires epoch == LiveEpoch(g, project)
    ensures resource == FieldOf(w, g.store, PinRow(w, g, project), "@id")
    ensures pin == PinnedSurface(w, g, project) && src == PinnedSource(w, g, project)
  {
    var row := PinnedEpoch(w, g.store, g.store.order, project, epoch);
    resource, pin := FieldOf(w, g.store, row, "@id"), FieldOf(w, g.store, row, SURFACE_DIGEST);
    src := FieldOf(w, g.store, PinnedMat(w, g.store, g.store.order, resource), SOURCE_DIGEST);
  }

  /** Walk the adopted modules: list each one, and report those with no quads. */
  method Scan(mods: seq<Module>) returns (found: seq<Finding>, listed: seq<(Module, bool)>)
    ensures found == Missing(mods) && listed == Presence(mods)
  {
    found, listed := [], [];
    for i := 0 to |mods|
      invariant found == Missing(mods[..i]) && listed == Presence(mods[..i])
    {
      assert mods[..i + 1][..i] == mods[..i];
      listed := listed + [(mods[i], mods[i].quads > 0)];
      if mods[i].quads == 0 {
        found := found + [ModuleMissing(mods[i].iri)];
      }
    }
    assert mods[..|mods|] == mods;
  }

  /** The branches that append to the findings. */
  method Judge(missing: seq<Finding>, wiped: bool, bare: bool, unsealed: bool, drift: bool, sourceDrift: bool) returns (found: seq<Finding>)
    ensures found == Listing(missing, wiped, bare, unsealed, drift, sourceDrift)
  {
    found := missing;
    if wiped {
      found := found + [KernelGraphWiped];
    }
    if bare {
      found := found + [NoShapes];
    }
    if unsealed {
      found := found + [EpochUnsealed];
    } else if drift {
      found := found + [SurfaceDrift];
    }
    if sourceDrift {
      found := found + [SourceDrift];
    }
  }

  // ------------------------------------------------------- what the report means

  /** Integer casts read back what was printed, within the column's range. */
  ghost predicate CastOk(w: World) {
    forall n: nat :: n < 0x8000_0000 ==> w.cast(Print(n)) == Some(n)
  }

  lemma KernelIriInjective(p: string, q: string)
    requires KernelIri(p) == KernelIri(q)
    ensures p == q
  {
    var a, b := KernelIri(p), KernelIri(q);
    assert |p| == |q|;
    assert a[8..8 + |p|] == p && b[8..8 + |q|] == q;
  }

  /** A row that reads as the Epoch of a project and number is that record. */
  lemma EpochRowUnique(w: World, g: Gov, id: string, project: string)
    requires GovWf(w, g) && Chain(w, g) && CastOk(w) && LiveEpoch(g, project) < 0x8000_0000
    requires EpochRowIs(w, g.store, id, project, LiveEpoch(g, project))
    ensures id == EpochId(project, LiveEpoch(g, project))
  {
    assert RowWf(w, id, g.store.instances[id]);
    assert Named(id);
    var q: string, n: nat :| id == EpochId(q, n) || id == MatId(q, n);
    assert id[0] == 'e' && MatId(q, n)[0] == 'm';
    assert ChainAt(w, g, q, n);
    assert Get(g.store, id).Some?;
    KernelIriInjective(q, project);
    assert n <= LiveEpoch(g, project);
  }

  lemma PinIsRecord(w: World, g: Gov, project: string)
    requires GovWf(w, g) && Chain(w, g) && CastOk(w) && LiveEpoch(g, project) < 0x8000_0000
    requires EpochId(project, LiveEpoch(g, project)) in g.store.instances
    ensures PinRow(w, g, project) == Some(EpochId(project, LiveEpoch(g, project)))
  {
    var n := LiveEpoch(g, project);
    var id := EpochId(project, n);
    assert ChainAt(w, g, project, n);
    assert Get(g.store, id).Some?;
    assert EpochRowIs(w, g.store, id, project, n);
    assert id in g.store.order;
    var r := PinRow(w, g, project);
    EpochRowUnique(w, g, r.value, project);
  }

  lemma EpochIriInjective(p: string, m: nat, q: string, n: nat)
    requires EpochIri(p, m) == EpochIri(q, n)
    ensures p == q && m == n
  {
    assert EpochIri(p, m) == ("urn:ckp:" + p) + "/epoch/" + Print(m);
    assert EpochIri(q, n) == ("urn:ckp:" + q) + "/epoch/" + Print(n);
    SuffixedNameInjective("urn:ckp:" + p, m, "urn:ckp:" + q, n, "/epoch/");
    assert ("urn:ckp:" + p)[8..] == p && ("urn:ckp:" + q)[8..] == q;
  }

  /** The Materialization of an epoch is the one record that names it. */
  lemma MatRowUnique(w: World, g: Gov, id: string, project: string, n: nat)
    requires GovWf(w, g) && Chain(w, g) && MatRowIs(w, g.store, id, Some(EpochIri(project, n)))
    ensures id == MatId(project, n)
  {
    assert RowWf(w, id, g.store.instances[id]);
    assert Named(id);
    var q: string, m: nat :| id == EpochId(q, m) || id == MatId(q, m);
    assert id[0] == 'm' && EpochId(q, m)[0] == 'e';
    assert ChainAt(w, g, q, m);
    assert Get(g.store, id).Some?;
    EpochIriInjective(q, m, project, n);
  }

  lemma PinnedMatIsRecord(w: World, g: Gov, project: string, n: nat)
    requires GovWf(w, g) && Chain(w, g) && MatId(project, n) in g.store.instances
    ensures PinnedMat(w, g.store, g.store.order, Some(EpochIri(project, n))) == Some(MatId(project, n))
  {
    assert ChainAt(w, g, project, n);
    var id := MatId(project, n);
    assert Get(g.store, id).Some?;
    assert MatRowIs(w, g.store, id, Some(EpochIri(project, n)));
    assert id in g.store.order;
    MatRowUnique(w, g, PinnedMat(w, g.store, g.store.order, Some(EpochIri(project, n))).value, project, n);
  }

  lemma PinnedSourceIsSealed(w: World, g: Gov, project: string)
    requires GovWf(w, g) && Chain(w, g) && CastOk(w) && LiveEpoch(g, project) < 0x8000_0000
    requires MatId(project, LiveEpoch(g, project)) in g.store.instances
    ensures PinnedSource(w, g, project) == Field(w, g.store.instances[MatId(project, LiveEpoch(g, project))], SOURCE_DIGEST)
    ensures PinnedSource(w, g, project).Some?
  {
    var n := LiveEpoch(g, project);
    assert ChainAt(w, g, project, n);
    assert Get(g.store, EpochId(project, n)).Some? && Get(g.store, MatId(project, n)).Some?;
    PinIsRecord(w, g, project);
    PinnedMatIsRecord(w, g, project, n);
  }

  /** In any reachable state whose live epoch was sealed, the check compares the
      composed surface and the kernel graph with the digests that epoch sealed: it
      reports each drift exactly when they differ, and never an unsealed epoch. */
  lemma DriftExactly(w: World, g: Gov, project: string, mods: seq<Module>, shapes: nat)
    requires GovWf(w, g) && Chain(w, g) && CastOk(w) && LiveEpoch(g, project) < 0x8000_0000
    requires MatId(project, LiveEpoch(g, project)) in g.store.instances
    ensures var f := Findings(w, g, project, mods, shapes);
      var mat := g.store.instances[MatId(project, LiveEpoch(g, project))];
      && project in g.cache.epochs && g.cache.epochs[project].digest.Some?
      && (SurfaceDrift in f <==> Surface(w, g, project) != g.cache.epochs[project].digest.value)
      && (SourceDrift in f <==> Some(Source(w, g, project)) != Field(w, mat, SOURCE_DIGEST))
      && EpochUnsealed !in f
  {
    LiveDigestIsSealed(w, g, project);
    PinIsRecord(w, g, project);
    PinnedSourceIsSealed(w, g, project);
    FindingsMembers(w, g, project, mods, shapes);
  }

  /** HEALTH, EXACTLY. In such a state the check calls the kernel healthy if and only
      if every adopted module holds something, a sealed kernel's graph does too, the
      surface has shapes, and both digests are the sealed ones. */
  lemma HealthyExactly(w: World, g: Gov, project: string, mods: seq<Module>, shapes: nat)
    requires GovWf(w, g) && Chain(w, g) && CastOk(w) && LiveEpoch(g, project) < 0x8000_0000
    requires MatId(project, LiveEpoch(g, project)) in g.store.instances
    ensures var mat := g.store.instances[MatId(project, LiveEpoch(g, project))];
      project in g.cache.epochs &&
      (KernelReport(w, g, project, mods, shapes).healthy <==>
        && (forall i :: 0 <= i < |mods| ==> mods[i].quads > 0)
        && (GraphOf(g, project) == {} ==> !Germinated(w, g.store, project))
        && shapes > 0
        && g.cache.epochs[project].digest == Some(Surface(w, g, project))
        && Field(w, mat, SOURCE_DIGEST) == Some(Source(w, g, project)))
  {
    LiveDigestIsSealed(w, g, project);
    PinIsRecord(w, g, project);
    PinnedSourceIsSealed(w, g, project);
    NoneMissing(mods);
    var pin, src := PinnedSurface(w, g, project), PinnedSource(w, g, project);
    var germ := Germinated(w, g.store, project);
    ListingEmpty(Missing(mods), GraphOf(g, project) == {} && germ, shapes == 0, pin.None? && germ && LiveEpoch(g, project) > 0,
                 pin.Some? && pin.value != Surface(w, g, project), src.Some? && src.value != Source(w, g, project));
  }

  lemma {:induction false} NoneMissing(mods: seq<Module>)
    ensures Missing(mods) == [] <==> forall i :: 0 <= i < |mods| ==> mods[i].quads > 0
  {
    if mods != [] {
      var n := |mods| - 1;
      NoneMissing(mods[..n]);
      assert forall i :: 0 <= i < n ==> mods[..n][i] == mods[i];
    }
  }

  lemma ListingEmpty(missing: seq<Finding>, wiped: bool, bare: bool, unsealed: bool, drift: bool, sourceDrift: bool)
    ensures Listing(missing, wiped, bare, unsealed, drift, sourceDrift) == [] <==>
      missing == [] && !wiped && !bare && !unsealed && !drift && !sourceDrift
  {
  }

  /** Right after an apply whose cascade stands, the check reports no drift. */
  lemma NoDriftAfterApply(w: World, sess: Session, g: Gov, about: Option<string>, nonce: string, mid: Gov, mods: seq<Module>, shapes: nat)
    requires WorldOk(w) && GovWf(w, g) && Chain(w, g) && CastOk(w) && Reached(w, sess, g, about, nonce) == Some(mid)
    requires LiveEpoch(Apply(w, sess, g, about, nonce).gov, Project(sess)) < 0x8000_0000
    ensures var f := Findings(w, Apply(w, sess, g, about, nonce).gov, Project(sess), mods, shapes);
      SurfaceDrift !in f && SourceDrift !in f && EpochUnsealed !in f
  {
    var p := Project(sess);
    var g' := Apply(w, sess, g, about, nonce).gov;
    ApplyChain(w, sess, g, about, nonce);
    ApplyEffect(w, sess, g, about, nonce, "");
    var n := BumpedTo(mid, p);
    ApplyHistory(w, sess, g, about, nonce, MatId(p, n));
    SealedAsBuilt(w, sess, g, mid, g', nonce);
    DriftExactly(w, g', p, mods, shapes);
  }

  /** The live records of the new epoch carry the digests of the graphs in force. */
  lemma SealedAsBuilt(w: World, sess: Session, g: Gov, mid: Gov, g': Gov, nonce: string)
    requires Positive(g) && HistoryVia(w, sess, g, g', Some(mid), nonce, MatId(Project(sess), BumpedTo(mid, Project(sess))))
    ensures var p := Project(sess);
      var n := BumpedTo(mid, p);
      && LiveEpoch(g', p) == n && p in g'.cache.epochs
      && g'.cache.epochs[p].digest == Some(Surface(w, g', p))
      && MatId(p, n) in g'.store.instances
      && Field(w, g'.store.instances[MatId(p, n)], SOURCE_DIGEST) == Some(Source(w, g', p))
  {
    var p := Project(sess);
    var n := BumpedTo(mid, p);
    RecordIdsInjective(p, n, p, n);
    BumpedPositive(mid, p);
    CascadeEpochRow(w, sess, mid, nonce);
    CascadeNew(w, sess, mid, nonce);
    assert Get(g'.store, MatId(p, n)).Some?;
  }

  lemma {:induction false} MissingOnly(mods: seq<Module>)
    ensures forall f :: f in Missing(mods) ==> f.ModuleMissing?
  {
    if mods != [] {
      MissingOnly(mods[..|mods| - 1]);
    }
  }

  lemma FindingsMembers(w: World, g: Gov, project: string, mods: seq<Module>, shapes: nat)
    ensures var f := Findings(w, g, project, mods, shapes);
      var pin := PinnedSurface(w, g, project);
      && (SurfaceDrift in f <==> pin.Some? && pin.value != Surface(w, g, project))
      && (EpochUnsealed in f <==> pin.None? && Germinated(w, g.store, project) && LiveEpoch(g, project) > 0)
      && (SourceDrift in f <==> PinnedSource(w, g, project).Some? && PinnedSource(w, g, project).value != Source(w, g, project))
  {
    var pin, src := PinnedSurface(w, g, project), PinnedSource(w, g, project);
    var germ := Germinated(w, g.store, project);
    MissingOnly(mods);
    ListingMembers(Missing(mods), GraphOf(g, project) == {} && germ, shapes == 0,
                   pin.None? && germ && LiveEpoch(g, project) > 0,
                   pin.Some? && pin.value != Surface(w, g, project),
                   src.Some? && src.value != Source(w, g, project));
  }

  lemma ListingMembers(missing: seq<Finding>, wiped: bool, bare: bool, unsealed: bool, drift: bool, sourceDrift: bool)
    requires forall f :: f in missing ==> f.ModuleMissing?
    ensures var f := Listing(missing, wiped, bare, unsealed, drift, sourceDrift);
      && (SurfaceDrift in f <==> drift && !unsealed) && (EpochUnsealed in f <==> unsealed) && (SourceDrift in f <==> sourceDrift)
  {
  }

  // ------------------------------------------------------ the report, field by field

  /** A Kernel is sealed for the project. */
  ghost predicate KernelSealed(w: World, s: Store, project: string) {
    exists id :: id in s.order && id in s.instances && Field(w, s.instances[id], "type") == Some("ckp:core#Kernel")
      && Field(w, s.instances[id], "@id") == Some("urn:ckp:" + project + "/kernel")
  }

  lemma GerminatedExactly(w: World, s: Store, project: string)
    ensures Germinated(w, s, project) <==> KernelSealed(w, s, project)
  {
    var found := FindFirst(w, s, s.order, KernelRowIri(project), "ckp:core#Kernel");
    if KernelSealed(w, s, project) {
      var id :| id in s.order && id in s.instances && Field(w, s.instances[id], "type") == Some("ckp:core#Kernel")
        && Field(w, s.instances[id], "@id") == Some("urn:ckp:" + project + "/kernel");
      assert RowIs(w, s, id, KernelRowIri(project), "ckp:core#Kernel");
    }
    if found.Some? {
      assert RowIs(w, s, found.value, KernelRowIri(project), "ckp:core#Kernel");
    }
  }

  /** What a report says, given what is pinned. */
  ghost predicate Reports(w: World, g: Gov, project: string, mods: seq<Module>, shapes: nat, r: Report,
                          iri: Option<string>, pin: Option<string>, src: Option<string>) {
    var surface, source := w.surfaceDigest(w.composed(g.graphs, project)), w.surfaceDigest(if project in g.graphs then g.graphs[project] else {});
    && r.kernel == Some(project) && r.epoch == (if project in g.cache.epochs then g.cache.epochs[project].epoch else 0) && r.resource == iri
    && (r.state == Sprouted <==> KernelSealed(w, g.store, project)) && r.state != CoreOnly
    && r.surface.pinned == pin && r.surface.actual == Some(surface) && r.surface.same == Some(pin == Some(surface))
    && r.source.pinned == src && r.source.actual == Some(source) && r.source.same == Some(src == Some(source))
    && r.emptyGraph == Some((if project in g.graphs then g.graphs[project] else {}) == {}) && r.shapes == shapes
    && |r.modules| == |mods| && (forall i :: 0 <= i < |mods| ==> r.modules[i] == (mods[i], mods[i].quads > 0))
    && (r.healthy <==> r.findings == [])
  }

  lemma ReportFrom(w: World, g: Gov, project: string, mods: seq<Module>, shapes: nat)
    ensures Reports(w, g, project, mods, shapes, KernelReport(w, g, project, mods, shapes),
      FieldOf(w, g.store, PinRow(w, g, project), "@id"), PinnedSurface(w, g, project), PinnedSource(w, g, project))
  {
    GerminatedExactly(w, g.store, project);
    assert forall i :: 0 <= i < |mods| ==> Presence(mods)[i] == (mods[i], mods[i].quads > 0);
  }

  lemma PinsAre(w: World, g: Gov, project: string)
    requires GovWf(w, g) && Chain(w, g) && CastOk(w) && LiveEpoch(g, project) < 0x8000_0000
    requires MatId(project, LiveEpoch(g, project)) in g.store.instances
    ensures var n := LiveEpoch(g, project);
      && FieldOf(w, g.store, PinRow(w, g, project), "@id") == Some("urn:ckp:" + project + "/epoch/" + Print(n))
      && project in g.cache.epochs && PinnedSurface(w, g, project) == g.cache.epochs[project].digest
      && PinnedSource(w, g, project) == Field(w, g.store.instances[MatId(project, n)], SOURCE_DIGEST)
  {
    LiveDigestIsSealed(w, g, project);
    PinIsRecord(w, g, project);
    PinnedSourceIsSealed(w, g, project);
    assert ChainAt(w, g, project, LiveEpoch(g, project));
    assert Get(g.store, EpochId(project, LiveEpoch(g, project))).Some?;
  }

  /** THE REPORT of a kernel whose live epoch is sealed: the epoch and its IRI, the sealed
      digests beside the ones in force and whether they agree, and every module with
      whether it holds anything. */
  lemma ReportExactly(w: World, g: Gov, project: string, mods: seq<Module>, shapes: nat)
    requires GovWf(w, g) && Chain(w, g) && CastOk(w) && LiveEpoch(g, project) < 0x8000_0000
    requires MatId(project, LiveEpoch(g, project)) in g.store.instances
    ensures var n := LiveEpoch(g, project);
      && project in g.cache.epochs
      && Reports(w, g, project, mods, shapes, KernelReport(w, g, project, mods, shapes),
                 Some("urn:ckp:" + project + "/epoch/" + Print(n)), g.cache.epochs[project].digest,
                 Field(w, g.store.instances[MatId(project, n)], SOURCE_DIGEST))
  {
    PinsAre(w, g, project);
    ReportFrom(w, g, project, mods, shapes);
  }

  /** With no kernel named the surface is the core, and that is healthy. */
  lemma CoreReportExactly(w: World, core: Graph, shapes: nat)
    ensures var r := CoreReport(w, core, shapes);
      && r.kernel == None && r.state == CoreOnly && r.epoch == 0 && r.resource == None && r.shapes == shapes
      && r.surface == Pair(None, Some(w.surfaceDigest(core)), None) && r.source == Pair(None, None, None)
      && r.modules == [] && r.findings == [] && r.healthy
  {
  }

  /** Each finding, exactly: the empty modules by name, a wiped graph, a bare surface. */
  lemma FindingsExactly(w: World, g: Gov, project: string, mods: seq<Module>, shapes: nat, iri: string)
    ensures var f := Findings(w, g, project, mods, shapes);
      && (ModuleMissing(iri) in f <==> exists i :: 0 <= i < |mods| && mods[i].iri == iri && mods[i].quads == 0)
      && (KernelGraphWiped in f <==> (if project in g.graphs then g.graphs[project] else {}) == {} && KernelSealed(w, g.store, project))
      && (NoShapes in f <==> shapes == 0)
  {
    var pin, src := PinnedSurface(w, g, project), PinnedSource(w, g, project);
    var germ := Germinated(w, g.store, project);
    GerminatedExactly(w, g.store, project);
    MissingExactly(mods, iri);
    MissingOnly(mods);
    ListingEarly(Missing(mods), GraphOf(g, project) == {} && germ, shapes == 0,
                 pin.None? && germ && LiveEpoch(g, project) > 0,
                 pin.Some? && pin.value != Surface(w, g, project),
                 src.Some? && src.value != Source(w, g, project), iri);
  }

  lemma ListingEarly(missing: seq<Finding>, wiped: bool, bare: bool, unsealed: bool, drift: bool, sourceDrift: bool, iri: string)
    requires forall f :: f in missing ==> f.ModuleMissing?
    ensures var f := Listing(missing, wiped, bare, unsealed, drift, sourceDrift);
      (ModuleMissing(iri) in f <==> ModuleMissing(iri) in missing) && (KernelGraphWiped in f <==> wiped) && (NoShapes in f <==> bare)
  {
  }

  lemma {:induction false} MissingExactly(mods: seq<Module>, iri: string)
    ensures ModuleMissing(iri) in Missing(mods) <==> exists i :: 0 <= i < |mods| && mods[i].iri == iri && mods[i].quads == 0
  {
    if mods != [] {
      var n := |mods| - 1;
      MissingExactly(mods[..n], iri);
      assert forall i :: 0 <= i < n ==> mods[..n][i] == mods[i];
    }
  }
}
