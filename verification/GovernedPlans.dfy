/** The plan cache inside governed runs: an enacted affordance may register a verb of
    the catalogue, and then answers in its place until the next compilation. */
module GovernedPlans {
  import opened Text
  import opened Facts
  import opened Ledger
  import opened Plans
  import opened Governance
  import opened GovernanceFrames
  import opened GovernanceRuns
  import opened GovernanceSafety
  import opened Atomicity
  import opened Refusals
  import opened EpochChain
  import opened Reachable

  /** The plan a proposal registers, if it registers this verb. */
  function Registers(w: World, prop: Body, verb: string): Option<Plan> {
    var a := w.affordance(prop);
    if AddsAffordance(w, prop) && a.Some? && a.value.0 == verb then Some(a.value.1) else None
  }

  /** What stands in for a kernel's verb after an act: a committed cascade of the
      kernel compiles afresh and then registers what it enacted; a plan_exec of a
      verb without a plan compiles afresh; nothing else compiles. */
  function StandInAfter(w: World, g: Gov, a: Act, kernel: string, verb: string, was: Option<Plan>): Option<Plan> {
    match a
    case Enaction(sess, about, nonce) =>
      var r := Apply(w, sess, g, about, nonce);
      if Project(sess) != kernel || Reached(w, sess, g, about, nonce).None? then was
      else if r.reply.Enacted? && r.reply.pid in g.store.instances then Registers(w, g.store.instances[r.reply.pid], verb)
      else None
    case PlanRun(k, v) => if k == kernel && PlanKey(k, v, EpochOf(g.cache, k)) !in g.cache.plans then None else was
    case _ => was
  }

  function StandIn(w: World, g: Gov, acts: seq<Act>, kernel: string, verb: string, was: Option<Plan>): Option<Plan>
    decreases |acts|
  {
    if acts == [] then was
    else StandIn(w, After(w, g, acts[0]), acts[1..], kernel, verb, StandInAfter(w, g, acts[0], kernel, verb, was))
  }

  /** The cached plan of the live epoch: the stand-in, or else the catalogue's or none. */
  ghost predicate LivePlan(c: Cache, kernel: string, verb: string, plan: Plan, standIn: Option<Plan>) {
    var found := Find(c, PlanKey(kernel, verb, EpochOf(c, kernel)));
    if standIn.Some? then found == standIn else found.None? || found == Some(plan)
  }

  // ----------------------------------------------------------- what compiling does

  lemma CompileSets(c: Cache, kernel: string, verb: string, plan: Plan)
    requires Catalogued(verb, plan)
    ensures Find(Compile(c, kernel), PlanKey(kernel, verb, EpochOf(c, kernel))) == Some(plan)
    ensures EpochOf(Compile(c, kernel), kernel) == EpochOf(c, kernel)
  {
    var i :| 0 <= i < |CATALOGUE| && CATALOGUE[i] == (verb, plan);
    var epoch := EpochOf(c, kernel);
    var p1 := Upserted(c.plans, kernel, epoch, 1);
    assert p1 == Upserted(c.plans, kernel, epoch, 0)[PlanKey(kernel, CATALOGUE[0].0, epoch) := CATALOGUE[0].1];
    assert Compile(c, kernel).plans == p1[PlanKey(kernel, CATALOGUE[1].0, epoch) := CATALOGUE[1].1];
    assert |CATALOGUE[0].0| != |CATALOGUE[1].0|;
  }

  lemma BumpSets(c: Cache, kernel: string, verb: string, plan: Plan)
    requires Catalogued(verb, plan)
    ensures Find(Bump(c, kernel), PlanKey(kernel, verb, EpochOf(Bump(c, kernel), kernel))) == Some(plan)
  {
    var epochs := Seeded(c.epochs, kernel);
    CompileSets(c.(epochs := epochs[kernel := epochs[kernel].(epoch := epochs[kernel].epoch + 1)]), kernel, verb, plan);
  }

  lemma ElsewhereSame(c: Cache, op: Op, kernel: string, verb: string)
    requires op.kernel != kernel
    ensures EpochOf(StepOp(c, op), kernel) == EpochOf(c, kernel)
    ensures Find(StepOp(c, op), PlanKey(kernel, verb, EpochOf(c, kernel))) == Find(c, PlanKey(kernel, verb, EpochOf(c, kernel)))
  {
    KernelsIsolated(c, op, PlanKey(kernel, verb, EpochOf(c, kernel)));
  }

  // ------------------------------------------------------------- what an apply does

  /** The plans after the registrations. */
  lemma FinishPlans(w: World, sess: Session, before: Gov, g: Gov, gate: Gate, prop: Body, epoch: nat, nonce: string)
    requires gate.Admitted?
    ensures var r := Finish(w, sess, before, g, gate, prop, epoch, nonce);
      && (r.reply.Enacted? && !(AddsAffordance(w, prop) && w.affordance(prop).Some?) ==> r.gov.cache == g.cache)
      && (r.reply.Enacted? && AddsAffordance(w, prop) && w.affordance(prop).Some? ==>
            r.gov.cache == g.cache.(plans := g.cache.plans[PlanKey(Project(sess), w.affordance(prop).value.0, epoch) := w.affordance(prop).value.1]))
      && (r.reply.Refused? ==> r.gov.cache == g.cache)
  {
    FinishContents(w, sess, before, g, gate, prop, epoch, nonce);
    var a := AffordancePhase(w, sess, g, prop, epoch, nonce);
    AffordanceCache(w, sess, g, prop, epoch, nonce);
    if a.Go? {
      ObligationKeepsPlans(w, sess, a.gov, prop, epoch);
    }
  }

  lemma AffordanceCache(w: World, sess: Session, g: Gov, prop: Body, epoch: nat, nonce: string)
    ensures var a := AffordancePhase(w, sess, g, prop, epoch, nonce);
      a.Go? ==> a.gov.cache == (if AddsAffordance(w, prop) && w.affordance(prop).Some?
        then g.cache.(plans := g.cache.plans[PlanKey(Project(sess), w.affordance(prop).value.0, epoch) := w.affordance(prop).value.1])
        else g.cache)
  {
  }

  /** Before the cascade the cache does not move. */
  lemma MidCache(w: World, sess: Session, g: Gov, prop: Body, nonce: string)
    ensures var mid := MidPoint(w, sess, g, prop, nonce); mid.Some? ==> mid.value.cache == g.cache
  {
    GraphPhaseShape(w, Project(sess), g, prop);
    var a := GraphPhase(w, Project(sess), g, prop);
    if a.Go? {
      PolicyCache(w, sess, a.gov, prop, nonce);
    }
  }

  lemma PolicyCache(w: World, sess: Session, g: Gov, prop: Body, nonce: string)
    ensures var p := PolicyPhase(w, sess, g, prop, nonce); (if p.Go? then p.gov else p.out.gov).cache == g.cache
  {
    var field, value := Nested(w, prop, "proposalDetail", "field"), Detail(prop, "value");
    if field.Some? && value.Some? {
      UpdateRows(w, sess, g, Some(KernelRowIri(Project(sess))), Some([(CORE + field.value, value.value)]), nonce, "");
    }
  }

  lemma HaltCache(w: World, sess: Session, g: Gov, gate: Gate, nonce: string)
    requires gate.Admitted? && gate.pid in g.store.instances
    requires MidPoint(w, sess, g, g.store.instances[gate.pid], nonce).None?
    ensures Enact(w, sess, g, gate, nonce).gov.cache == g.cache
  {
    var prop := g.store.instances[gate.pid];
    GraphPhaseShape(w, Project(sess), g, prop);
    var a := GraphPhase(w, Project(sess), g, prop);
    if a.Go? {
      PolicyCache(w, sess, a.gov, prop, nonce);
    }
  }

  /** The cache after an enactment, by whether its cascade stands. */
  ghost predicate CacheAfter(w: World, sess: Session, g: Gov, r: Outcome, mid: Option<Gov>, prop: Body) {
    var p := Project(sess);
    if mid.None? then r.gov.cache == g.cache
    else
      var bumped := Bump(g.cache, p);
      var n := EpochOf(bumped, p);
      && (forall q :: EpochOf(r.gov.cache, q) == EpochOf(bumped, q))
      && r.gov.cache.plans == if r.reply.Enacted? && AddsAffordance(w, prop) && w.affordance(prop).Some?
           then bumped.plans[PlanKey(p, w.affordance(prop).value.0, n) := w.affordance(prop).value.1] else bumped.plans
  }

  lemma CascadeCache(w: World, sess: Session, g: Gov, nonce: string)
    requires CascadePhase(w, sess, g, nonce).Advanced?
    ensures var c, bumped := CascadePhase(w, sess, g, nonce), Bump(g.cache, Project(sess));
      c.gov.cache.plans == bumped.plans && c.epoch == EpochOf(bumped, Project(sess)) && forall q :: EpochOf(c.gov.cache, q) == EpochOf(bumped, q)
  {
    CascadeRows(w, sess, g, nonce, "");
  }

  lemma AfterPolicyCache(w: World, sess: Session, g: Gov, mid: Gov, gate: Gate, nonce: string)
    requires gate.Admitted? && gate.pid in g.store.instances && mid.cache == g.cache
    ensures var r := AfterPolicy(w, sess, g, mid, gate, nonce);
      CacheAfter(w, sess, g, r,
        if CascadePhase(w, sess, mid, nonce).Advanced? && !r.reply.Aborted? then Some(mid) else None, g.store.instances[gate.pid])
  {
    var prop := g.store.instances[gate.pid];
    AfterPolicyContents(w, sess, g, mid, gate, nonce);
    var c := CascadePhase(w, sess, mid, nonce);
    if c.Advanced? {
      CascadeCache(w, sess, mid, nonce);
      FinishPlans(w, sess, g, c.gov, gate, prop, c.epoch, nonce);
      FinishContents(w, sess, g, c.gov, gate, prop, c.epoch, nonce);
    }
  }

  lemma EnactCache(w: World, sess: Session, g: Gov, gate: Gate, nonce: string)
    requires gate.Admitted? && gate.pid in g.store.instances
    ensures CacheAfter(w, sess, g, Enact(w, sess, g, gate, nonce), ReachedFrom(w, sess, g, gate, nonce), g.store.instances[gate.pid])
  {
    var prop := g.store.instances[gate.pid];
    BeforeCascade(w, sess, g, gate, nonce);
    MidCache(w, sess, g, prop, nonce);
    var mid := MidPoint(w, sess, g, prop, nonce);
    if mid.None? {
      HaltCache(w, sess, g, gate, nonce);
    } else {
      AfterPolicyCache(w, sess, g, mid.value, gate, nonce);
    }
  }

  // ------------------------------------------------------------------ whole runs

  /** The live plan after a committed or undone enactment. */
  lemma LivePlanAfter(w: World, sess: Session, g: Gov, r: Outcome, mid: Option<Gov>, prop: Body,
                      kernel: string, verb: string, plan: Plan, was: Option<Plan>)
    requires Catalogued(verb, plan) && LivePlan(g.cache, kernel, verb, plan, was) && CacheAfter(w, sess, g, r, mid, prop)
    ensures LivePlan(r.gov.cache, kernel, verb, plan,
      if Project(sess) != kernel || mid.None? then was else if r.reply.Enacted? then Registers(w, prop, verb) else None)
  {
    var p := Project(sess);
    if mid.Some? {
      if p == kernel {
        BumpSets(g.cache, p, verb, plan);
      } else {
        ElsewhereSame(g.cache, DoBump(p), kernel, verb);
      }
    }
  }

  lemma ApplyPlan(w: World, sess: Session, g: Gov, about: Option<string>, nonce: string, kernel: string, verb: string, plan: Plan, was: Option<Plan>)
    requires WorldOk(w) && GovWf(w, g) && Catalogued(verb, plan) && LivePlan(g.cache, kernel, verb, plan, was)
    ensures LivePlan(Apply(w, sess, g, about, nonce).gov.cache, kernel, verb, plan,
      StandInAfter(w, g, Enaction(sess, about, nonce), kernel, verb, was))
  {
    var gate := ApplyGate(w, sess, g, about);
    EnactedIsProposal(w, g, Enaction(sess, about, nonce));
    if gate.Admitted? {
      EnactPlan(w, sess, g, gate, nonce, kernel, verb, plan, was);
    }
  }

  lemma EnactPlan(w: World, sess: Session, g: Gov, gate: Gate, nonce: string, kernel: string, verb: string, plan: Plan, was: Option<Plan>)
    requires gate.Admitted? && gate.pid in g.store.instances
    requires Catalogued(verb, plan) && LivePlan(g.cache, kernel, verb, plan, was)
    ensures var r := Enact(w, sess, g, gate, nonce);
      LivePlan(r.gov.cache, kernel, verb, plan,
        if Project(sess) != kernel || ReachedFrom(w, sess, g, gate, nonce).None? then was
        else if r.reply.Enacted? then Registers(w, g.store.instances[gate.pid], verb) else None)
  {
    EnactCache(w, sess, g, gate, nonce);
    LivePlanAfter(w, sess, g, Enact(w, sess, g, gate, nonce), ReachedFrom(w, sess, g, gate, nonce),
                  g.store.instances[gate.pid], kernel, verb, plan, was);
  }

  /** Calls that only write rows leave the cache alone. */
  lemma RowActCache(w: World, g: Gov, a: Act)
    requires a.Propose? || a.Vote? || a.Update? || a.SealRow?
    ensures After(w, g, a).cache == g.cache
  {
    if a.Update? {
      UpdateRows(w, a.sess, g, a.ref, a.patch, a.nonce, "");
    }
  }

  lemma ActPlan(w: World, g: Gov, a: Act, kernel: string, verb: string, plan: Plan, was: Option<Plan>)
    requires WorldOk(w) && GovWf(w, g) && Catalogued(verb, plan) && LivePlan(g.cache, kernel, verb, plan, was)
    ensures LivePlan(After(w, g, a).cache, kernel, verb, plan, StandInAfter(w, g, a, kernel, verb, was))
  {
    if a.Enaction? {
      ApplyPlan(w, a.sess, g, a.about, a.nonce, kernel, verb, plan, was);
    } else if a.PlanRun? {
      RunPlan(g.cache, a.kernel, a.verb, kernel, verb, plan, was);
    } else {
      RowActCache(w, g, a);
    }
  }

  lemma RunPlan(c: Cache, k: string, v: string, kernel: string, verb: string, plan: Plan, was: Option<Plan>)
    requires Catalogued(verb, plan) && LivePlan(c, kernel, verb, plan, was)
    ensures LivePlan(AfterExec(c, k, v), kernel, verb, plan,
      if k == kernel && PlanKey(k, v, EpochOf(c, k)) !in c.plans then None else was)
  {
    if k == kernel {
      CompileSets(c, k, verb, plan);
    } else {
      ElsewhereSame(c, DoExec(k, v), kernel, verb);
    }
  }

  lemma {:induction false} RunPlans(w: World, g: Gov, acts: seq<Act>, kernel: string, verb: string, plan: Plan, was: Option<Plan>)
    requires WorldOk(w) && GovWf(w, g) && AdmissibleRun(w, g, acts)
    requires Catalogued(verb, plan) && LivePlan(g.cache, kernel, verb, plan, was)
    ensures LivePlan(RunTo(w, g, acts).cache, kernel, verb, plan, StandIn(w, g, acts, kernel, verb, was))
    decreases |acts|
  {
    if acts != [] {
      ActPlan(w, g, acts[0], kernel, verb, plan, was);
      ActKeeps(w, g, acts[0], "");
      RunPlans(w, After(w, g, acts[0]), acts[1..], kernel, verb, plan, StandInAfter(w, g, acts[0], kernel, verb, was));
    }
  }

  lemma ExecLive(c: Cache, kernel: string, verb: string, plan: Plan, standIn: Option<Plan>)
    requires Catalogued(verb, plan) && LivePlan(c, kernel, verb, plan, standIn)
    ensures Find(AfterExec(c, kernel, verb), PlanKey(kernel, verb, EpochOf(c, kernel))) == Some(if standIn.Some? then standIn.value else plan)
  {
    CompileSets(c, kernel, verb, plan);
  }

  /** GOVERNED PLANS. After every governed run from the empty database, `plan_exec` on
      a catalogued verb runs exactly the stand-in the run left for it, and where there
      is none the catalogue's own statement, at the kernel's current epoch. */
  lemma GovernedExec(w: World, run: (string, seq<Option<string>>) -> seq<Json>, acts: seq<Act>,
                     kernel: string, verb: string, plan: Plan, payload: Body)
    requires WorldOk(w) && AdmissibleRun(w, START, acts) && Catalogued(verb, plan)
    ensures var c, s := RunTo(w, START, acts).cache, StandIn(w, START, acts, kernel, verb, None);
      Exec(w, run, c, kernel, verb, payload) == Executed(w, run, Some(if s.Some? then s.value else plan), EpochOf(c, kernel), payload)
  {
    StartHolds(w, "");
    RunPlans(w, START, acts, kernel, verb, plan, None);
    ExecLive(RunTo(w, START, acts).cache, kernel, verb, plan, StandIn(w, START, acts, kernel, verb, None));
  }

  /** What that plan is run on: the payload's values for its parameters, if there are at
      most two; a registered plan with more is refused. */
  lemma GovernedBinds(w: World, run: (string, seq<Option<string>>) -> seq<Json>, acts: seq<Act>,
                      kernel: string, verb: string, plan: Plan, payload: Body) returns (args: seq<Option<string>>)
    requires WorldOk(w) && AdmissibleRun(w, START, acts) && Catalogued(verb, plan)
    ensures var c, s := RunTo(w, START, acts).cache, StandIn(w, START, acts, kernel, verb, None);
      var used := if s.Some? then s.value else plan;
      && Binds(w, used, payload, args)
      && Exec(w, run, c, kernel, verb, payload)
           == (if |used.params| > 2 then TooManyParams else Rows(EpochOf(c, kernel), run(used.statement, args)))
  {
    var s := StandIn(w, START, acts, kernel, verb, None);
    var used := if s.Some? then s.value else plan;
    args := Bound(w, used, payload);
    BoundBinds(w, used, payload);
    GovernedExec(w, run, acts, kernel, verb, plan, payload);
  }
}
