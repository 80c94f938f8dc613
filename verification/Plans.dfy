/** The epoch-keyed plan cache: `compile_plans`, `plan_exec`, `bump_epoch`. */
module Plans {
  import opened Text
  import opened Facts

  datatype PlanKey = PlanKey(kernel: string, verb: string, epoch: nat)

  /** A row of `kernel_epoch`; the digest is written by a governed apply. */
  datatype EpochRow = EpochRow(epoch: nat, digest: Option<string>)

  datatype Cache = Cache(epochs: map<string, EpochRow>, plans: map<PlanKey, Plan>)

  const NOTHING := Cache(map[], map[])

  /** The sealed read surface every kernel compiles. */
  const CATALOGUE: seq<(string, Plan)> := [
    ("instance.get", Plan("SELECT body FROM ckp.instances WHERE id = $1", ["id"])),
    ("instance.count", Plan("SELECT count(*) AS n FROM ckp.instances", []))]

  ghost predicate Catalogued(verb: string, plan: Plan) {
    exists i :: 0 <= i < |CATALOGUE| && CATALOGUE[i] == (verb, plan)
  }

  // ------------------------------------------------------------- specification

  function Seeded(epochs: map<string, EpochRow>, kernel: string): map<string, EpochRow> {
    if kernel in epochs then epochs else epochs[kernel := EpochRow(1, None)]
  }

  /** The first `n` catalogue entries upserted at one epoch. */
  function Upserted(plans: map<PlanKey, Plan>, kernel: string, epoch: nat, n: nat): map<PlanKey, Plan>
    requires n <= |CATALOGUE|
  {
    if n == 0 then plans
    else Upserted(plans, kernel, epoch, n - 1)[PlanKey(kernel, CATALOGUE[n - 1].0, epoch) := CATALOGUE[n - 1].1]
  }

  function Compile(c: Cache, kernel: string): Cache {
    var epochs := Seeded(c.epochs, kernel);
    Cache(epochs, Upserted(c.plans, kernel, epochs[kernel].epoch, |CATALOGUE|))
  }

  function Bump(c: Cache, kernel: string): Cache {
    var epochs := Seeded(c.epochs, kernel);
    Compile(c.(epochs := epochs[kernel := epochs[kernel].(epoch := epochs[kernel].epoch + 1)]), kernel)
  }

  function EpochOf(c: Cache, kernel: string): nat {
    if kernel in c.epochs then c.epochs[kernel].epoch else 1
  }

  datatype ExecReply = NoPlan(epoch: nat) | TooManyParams | Rows(epoch: nat, rows: seq<Json>)

  /** The values bound to a statement, in the plan's declared order. */
  function Bound(w: World, plan: Plan, payload: Body): seq<Option<string>> {
    seq(|plan.params|, i requires 0 <= i < |plan.params| => Field(w, payload, plan.params[i]))
  }

  function Find(c: Cache, key: PlanKey): Option<Plan> {
    if key in c.plans then Some(c.plans[key]) else None
  }

  function Executed(w: World, run: (string, seq<Option<string>>) -> seq<Json>, plan: Option<Plan>, epoch: nat, payload: Body): ExecReply {
    if plan.None? then NoPlan(epoch)
    else if |plan.value.params| > 2 then TooManyParams
    else Rows(epoch, run(plan.value.statement, Bound(w, plan.value, payload)))
  }

  /** The cache after `plan_exec`: recompiled when the plan was missing. */
  function AfterExec(c: Cache, kernel: string, verb: string): Cache {
    if PlanKey(kernel, verb, EpochOf(c, kernel)) in c.plans then c else Compile(c, kernel)
  }

  function Exec(w: World, run: (string, seq<Option<string>>) -> seq<Json>, c: Cache, kernel: string, verb: string, payload: Body): ExecReply {
    var epoch := EpochOf(c, kernel);
    Executed(w, run, Find(AfterExec(c, kernel, verb), PlanKey(kernel, verb, epoch)), epoch, payload)
  }

  // -------------------------------------------------------------- the procedures

  /** `ckp.plans` and `ckp.kernel_epoch`, with the procedures that update them. */
  class PlanTables {
    var epochs: map<string, EpochRow>
    var plans: map<PlanKey, Plan>

    function Contents(): Cache reads this { Cache(epochs, plans) }

    constructor ()
      ensures Contents() == NOTHING
    {
      epochs, plans := map[], map[];
    }

    method CompilePlans(kernel: string) returns (n: nat)
      modifies this
      ensures Contents() == Compile(old(Contents()), kernel) && n == |CATALOGUE|
    {
      if kernel !in epochs {
        epochs := epochs[kernel := EpochRow(1, None)];
      }
      var epoch := epochs[kernel].epoch;
      n := 0;
      while n < |CATALOGUE|
        invariant n <= |CATALOGUE|
        invariant epochs == Seeded(old(epochs), kernel) && epoch == epochs[kernel].epoch
        invariant plans == Upserted(old(plans), kernel, epoch, n)
      {
        plans := plans[PlanKey(kernel, CATALOGUE[n].0, epoch) := CATALOGUE[n].1];
        n := n + 1;
      }
    }

    method BumpEpoch(kernel: string) returns (epoch: nat)
      modifies this
      ensures Contents() == Bump(old(Contents()), kernel)
      ensures epoch == EpochOf(old(Contents()), kernel) + 1 == EpochOf(Contents(), kernel)
    {
      if kernel !in epochs {
        epochs := epochs[kernel := EpochRow(1, None)];
      }
      epochs := epochs[kernel := epochs[kernel].(epoch := epochs[kernel].epoch + 1)];
      epoch := epochs[kernel].epoch;
      var _ := CompilePlans(kernel);
    }

    method PlanExec(w: World, run: (string, seq<Option<string>>) -> seq<Json>, kernel: string, verb: string, payload: Body)
      returns (reply: ExecReply)
      modifies this
      ensures Contents() == AfterExec(old(Contents()), kernel, verb)
      ensures reply == Exec(w, run, old(Contents()), kernel, verb, payload)
    {
      var epoch := if kernel in epochs then epochs[kernel].epoch else 1;
      var key := PlanKey(kernel, verb, epoch);
      if key !in plans {
        var _ := CompilePlans(kernel);
      }
      if key !in plans {
        return NoPlan(epoch);
      }
      var plan := plans[key];
      if |plan.params| > 2 {
        return TooManyParams;
      }
      var a1 := if |plan.params| >= 1 then Field(w, payload, plan.params[0]) else None;
      var a2 := if |plan.params| == 2 then Field(w, payload, plan.params[1]) else None;
      var args := [a1, a2][..|plan.params|];
      assert args == Bound(w, plan, payload);
      reply := Rows(epoch, run(plan.statement, args));
    }
  }

  // ------------------------------------------------------------------ whole runs

  datatype Op = DoCompile(kernel: string) | DoBump(kernel: string) | DoExec(kernel: string, verb: string)

  function StepOp(c: Cache, op: Op): Cache {
    match op
    case DoCompile(k) => Compile(c, k)
    case DoBump(k) => Bump(c, k)
    case DoExec(k, v) => AfterExec(c, k, v)
  }

  function RunOps(c: Cache, ops: seq<Op>): Cache
    decreases |ops|
  {
    if ops == [] then c else RunOps(StepOp(c, ops[0]), ops[1..])
  }

  /** Whatever is cached is what the catalogue says. */
  ghost predicate Faithful(c: Cache) {
    forall k :: k in c.plans ==> Catalogued(k.verb, c.plans[k])
  }

  lemma {:induction false} UpsertedExactly(plans: map<PlanKey, Plan>, kernel: string, epoch: nat, n: nat, k: PlanKey)
    requires n <= |CATALOGUE|
    ensures k in Upserted(plans, kernel, epoch, n) ==>
      || (k in plans && Upserted(plans, kernel, epoch, n)[k] == plans[k])
      || (k.kernel == kernel && k.epoch == epoch && Catalogued(k.verb, Upserted(plans, kernel, epoch, n)[k]))
    ensures k.kernel != kernel || k.epoch != epoch ==>
      (k in Upserted(plans, kernel, epoch, n) <==> k in plans)
  {
    if n > 0 {
      UpsertedExactly(plans, kernel, epoch, n - 1, k);
      assert Catalogued(CATALOGUE[n - 1].0, CATALOGUE[n - 1].1);
    }
  }

  lemma CompileFaithful(c: Cache, kernel: string)
    requires Faithful(c)
    ensures Faithful(Compile(c, kernel))
  {
    var c' := Compile(c, kernel);
    forall k | k in c'.plans ensures Catalogued(k.verb, c'.plans[k]) {
      UpsertedExactly(c.plans, kernel, c'.epochs[kernel].epoch, |CATALOGUE|, k);
    }
  }

  lemma {:induction false} RunFaithful(c: Cache, ops: seq<Op>)
    requires Faithful(c)
    ensures Faithful(RunOps(c, ops))
    decreases |ops|
  {
    if ops != [] {
      match ops[0] {
        case DoCompile(k) => CompileFaithful(c, k);
        case DoBump(k) =>
          var epochs := Seeded(c.epochs, k);
          CompileFaithful(c.(epochs := epochs[k := epochs[k].(epoch := epochs[k].epoch + 1)]), k);
        case DoExec(k, v) => CompileFaithful(c, k);
      }
      RunFaithful(StepOp(c, ops[0]), ops[1..]);
    }
  }

  /** A catalogue verb names one plan. */
  lemma CatalogueFunctional(verb: string, p: Plan, q: Plan)
    requires Catalogued(verb, p) && Catalogued(verb, q)
    ensures p == q
  {
    var i :| 0 <= i < |CATALOGUE| && CATALOGUE[i] == (verb, p);
    var j :| 0 <= j < |CATALOGUE| && CATALOGUE[j] == (verb, q);
    assert |CATALOGUE[0].0| != |CATALOGUE[1].0|;
  }

  lemma CompileCovers(c: Cache, kernel: string, i: nat)
    requires i < |CATALOGUE|
    ensures PlanKey(kernel, CATALOGUE[i].0, EpochOf(c, kernel)) in Compile(c, kernel).plans
  {
    var epoch := EpochOf(c, kernel);
    var p1 := Upserted(c.plans, kernel, epoch, 1);
    assert Compile(c, kernel).plans == Upserted(c.plans, kernel, epoch, 2);
    assert PlanKey(kernel, CATALOGUE[0].0, epoch) in p1;
  }

  /** After any run on any kernels, `plan_exec` on a catalogued verb answers what
      the catalogue statement evaluates to, tagged with the kernel's current
      epoch; it never answers no_plan. */
  lemma ExecRefinesCatalogue(w: World, run: (string, seq<Option<string>>) -> seq<Json>, ops: seq<Op>,
                             kernel: string, verb: string, plan: Plan, payload: Body)
    requires Catalogued(verb, plan)
    ensures var c := RunOps(NOTHING, ops);
      && Exec(w, run, c, kernel, verb, payload) == Rows(EpochOf(c, kernel), run(plan.statement, Bound(w, plan, payload)))
      && EpochOf(AfterExec(c, kernel, verb), kernel) == EpochOf(c, kernel)
  {
    RunFaithful(NOTHING, ops);
    var c := RunOps(NOTHING, ops);
    var key := PlanKey(kernel, verb, EpochOf(c, kernel));
    var c' := AfterExec(c, kernel, verb);
    var i :| 0 <= i < |CATALOGUE| && CATALOGUE[i] == (verb, plan);
    CompileCovers(c, kernel, i);
    CompileFaithful(c, kernel);
    assert key in c'.plans;
    CatalogueFunctional(verb, plan, c'.plans[key]);
    assert |plan.params| <= 2;
  }

  lemma UpsertedElsewhere(c: Cache, kernel: string, k: PlanKey)
    requires k.kernel != kernel
    ensures Find(Compile(c, kernel), k) == Find(c, k)
  {
    UpsertedExactly(c.plans, kernel, EpochOf(c, kernel), |CATALOGUE|, k);
  }

  /** A step on one kernel leaves every other kernel's plans and epoch alone. */
  lemma KernelsIsolated(c: Cache, op: Op, k: PlanKey)
    requires k.kernel != op.kernel
    ensures Find(StepOp(c, op), k) == Find(c, k)
    ensures k.kernel in StepOp(c, op).epochs <==> k.kernel in c.epochs
    ensures k.kernel in c.epochs ==> StepOp(c, op).epochs[k.kernel] == c.epochs[k.kernel]
  {
    UpsertedElsewhere(c, op.kernel, k);
    var epochs := Seeded(c.epochs, op.kernel);
    UpsertedElsewhere(c.(epochs := epochs[op.kernel := epochs[op.kernel].(epoch := epochs[op.kernel].epoch + 1)]), op.kernel, k);
  }

  /** The epoch rows after a bump: one row moved, or one begun at 2. */
  lemma BumpRows(c: Cache, kernel: string)
    ensures Bump(c, kernel).epochs ==
      if kernel in c.epochs then c.epochs[kernel := c.epochs[kernel].(epoch := c.epochs[kernel].epoch + 1)]
      else c.epochs[kernel := EpochRow(2, None)]
  {
    var epochs := Seeded(c.epochs, kernel);
    assert Seeded(epochs[kernel := epochs[kernel].(epoch := epochs[kernel].epoch + 1)], kernel)
      == epochs[kernel := epochs[kernel].(epoch := epochs[kernel].epoch + 1)];
  }

  /** A bump moves to a strictly later epoch whose whole catalogue is compiled. */
  lemma BumpRecompiles(c: Cache, kernel: string, i: nat)
    requires i < |CATALOGUE|
    ensures EpochOf(Bump(c, kernel), kernel) == EpochOf(c, kernel) + 1
    ensures PlanKey(kernel, CATALOGUE[i].0, EpochOf(c, kernel) + 1) in Bump(c, kernel).plans
  {
    var epochs := Seeded(c.epochs, kernel);
    CompileCovers(c.(epochs := epochs[kernel := epochs[kernel].(epoch := epochs[kernel].epoch + 1)]), kernel, i);
  }

  // ------------------------------------------------------------- what is bound

  /** The values a payload gives to a plan's parameters, in their order: the text under
      each name, and NULL where it is absent or null. */
  ghost predicate Binds(w: World, plan: Plan, payload: Body, args: seq<Option<string>>) {
    && |args| == |plan.params|
    && forall i :: 0 <= i < |args| ==>
      var key := plan.params[i];
      && (key !in payload || payload[key] == Null ==> args[i] == None)
      && (forall x :: key in payload && payload[key] == Str(x) ==> args[i] == Some(x))
      && (forall n :: key in payload && payload[key] == Num(n) ==> args[i] == Some(if n < 0 then "-" + Print(-n) else Print(n)))
      && (forall b :: key in payload && payload[key] == Bool(b) ==> args[i] == Some(if b then "true" else "false"))
  }

  lemma BoundBinds(w: World, plan: Plan, payload: Body)
    ensures Binds(w, plan, payload, Bound(w, plan, payload))
  {
  }

  /** After any run, `plan_exec` on a catalogued verb runs its statement on the values
      the payload gives its parameters. */
  lemma ExecBinds(w: World, run: (string, seq<Option<string>>) -> seq<Json>, ops: seq<Op>,
                  kernel: string, verb: string, plan: Plan, payload: Body) returns (args: seq<Option<string>>)
    requires Catalogued(verb, plan)
    ensures Binds(w, plan, payload, args)
    ensures var c := RunOps(NOTHING, ops);
      Exec(w, run, c, kernel, verb, payload) == Rows(EpochOf(c, kernel), run(plan.statement, args))
  {
    args := Bound(w, plan, payload);
    BoundBinds(w, plan, payload);
    ExecRefinesCatalogue(w, run, ops, kernel, verb, plan, payload);
  }

  /** The two verbs of the catalogue, spelled out. */
  lemma CatalogueAnswers(w: World, run: (string, seq<Option<string>>) -> seq<Json>, ops: seq<Op>, kernel: string, payload: Body, x: string)
    requires "id" in payload && payload["id"] == Str(x)
    ensures var c := RunOps(NOTHING, ops);
      && Exec(w, run, c, kernel, "instance.get", payload)
           == Rows(EpochOf(c, kernel), run("SELECT body FROM ckp.instances WHERE id = $1", [Some(x)]))
      && Exec(w, run, c, kernel, "instance.count", payload)
           == Rows(EpochOf(c, kernel), run("SELECT count(*) AS n FROM ckp.instances", []))
  {
    var one, two := CATALOGUE[0].1, CATALOGUE[1].1;
    assert CATALOGUE[0] == ("instance.get", one) && CATALOGUE[1] == ("instance.count", two);
    assert Catalogued("instance.get", one) && Catalogued("instance.count", two);
    var a := ExecBinds(w, run, ops, kernel, "instance.get", one, payload);
    var b := ExecBinds(w, run, ops, kernel, "instance.count", two, payload);
    assert a == [Some(x)] && b == [];
  }
}
