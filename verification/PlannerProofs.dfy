/** What every loadout of the planner satisfies (sched/planner.py:1-21,182-385). */
module PlannerProofs {
  import opened Prelude
  import opened Budget
  import opened Planner

  /** The plan ends up on the GPUs: there is one, it is big enough, and the mandatory slots fit it. */
  predicate OnGpus(m: Machine, s: Settings, o: Overrides, k: KvType, v: KvType) {
    && m.gpus != [] && TierFor(m.gpus[0]).Some?
    && !PickOrchestrator(EnvOf(m, s, o, k, v), TierFor(m.gpus[0]).value, m.gpus[0], s.orchestratorCtx).Overflow?
  }

  function Orch(m: Machine, s: Settings, o: Overrides, k: KvType, v: KvType): Orchestration
    requires OnGpus(m, s, o, k, v)
  {
    PickOrchestrator(EnvOf(m, s, o, k, v), TierFor(m.gpus[0]).value, m.gpus[0], s.orchestratorCtx)
  }

  function Ladder(s: Settings): seq<seq<Model>> {
    Allowed(s.preferWorkers, WORKER_LADDER)
  }

  function RungOf(m: Machine, s: Settings, o: Overrides, k: KvType, v: KvType): nat
    requires OnGpus(m, s, o, k, v)
  {
    Rung(EnvOf(m, s, o, k, v), TierFor(m.gpus[0]).value, m, s, Orch(m, s, o, k, v))
  }

  function RungTotal(env: Env, workerCtx: int, rung: seq<Model>): int {
    Sum(RungCosts(env, workerCtx, rung))
  }

  // ---- adding up ----

  /** VRAM planned on one GPU. */
  function OnGpu(slots: seq<Slot>, g: nat): int {
    if slots == [] then 0
    else OnGpu(slots[..|slots| - 1], g) + if slots[|slots| - 1].gpu == Some(g) then slots[|slots| - 1].vram else 0
  }

  lemma {:induction false} WorkersAddUp(base: seq<Slot>, costs: seq<Cost>, gpu: nat, g: nat)
    ensures Total(base + WorkerSlots(costs, gpu)) == Total(base) + Sum(costs)
    ensures OnGpu(base + WorkerSlots(costs, gpu), g) == OnGpu(base, g) + if g == gpu then Sum(costs) else 0
    decreases |costs|
  {
    if costs == [] {
      assert base + WorkerSlots(costs, gpu) == base;
    } else {
      var n := |costs| - 1;
      var all := base + WorkerSlots(costs, gpu);
      assert all[..|all| - 1] == base + WorkerSlots(costs[..n], gpu);
      WorkersAddUp(base, costs[..n], gpu, g);
    }
  }

  lemma MandatoryAddsUp(env: Env, tier: Tier, ctx: int, g: nat)
    ensures Total(Mandatory(env, tier, ctx)) == OrchCost(env, ctx).Total() + UtilityCost(env, tier).Total()
    ensures OnGpu(Mandatory(env, tier, ctx), g) == if g == 0 then Total(Mandatory(env, tier, ctx)) else 0
  {
    TwoSlots(Mandatory(env, tier, ctx), g);
  }

  lemma TwoSlots(slots: seq<Slot>, g: nat)
    requires |slots| == 2 && slots[0].gpu == slots[1].gpu == Some(0)
    ensures Total(slots) == slots[0].vram + slots[1].vram
    ensures OnGpu(slots, g) == if g == 0 then slots[0].vram + slots[1].vram else 0
  {
    var one := slots[..1];
    assert one[..0] == [];
    assert Total(one) == slots[0].vram && OnGpu(one, g) == if g == 0 then slots[0].vram else 0;
    assert slots[..|slots| - 1] == one;
  }

  lemma {:induction false} GpuWithinAll(gpus: seq<nat>, a: nat, b: nat)
    requires a < |gpus| && b < |gpus|
    ensures gpus[a] <= TotalVram(gpus)
    ensures a != b ==> gpus[a] + gpus[b] <= TotalVram(gpus)
    decreases |gpus|
  {
    var n := |gpus| - 1;
    assert TotalVram(gpus) == TotalVram(gpus[..n]) + gpus[n] && gpus[n] >= 0;
    if a < n {
      GpuWithinAll(gpus[..n], a, if b < n then b else a);
      assert gpus[..n][a] == gpus[a];
    }
    if b < n {
      GpuWithinAll(gpus[..n], b, b);
      assert gpus[..n][b] == gpus[b];
    }
  }

  // ---- first fit ----

  lemma {:induction false} FirstRungFits(env: Env, ctx: int, pool: int, ladder: seq<seq<Model>>)
    ensures var n := FirstRung(env, ctx, pool, ladder);
            && (n < |ladder| ==> RungTotal(env, ctx, ladder[n]) <= pool)
            && (forall i | 0 <= i < n :: RungTotal(env, ctx, ladder[i]) > pool)
    decreases |ladder|
  {
    if ladder != [] && RungTotal(env, ctx, ladder[0]) > pool {
      FirstRungFits(env, ctx, pool, ladder[1..]);
      var n := FirstRung(env, ctx, pool, ladder);
      forall i | 0 <= i < n ensures RungTotal(env, ctx, ladder[i]) > pool {
        assert i > 0 ==> ladder[i] == ladder[1..][i - 1];
      }
    }
  }

  lemma {:induction false} RungMonotone(env: Env, ctx: int, pool: int, more: int, ladder: seq<seq<Model>>)
    requires pool <= more
    ensures FirstRung(env, ctx, more, ladder) <= FirstRung(env, ctx, pool, ladder)
    decreases |ladder|
  {
    if ladder != [] {
      RungMonotone(env, ctx, pool, more, ladder[1..]);
    }
  }

  lemma ChosenWorkersFit(env: Env, tier: Tier, m: Machine, s: Settings, o: Orchestration)
    requires m.gpus != []
    ensures var pool, rung := WorkerPool(env, tier, m.gpus, o), RungAt(Ladder(s), Rung(env, tier, m, s, o));
            rung == [] || RungTotal(env, WorkerCtx(s), rung) <= pool
  {
    FirstRungFits(env, WorkerCtx(s), WorkerPool(env, tier, m.gpus, o), Ladder(s));
  }

  lemma {:induction false} FirstContextFits(env: Env, other: int, room: int, ladder: seq<int>)
    ensures var c := FirstContext(env, other, room, ladder);
            c.Some? ==> c.value in ladder && OrchCost(env, c.value).Total() + other <= room
    decreases |ladder|
  {
    if ladder != [] {
      FirstContextFits(env, other, room, ladder[1..]);
    }
  }

  /** What the mandatory slots need is there: within the margin when fitted, within the card when tight. */
  lemma MandatoryFits(m: Machine, s: Settings, o: Overrides, k: KvType, v: KvType)
    requires OnGpus(m, s, o, k, v)
    ensures var env, tier, orch := EnvOf(m, s, o, k, v), TierFor(m.gpus[0]).value, Orch(m, s, o, k, v);
            var need := OrchCost(env, CtxOf(orch)).Total() + UtilityCost(env, tier).Total();
            need <= if orch.Tight? then m.gpus[0] else m.gpus[0] - Margin(m.gpus[0])
  {
    var env, tier := EnvOf(m, s, o, k, v), TierFor(m.gpus[0]).value;
    FirstContextFits(env, UtilityCost(env, tier).Total(), m.gpus[0] - Margin(m.gpus[0]), ContextLadder(s.orchestratorCtx));
  }

  // ---- every GPU loadout fits ----

  /** The sums of a loadout on one or several GPUs. */
  lemma LoadoutSums(m: Machine, s: Settings, o: Overrides, k: KvType, v: KvType, g: nat)
    requires OnGpus(m, s, o, k, v)
    ensures var env, tier, orch := EnvOf(m, s, o, k, v), TierFor(m.gpus[0]).value, Orch(m, s, o, k, v);
            var need := OrchCost(env, CtxOf(orch)).Total() + UtilityCost(env, tier).Total();
            var work := RungTotal(env, WorkerCtx(s), RungAt(Ladder(s), RungOf(m, s, o, k, v)));
            var l := Plan(m, s, o, k, v);
            && Total(l.slots) == need + work && l.headroom == TotalVram(m.gpus) - (need + work)
            && OnGpu(l.slots, g) == (if g == 0 then need else 0) + (if g == (if |m.gpus| > 1 then 1 else 0) then work else 0)
  {
    var env, tier, orch := EnvOf(m, s, o, k, v), TierFor(m.gpus[0]).value, Orch(m, s, o, k, v);
    MandatoryAddsUp(env, tier, CtxOf(orch), g);
    WorkersAddUp(Mandatory(env, tier, CtxOf(orch)), RungCosts(env, WorkerCtx(s), RungAt(Ladder(s), RungOf(m, s, o, k, v))),
                 if |m.gpus| > 1 then 1 else 0, g);
  }

  lemma NoWorkersCostNothing(env: Env, ctx: int)
    ensures RungTotal(env, ctx, []) == 0
  {
    assert RungCosts(env, ctx, []) == [];
  }

  /**
   Every GPU loadout fits the physical VRAM of each GPU, leaves non-negative headroom, and keeps the margin
   on each GPU it uses, except on GPU 0 in a tight fit.
   */
  lemma LoadoutFits(m: Machine, s: Settings, o: Overrides, k: KvType, v: KvType, g: nat)
    requires OnGpus(m, s, o, k, v) && g < |m.gpus|
    ensures var l, used := Plan(m, s, o, k, v), OnGpu(Plan(m, s, o, k, v).slots, g);
            && l.headroom >= 0
            && used <= m.gpus[g]
            && (g == 0 && !Orch(m, s, o, k, v).Tight? ==> used <= m.gpus[0] - Margin(m.gpus[0]))
            && (g == 1 ==> used == 0 || used <= m.gpus[1] - Margin(m.gpus[1]))
            && (g >= 2 ==> used == 0)
  {
    LoadoutSums(m, s, o, k, v, g);
    MandatoryFits(m, s, o, k, v);
    var env, tier, orch := EnvOf(m, s, o, k, v), TierFor(m.gpus[0]).value, Orch(m, s, o, k, v);
    ChosenWorkersFit(env, tier, m, s, orch);
    NoWorkersCostNothing(env, WorkerCtx(s));
    GpuWithinAll(m.gpus, 0, if |m.gpus| > 1 then 1 else 0);
  }

  lemma TightIsAnnounced(m: Machine, s: Settings, o: Overrides, k: KvType, v: KvType)
    requires OnGpus(m, s, o, k, v)
    ensures VramTight in Plan(m, s, o, k, v).notices <==> Orch(m, s, o, k, v).Tight?
  {
    var env, orch := EnvOf(m, s, o, k, v), Orch(m, s, o, k, v);
    assert VramTight in MandatoryNotices(env, m, s, orch) <==> orch.Tight?;
  }

  lemma WorkerShape(env: Env, ctx: int, rung: seq<Model>, gpu: nat, i: nat)
    requires i < |rung|
    ensures var slot := WorkerSlots(RungCosts(env, ctx, rung), gpu)[i];
            && slot.port == PORT_POOL_START + 2 + i && slot.family == env.family && slot.gpu == Some(gpu)
            && slot.role == Worker(i + 1) && slot.model == rung[i]
  {
  }

  /** The i-th slot: its port, family and GPU, and its role and model in the order orchestrator, utility, workers. */
  predicate SlotShape(slot: Slot, i: nat, family: Family, workerGpu: nat, rung: seq<Model>) {
    && slot.port == PORT_POOL_START + i && slot.family == family && slot.gpu == Some(if i < 2 then 0 else workerGpu)
    && slot.role == (if i == 0 then Orchestrator else if i == 1 then Utility else Worker(i - 1))
    && (i == 0 ==> slot.model.Bonsai27B?)
    && (i >= 2 ==> i - 2 < |rung| && slot.model == rung[i - 2])
  }

  lemma AssembledShape(env: Env, tier: Tier, ctx: int, workerCtx: int, rung: seq<Model>, gpu: nat, i: nat)
    requires i < 2 + |rung|
    ensures var slots := Mandatory(env, tier, ctx) + WorkerSlots(RungCosts(env, workerCtx, rung), gpu);
            |slots| == 2 + |rung| && SlotShape(slots[i], i, env.family, gpu, rung)
  {
    var workers := WorkerSlots(RungCosts(env, workerCtx, rung), gpu);
    if i >= 2 {
      WorkerShape(env, workerCtx, rung, gpu, i - 2);
      assert (Mandatory(env, tier, ctx) + workers)[i] == workers[i - 2];
    }
  }

  lemma PlannedSlots(m: Machine, s: Settings, o: Overrides, k: KvType, v: KvType)
    requires OnGpus(m, s, o, k, v)
    ensures Plan(m, s, o, k, v).slots
         == Mandatory(EnvOf(m, s, o, k, v), TierFor(m.gpus[0]).value, CtxOf(Orch(m, s, o, k, v)))
            + WorkerSlots(RungCosts(EnvOf(m, s, o, k, v), WorkerCtx(s), RungAt(Ladder(s), RungOf(m, s, o, k, v))),
                          if |m.gpus| > 1 then 1 else 0)
  {
  }

  /** Orchestrator and utility on GPU 0, the chosen rung's workers on the last used GPU, on consecutive ports, one family. */
  lemma LoadoutShape(m: Machine, s: Settings, o: Overrides, k: KvType, v: KvType, i: nat)
    requires OnGpus(m, s, o, k, v) && i < |Plan(m, s, o, k, v).slots|
    ensures SlotShape(Plan(m, s, o, k, v).slots[i], i, Effective(m, s), if |m.gpus| > 1 then 1 else 0,
                      RungAt(Ladder(s), RungOf(m, s, o, k, v)))
  {
    PlannedSlots(m, s, o, k, v);
    AssembledShape(EnvOf(m, s, o, k, v), TierFor(m.gpus[0]).value, CtxOf(Orch(m, s, o, k, v)), WorkerCtx(s),
                   RungAt(Ladder(s), RungOf(m, s, o, k, v)), if |m.gpus| > 1 then 1 else 0, i);
  }

  // ---- the worker ladder ----

  predicate Descending(env: Env, ctx: int, ladder: seq<seq<Model>>) {
    forall i, j | 0 <= i < j < |ladder| :: RungTotal(env, ctx, ladder[i]) >= RungTotal(env, ctx, ladder[j])
  }

  lemma SumSmall(a: Cost, b: Cost)
    ensures Sum([a]) == a.Total() && Sum([a, b]) == a.Total() + b.Total()
  {
    assert [a][..0] == [] && [a, b][..1] == [a];
  }

  lemma RungOfOne(env: Env, ctx: int, a: Model)
    ensures RungTotal(env, ctx, [a]) == WorkerCost(env, ctx, a).Total()
  {
    assert RungCosts(env, ctx, [a]) == [WorkerCost(env, ctx, a)];
    SumSmall(WorkerCost(env, ctx, a), WorkerCost(env, ctx, a));
  }

  lemma RungOfTwo(env: Env, ctx: int, a: Model, b: Model)
    ensures RungTotal(env, ctx, [a, b]) == WorkerCost(env, ctx, a).Total() + WorkerCost(env, ctx, b).Total()
  {
    assert RungCosts(env, ctx, [a, b]) == [WorkerCost(env, ctx, a), WorkerCost(env, ctx, b)];
    SumSmall(WorkerCost(env, ctx, a), WorkerCost(env, ctx, b));
  }

  /** Analytic costs of the three worker models at one context. */
  lemma AnalyticCosts(env: Env, ctx: int)
    requires env.overrides == map[] && 0 <= ctx <= MaxCtx(Bonsai1B7)
    ensures var c8, c4 := WorkerCost(env, ctx, Bonsai8B).Total(), WorkerCost(env, ctx, Bonsai4B).Total();
            var c1 := WorkerCost(env, ctx, Bonsai1B7).Total();
            c8 >= c4 >= c1 >= 0 && c4 + c4 >= c8
  {
    KvOrder(ctx, env.k, env.v);
    assert Mib(203) == 2079 && Mib(108) == 1106 && Mib(100) == 1024 && Mib(53) == 543 && Mib(43) == 440 && Mib(23) == 236;
    assert Mib(60) == 614;
  }

  /** The KV cache of the 4B is as large as the 8B's, and at least as large as the 1.7B's. */
  lemma KvOrder(ctx: nat, k: KvType, v: KvType)
    ensures KvMb(Bonsai8B, ctx, k, v) == KvMb(Bonsai4B, ctx, k, v) >= KvMb(Bonsai1B7, ctx, k, v) >= 0
  {
    var unit := KvSixteenths(k) + KvSixteenths(v);
    Times(unit, KvElements(Bonsai1B7), KvElements(Bonsai4B));
    RoundedOrder(KvElements(Bonsai1B7) * unit, KvElements(Bonsai4B) * unit, ctx);
  }

  lemma RoundedOrder(small: nat, large: nat, ctx: nat)
    requires small <= large
    ensures 0 <= Round(small * ctx, 16 * BYTES_PER_MIB) <= Round(large * ctx, 16 * BYTES_PER_MIB)
  {
    Times(ctx, small, large);
    Times(ctx, 0, small);
    RoundMonotone(small * ctx, large * ctx, 16 * BYTES_PER_MIB);
    RoundMonotone(0, small * ctx, 16 * BYTES_PER_MIB);
  }

  /** Analytic rung costs never increase down the ladder, for any context and KV types. */
  lemma AnalyticLadderDescends(env: Env, ctx: int)
    requires env.overrides == map[] && 0 <= ctx <= MaxCtx(Bonsai1B7)
    ensures Descending(env, ctx, WORKER_LADDER)
  {
    AnalyticCosts(env, ctx);
    RungOfTwo(env, ctx, Bonsai8B, Bonsai8B);
    RungOfTwo(env, ctx, Bonsai8B, Bonsai4B);
    RungOfTwo(env, ctx, Bonsai4B, Bonsai4B);
    RungOfOne(env, ctx, Bonsai8B);
    RungOfOne(env, ctx, Bonsai4B);
    RungOfOne(env, ctx, Bonsai1B7);
    NoWorkersCostNothing(env, ctx);
    forall i | 0 <= i < 6 ensures RungTotal(env, ctx, WORKER_LADDER[i]) >= RungTotal(env, ctx, WORKER_LADDER[i + 1]) {
    }
    NeighboursDescend(env, ctx, WORKER_LADDER);
  }

  lemma {:induction false} NeighboursDescend(env: Env, ctx: int, ladder: seq<seq<Model>>)
    requires forall i | 0 <= i < |ladder| - 1 :: RungTotal(env, ctx, ladder[i]) >= RungTotal(env, ctx, ladder[i + 1])
    ensures Descending(env, ctx, ladder)
    decreases |ladder|
  {
    if |ladder| > 1 {
      var front := ladder[..|ladder| - 1];
      assert forall i | 0 <= i < |front| :: front[i] == ladder[i];
      NeighboursDescend(env, ctx, front);
      forall i, j | 0 <= i < j < |ladder| ensures RungTotal(env, ctx, ladder[i]) >= RungTotal(env, ctx, ladder[j]) {
        assert ladder[i] == front[i] && front[|front| - 1] == ladder[|ladder| - 2];
      }
    }
  }

  lemma {:induction false} AllowedRungs(prefer: nat, ladder: seq<seq<Model>>)
    ensures forall r :: r in Allowed(prefer, ladder) <==> r in ladder && |r| <= prefer
    decreases |ladder|
  {
    if ladder != [] {
      AllowedRungs(prefer, ladder[1..]);
      assert ladder == [ladder[0]] + ladder[1..];
    }
  }

  lemma {:induction false} AllowedDescends(prefer: nat, ladder: seq<seq<Model>>, env: Env, ctx: int)
    requires Descending(env, ctx, ladder)
    ensures Descending(env, ctx, Allowed(prefer, ladder))
    decreases |ladder|
  {
    if ladder != [] {
      var rest, kept := ladder[1..], Allowed(prefer, ladder[1..]);
      assert forall i | 0 <= i < |rest| :: rest[i] == ladder[i + 1];
      AllowedDescends(prefer, rest, env, ctx);
      AllowedRungs(prefer, rest);
      forall i | 0 <= i < |kept| ensures RungTotal(env, ctx, ladder[0]) >= RungTotal(env, ctx, kept[i]) {
        assert kept[i] in kept;
        var j :| 0 <= j < |rest| && rest[j] == kept[i];
        assert ladder[j + 1] == kept[i];
      }
      PrependDescends(env, ctx, ladder[0], kept);
      assert [] + kept == kept;
    }
  }

  lemma PrependDescends(env: Env, ctx: int, top: seq<Model>, rest: seq<seq<Model>>)
    requires Descending(env, ctx, rest)
    requires forall i | 0 <= i < |rest| :: RungTotal(env, ctx, top) >= RungTotal(env, ctx, rest[i])
    ensures Descending(env, ctx, [top] + rest)
  {
    PrependDown(r => RungTotal(env, ctx, r), top, rest);
  }

  lemma PrependDown(f: seq<Model> -> int, top: seq<Model>, rest: seq<seq<Model>>)
    requires forall i, j | 0 <= i < j < |rest| :: f(rest[i]) >= f(rest[j])
    requires forall i | 0 <= i < |rest| :: f(top) >= f(rest[i])
    ensures forall i, j | 0 <= i < j < |rest| + 1 :: f(([top] + rest)[i]) >= f(([top] + rest)[j])
  {
    var all := [top] + rest;
    forall i, j | 0 <= i < j < |all| ensures f(all[i]) >= f(all[j]) {
      assert all[j] == rest[j - 1];
      assert i > 0 ==> all[i] == rest[i - 1];
    }
  }

  function RungTotals(env: Env, ctx: int, ladder: seq<seq<Model>>): (totals: seq<int>)
    ensures |totals| == |ladder|
    ensures forall i | 0 <= i < |ladder| :: totals[i] == RungTotal(env, ctx, ladder[i])
  {
    seq(|ladder|, i requires 0 <= i < |ladder| => RungTotal(env, ctx, ladder[i]))
  }

  predicate AmongFirst(xs: seq<int>, n: nat, x: int)
    requires n <= |xs|
  {
    n > 0 && (xs[n - 1] == x || AmongFirst(xs, n - 1, x))
  }

  lemma {:induction false} AmongFirstAt(xs: seq<int>, n: nat, x: int)
    requires n <= |xs|
    ensures AmongFirst(xs, n, x) <==> exists i :: 0 <= i < n && xs[i] == x
    decreases n
  {
    if n > 0 {
      AmongFirstAt(xs, n - 1, x);
    }
  }

  /** Anything that is larger than something before it was there even earlier. */
  predicate NothingNewLarger(xs: seq<int>) {
    forall i, j | 0 <= i < j < |xs| && xs[i] < xs[j] :: AmongFirst(xs, i, xs[j])
  }

  /** No rung costs more than an earlier one, unless it repeats a cost from before that one. */
  predicate NoCostlierLater(env: Env, ctx: int, ladder: seq<seq<Model>>) {
    NothingNewLarger(RungTotals(env, ctx, ladder))
  }

  /** n is the first position of a number within the bound. */
  predicate FirstWithin(xs: seq<int>, bound: int, n: nat) {
    n <= |xs| && (n < |xs| ==> xs[n] <= bound) && forall i | 0 <= i < n :: xs[i] > bound
  }

  predicate LargestWithin(xs: seq<int>, bound: int, n: nat) {
    forall i | 0 <= i < |xs| && xs[i] <= bound :: n < |xs| && xs[i] <= xs[n]
  }

  lemma FirstWithinIsLargest(xs: seq<int>, bound: int, n: nat)
    requires NothingNewLarger(xs) && FirstWithin(xs, bound, n)
    ensures LargestWithin(xs, bound, n)
  {
    forall i | 0 <= i < |xs| && xs[i] <= bound ensures n < |xs| && xs[i] <= xs[n] {
      if xs[n] < xs[i] {
        AmongFirstAt(xs, n, xs[i]);
      }
    }
  }

  /** With a bound of exactly a number that is new and larger, the first position within it is not the largest. */
  lemma NewLargerIsMissed(xs: seq<int>, i: nat, j: nat, n: nat)
    requires i < j < |xs| && xs[i] < xs[j] && !AmongFirst(xs, i, xs[j]) && FirstWithin(xs, xs[j], n)
    ensures !LargestWithin(xs, xs[j], n)
  {
    AmongFirstAt(xs, i, xs[j]);
  }

  /** The first rung that fits the pool costs at least as much as any other that fits it. */
  predicate FirstIsCostliest(env: Env, ctx: int, pool: int, ladder: seq<seq<Model>>) {
    LargestWithin(RungTotals(env, ctx, ladder), pool, FirstRung(env, ctx, pool, ladder))
  }

  lemma FirstRungIsFirst(env: Env, ctx: int, pool: int, ladder: seq<seq<Model>>)
    ensures FirstWithin(RungTotals(env, ctx, ladder), pool, FirstRung(env, ctx, pool, ladder))
  {
    FirstRungFits(env, ctx, pool, ladder);
  }

  lemma FirstFitIsCostliest(env: Env, ctx: int, pool: int, ladder: seq<seq<Model>>)
    requires NoCostlierLater(env, ctx, ladder)
    ensures FirstIsCostliest(env, ctx, pool, ladder)
  {
    FirstRungIsFirst(env, ctx, pool, ladder);
    FirstWithinIsLargest(RungTotals(env, ctx, ladder), pool, FirstRung(env, ctx, pool, ladder));
  }

  function WorkerRoom(m: Machine, s: Settings, o: Overrides, k: KvType, v: KvType): int
    requires OnGpus(m, s, o, k, v)
  {
    WorkerPool(EnvOf(m, s, o, k, v), TierFor(m.gpus[0]).value, m.gpus, Orch(m, s, o, k, v))
  }

  /** The chosen workers are the costliest allowed rung that fits the pool. */
  predicate WorkersCostliest(m: Machine, s: Settings, o: Overrides, k: KvType, v: KvType)
    requires OnGpus(m, s, o, k, v)
  {
    FirstIsCostliest(EnvOf(m, s, o, k, v), WorkerCtx(s), WorkerRoom(m, s, o, k, v), Ladder(s))
  }

  /** Whatever was measured: unless a later rung costs more than an earlier one, no allowed rung that fits costs more. */
  lemma WorkersAreCostliestThatFit(m: Machine, s: Settings, o: Overrides, k: KvType, v: KvType, rung: seq<Model>)
    requires OnGpus(m, s, o, k, v) && NoCostlierLater(EnvOf(m, s, o, k, v), WorkerCtx(s), Ladder(s))
    requires rung in WORKER_LADDER && |rung| <= s.preferWorkers
    requires RungTotal(EnvOf(m, s, o, k, v), WorkerCtx(s), rung) <= WorkerRoom(m, s, o, k, v)
    ensures WorkersCostliest(m, s, o, k, v)
    ensures var env, chosen := EnvOf(m, s, o, k, v), RungAt(Ladder(s), RungOf(m, s, o, k, v));
            && RungTotal(env, WorkerCtx(s), rung) <= RungTotal(env, WorkerCtx(s), chosen)
            && chosen in WORKER_LADDER && |chosen| <= s.preferWorkers
  {
    var env := EnvOf(m, s, o, k, v);
    AllowedRungs(s.preferWorkers, WORKER_LADDER);
    FirstFitIsCostliest(env, WorkerCtx(s), WorkerRoom(m, s, o, k, v), Ladder(s));
    assert rung in Ladder(s);
  }

  /** The premise always holds of analytic costs. */
  lemma AnalyticWorkersAreCostliest(m: Machine, s: Settings, k: KvType, v: KvType)
    requires OnGpus(m, s, map[], k, v)
    ensures NoCostlierLater(EnvOf(m, s, map[], k, v), WorkerCtx(s), Ladder(s)) && WorkersCostliest(m, s, map[], k, v)
  {
    var env := EnvOf(m, s, map[], k, v);
    AnalyticLadderDescends(env, WorkerCtx(s));
    AllowedDescends(s.preferWorkers, WORKER_LADDER, env, WorkerCtx(s));
    FirstFitIsCostliest(env, WorkerCtx(s), WorkerRoom(m, s, map[], k, v), Ladder(s));
  }

  /** The planning machine with a second GPU of this size, which then holds the workers. */
  function WithSecond(m: Machine, vram: nat): Machine
    requires m.gpus != []
  {
    m.(gpus := [m.gpus[0], vram])
  }

  /** Every amount of room for workers is left by some second GPU. */
  lemma {:induction false} EveryPoolOccurs(pool: nat) returns (vram: nat)
    ensures vram - Margin(vram) == pool
  {
    if pool == 0 {
      vram := 1536;
    } else {
      vram := EveryPoolOccurs(pool - 1);
      vram := if vram + 1 - Margin(vram + 1) == pool then vram + 1 else vram + 2;
    }
  }

  /** A second GPU changes neither the costs nor the orchestrator, and it is the workers' room. */
  lemma BesideIsSame(m: Machine, s: Settings, o: Overrides, k: KvType, v: KvType, vram: nat)
    requires OnGpus(m, s, o, k, v)
    ensures OnGpus(WithSecond(m, vram), s, o, k, v) && EnvOf(WithSecond(m, vram), s, o, k, v) == EnvOf(m, s, o, k, v)
    ensures WorkerRoom(WithSecond(m, vram), s, o, k, v) == vram - Margin(vram)
  {
    assert WithSecond(m, vram).gpus[0] == m.gpus[0] && WithSecond(m, vram).cuda == m.cuda;
    assert Effective(WithSecond(m, vram), s) == Effective(m, s);
  }

  lemma CostliestBeside(m: Machine, s: Settings, o: Overrides, k: KvType, v: KvType, vram: nat)
    requires OnGpus(m, s, o, k, v)
    ensures WorkersCostliest(WithSecond(m, vram), s, o, k, v)
       <==> FirstIsCostliest(EnvOf(m, s, o, k, v), WorkerCtx(s), vram - Margin(vram), Ladder(s))
  {
    BesideIsSame(m, s, o, k, v, vram);
  }

  /** A ladder with a costlier later rung goes wrong for some pool. */
  lemma SomePoolMisses(env: Env, ctx: int, ladder: seq<seq<Model>>) returns (j: nat)
    requires !NoCostlierLater(env, ctx, ladder)
    ensures j < |ladder| && !FirstIsCostliest(env, ctx, RungTotal(env, ctx, ladder[j]), ladder)
  {
    var totals := RungTotals(env, ctx, ladder);
    var i, late: nat :| 0 <= i < late < |totals| && totals[i] < totals[late] && !AmongFirst(totals, i, totals[late]);
    FirstRungIsFirst(env, ctx, totals[late], ladder);
    NewLargerIsMissed(totals, i, late, FirstRung(env, ctx, totals[late], ladder));
    j := late;
  }

  /**
   For measured costs the premise is exact: the workers are the costliest rung that fits beside every second GPU if and
   only if no later rung of the allowed ladder costs more than an earlier one (except to repeat a cost from before).
   */
  lemma WorkersAreCostliestIff(m: Machine, s: Settings, o: Overrides, k: KvType, v: KvType)
    requires OnGpus(m, s, o, k, v)
    requires forall rung | rung in Ladder(s) :: RungTotal(EnvOf(m, s, o, k, v), WorkerCtx(s), rung) >= 0
    ensures (forall vram: nat :: WorkersCostliest(WithSecond(m, vram), s, o, k, v))
       <==> NoCostlierLater(EnvOf(m, s, o, k, v), WorkerCtx(s), Ladder(s))
  {
    if NoCostlierLater(EnvOf(m, s, o, k, v), WorkerCtx(s), Ladder(s)) {
      forall vram: nat ensures WorkersCostliest(WithSecond(m, vram), s, o, k, v) {
        AlwaysCostliest(m, s, o, k, v, vram);
      }
    } else {
      var vram := SomeSecondMisses(m, s, o, k, v);
    }
  }

  lemma AlwaysCostliest(m: Machine, s: Settings, o: Overrides, k: KvType, v: KvType, vram: nat)
    requires OnGpus(m, s, o, k, v) && NoCostlierLater(EnvOf(m, s, o, k, v), WorkerCtx(s), Ladder(s))
    ensures WorkersCostliest(WithSecond(m, vram), s, o, k, v)
  {
    BesideIsSame(m, s, o, k, v, vram);
    var beside := WithSecond(m, vram);
    FirstFitIsCostliest(EnvOf(beside, s, o, k, v), WorkerCtx(s), WorkerRoom(beside, s, o, k, v), Ladder(s));
  }

  lemma SomeSecondMisses(m: Machine, s: Settings, o: Overrides, k: KvType, v: KvType) returns (vram: nat)
    requires OnGpus(m, s, o, k, v) && !NoCostlierLater(EnvOf(m, s, o, k, v), WorkerCtx(s), Ladder(s))
    requires forall rung | rung in Ladder(s) :: RungTotal(EnvOf(m, s, o, k, v), WorkerCtx(s), rung) >= 0
    ensures !WorkersCostliest(WithSecond(m, vram), s, o, k, v)
  {
    var j := SomePoolMisses(EnvOf(m, s, o, k, v), WorkerCtx(s), Ladder(s));
    assert Ladder(s)[j] in Ladder(s);
    vram := EveryPoolOccurs(RungTotal(EnvOf(m, s, o, k, v), WorkerCtx(s), Ladder(s)[j]));
    CostliestBeside(m, s, o, k, v, vram);
  }

  const MEASURED_8B: Overrides := map[(Bonsai8B, OneBit) := Measured(Some(300), Some(100))]
  const TWO_GPUS := Machine([24576, 24576], 65536, true)
  const SMALL_WORKERS := Settings(OneBit, 8192, 2048, 2, false)

  /**
   The premise can fail: after a low measurement of the 8B, two of them are chosen on an empty 24 GB card that has room
   for two 4B, which cost more.
   */
  lemma MeasuredWorkersNotCostliest()
    ensures OnGpus(TWO_GPUS, SMALL_WORKERS, MEASURED_8B, Q8_0, Q8_0)
    ensures RungAt(Ladder(SMALL_WORKERS), RungOf(TWO_GPUS, SMALL_WORKERS, MEASURED_8B, Q8_0, Q8_0)) == [Bonsai8B, Bonsai8B]
    ensures !WorkersCostliest(TWO_GPUS, SMALL_WORKERS, MEASURED_8B, Q8_0, Q8_0)
  {
    MeasuredRoom();
    MeasuredRungs();
  }

  lemma MeasuredRoom()
    ensures OnGpus(TWO_GPUS, SMALL_WORKERS, MEASURED_8B, Q8_0, Q8_0)
    ensures WorkerRoom(TWO_GPUS, SMALL_WORKERS, MEASURED_8B, Q8_0, Q8_0) == 22610
  {
    MeasuredCosts();
  }

  lemma MeasuredRungs()
    ensures var env := Env(MEASURED_8B, OneBit, Q8_0, Q8_0, false);
            && FirstRung(env, 2048, 22610, Ladder(SMALL_WORKERS)) == 0
            && !FirstIsCostliest(env, 2048, 22610, Ladder(SMALL_WORKERS))
  {
    var env := Env(MEASURED_8B, OneBit, Q8_0, Q8_0, false);
    MeasuredCosts();
    RungOfTwo(env, 2048, Bonsai8B, Bonsai8B);
    RungOfTwo(env, 2048, Bonsai4B, Bonsai4B);
    AllAllowed();
    var totals := RungTotals(env, 2048, WORKER_LADDER);
    assert totals[0] == 1106 && totals[2] == 2620;
  }

  lemma AllAllowed()
    ensures Ladder(SMALL_WORKERS) == WORKER_LADDER
  {
  }

  lemma MeasuredCosts()
    ensures var env := EnvOf(TWO_GPUS, SMALL_WORKERS, MEASURED_8B, Q8_0, Q8_0);
            && env == Env(MEASURED_8B, OneBit, Q8_0, Q8_0, false)
            && WorkerCost(env, 2048, Bonsai8B).Total() == 553
            && WorkerCost(env, 2048, Bonsai4B).Total() == 1310
            && OrchCost(env, 8192).Total() == 5771
            && UtilityCost(env, Gb24).Total() == 1769
  {
    assert Mib(354) == 3625 && Mib(53) == 543 && Mib(120) == 1229 && Mib(60) == 614 && Mib(MMPROJ) == 645;
    assert KvMb(Bonsai8B, 2048, Q8_0, Q8_0) == 153;
    assert KvMb(Bonsai27B, 8192, Q8_0, Q8_0) == 272;
    assert KvMb(Bonsai4B, 8192, Q8_0, Q8_0) == 612;
  }

  // ---- more VRAM, one GPU ----

  predicate StrictlyDown(xs: seq<int>) {
    forall i, j | 0 <= i < j < |xs| :: xs[i] > xs[j]
  }

  lemma InsertKeepsDown(x: int, xs: seq<int>)
    requires StrictlyDown(xs)
    ensures StrictlyDown(InsertDescending(x, xs))
    ensures forall y :: y in InsertDescending(x, xs) <==> y == x || y in xs
  {
    if xs != [] && x < xs[0] {
      InsertKeepsDown(x, xs[1..]);
      var rest := InsertDescending(x, xs[1..]);
      assert xs == [xs[0]] + xs[1..];
      forall i | 0 <= i < |rest| ensures rest[i] < xs[0] {
        assert rest[i] in rest;
      }
    }
  }

  lemma {:induction false} AtMostKeepsDown(bound: int, xs: seq<int>)
    requires StrictlyDown(xs)
    ensures StrictlyDown(AtMost(bound, xs))
    ensures forall y :: y in AtMost(bound, xs) <==> y in xs && y <= bound
  {
    if xs != [] {
      AtMostKeepsDown(bound, xs[1..]);
    }
  }

  /** The context ladder: the configured context (capped), 16384 and 8192, as far as configured, largest first. */
  lemma ContextLadderIs(configured: nat)
    ensures StrictlyDown(ContextLadder(configured))
    ensures forall c :: c in ContextLadder(configured) <==>
              c <= configured && (c == Min(configured, MaxCtx(Bonsai27B)) || c == 16384 || c == CTX_FLOOR)
  {
    var top := Min(configured, MaxCtx(Bonsai27B));
    var one := InsertDescending(CTX_FLOOR, []);
    var two := InsertDescending(16384, one);
    var three := InsertDescending(top, two);
    InsertKeepsDown(CTX_FLOOR, []);
    InsertKeepsDown(16384, one);
    InsertKeepsDown(top, two);
    AtMostKeepsDown(configured, three);
  }

  /** The first context that fits is the largest of the ladder that fits. */
  lemma {:induction false} FirstIsLargest(env: Env, other: int, room: int, ladder: seq<int>, c: int)
    requires StrictlyDown(ladder) && c in ladder && OrchCost(env, c).Total() + other <= room
    ensures FirstContext(env, other, room, ladder).Some? && FirstContext(env, other, room, ladder).value >= c
    decreases |ladder|
  {
    if OrchCost(env, ladder[0]).Total() + other > room {
      FirstIsLargest(env, other, room, ladder[1..], c);
    }
  }

  lemma AvailableGrows(v: nat, w: nat)
    requires v <= w
    ensures v - Margin(v) <= w - Margin(w)
  {
  }

  /** The orchestrator's context: the largest of the ladder that fits beside the utility within the margin. */
  lemma OrchestratorIsLargestThatFits(env: Env, tier: Tier, vram: nat, configured: nat, c: int)
    requires c in ContextLadder(configured)
    requires OrchCost(env, c).Total() + UtilityCost(env, tier).Total() <= vram - Margin(vram)
    ensures var o := PickOrchestrator(env, tier, vram, configured); o.Fitted? && o.ctx >= c && o.ctx in ContextLadder(configured)
  {
    ContextLadderIs(configured);
    FirstIsLargest(env, UtilityCost(env, tier).Total(), vram - Margin(vram), ContextLadder(configured), c);
    FirstContextFits(env, UtilityCost(env, tier).Total(), vram - Margin(vram), ContextLadder(configured));
  }

  /** What fits with v MiB fits with more; tight or none can only become better. */
  lemma OrchestratorGrows(env: Env, tier: Tier, v: nat, w: nat, configured: nat)
    requires v <= w
    ensures var a, b := PickOrchestrator(env, tier, v, configured), PickOrchestrator(env, tier, w, configured);
            && (a.Fitted? ==> b.Fitted? && a.ctx <= b.ctx)
            && (a.Tight? ==> !b.Overflow?)
            && (a.Fitted? ==> a.ctx in ContextLadder(configured))
            && (b.Fitted? ==> b.ctx in ContextLadder(configured))
  {
    var utility := UtilityCost(env, tier).Total();
    AvailableGrows(v, w);
    FirstContextFits(env, utility, v - Margin(v), ContextLadder(configured));
    FirstContextFits(env, utility, w - Margin(w), ContextLadder(configured));
    var a := PickOrchestrator(env, tier, v, configured);
    if a.Fitted? {
      OrchestratorIsLargestThatFits(env, tier, w, configured, a.ctx);
    }
  }

  /** The configured context fits beside the utility within the margin. */
  predicate ConfiguredFits(env: Env, tier: Tier, vram: nat, configured: nat) {
    OrchCost(env, configured).Total() + UtilityCost(env, tier).Total() <= vram - Margin(vram)
  }

  /** Below 8192 configured tokens the orchestrator runs them when they fit within the margin, and else 8192 or nothing. */
  lemma SmallContextChoice(env: Env, tier: Tier, vram: nat, configured: nat)
    requires configured < CTX_FLOOR
    ensures PickOrchestrator(env, tier, vram, configured)
         == if ConfiguredFits(env, tier, vram, configured) then Fitted(configured)
            else if OrchCost(env, CTX_FLOOR).Total() + UtilityCost(env, tier).Total() <= vram then Tight else Overflow
  {
    LadderOfOne(configured);
    FirstOfOne(env, UtilityCost(env, tier).Total(), vram - Margin(vram), configured);
  }

  lemma FirstOfOne(env: Env, other: int, room: int, c: int)
    ensures FirstContext(env, other, room, [c]) == if OrchCost(env, c).Total() + other <= room then Some(c) else None
  {
    assert [c][1..] == [];
  }

  /**
   Within one tier, more VRAM never loses the GPU loadout. It lowers the orchestrator's context exactly when less than
   8192 tokens are configured and these fit within the larger card's margin but not within the smaller one's
   (where a tight fit then runs 8192).
   */
  lemma MoreVramMoreContext(env: Env, tier: Tier, v: nat, w: nat, configured: nat)
    requires v <= w && !PickOrchestrator(env, tier, v, configured).Overflow?
    ensures var a, b := PickOrchestrator(env, tier, v, configured), PickOrchestrator(env, tier, w, configured);
            && !b.Overflow?
            && (CtxOf(a) <= CtxOf(b)
                <==> configured >= CTX_FLOOR || ConfiguredFits(env, tier, v, configured) || !ConfiguredFits(env, tier, w, configured))
  {
    ContextLadderIs(configured);
    OrchestratorGrows(env, tier, v, w, configured);
    if configured < CTX_FLOOR {
      SmallContextChoice(env, tier, v, configured);
      SmallContextChoice(env, tier, w, configured);
    }
  }

  /** With equal contexts, more VRAM never lowers the worker rung (index 0 is the top). */
  lemma MoreVramMoreWorkers(m: Machine, n: Machine, s: Settings, o: Overrides, k: KvType, v: KvType)
    requires |m.gpus| == |n.gpus| == 1 && m.gpus[0] <= n.gpus[0] && m.cuda == n.cuda
    requires TierFor(m.gpus[0]) == TierFor(n.gpus[0]) && Effective(m, s) == Effective(n, s)
    requires OnGpus(m, s, o, k, v)
    ensures OnGpus(n, s, o, k, v)
    ensures CtxOf(Orch(m, s, o, k, v)) == CtxOf(Orch(n, s, o, k, v)) ==> RungOf(n, s, o, k, v) <= RungOf(m, s, o, k, v)
  {
    var env, tier := EnvOf(m, s, o, k, v), TierFor(m.gpus[0]).value;
    OrchestratorGrows(env, tier, m.gpus[0], n.gpus[0], s.orchestratorCtx);
    if CtxOf(Orch(m, s, o, k, v)) == CtxOf(Orch(n, s, o, k, v)) {
      PoolGrows(env, tier, m.gpus[0], n.gpus[0], s.orchestratorCtx);
      RungMonotone(env, WorkerCtx(s), WorkerPool(env, tier, m.gpus, Orch(m, s, o, k, v)),
                   WorkerPool(env, tier, n.gpus, Orch(n, s, o, k, v)), Ladder(s));
    }
  }

  lemma PoolGrows(env: Env, tier: Tier, v: nat, w: nat, configured: nat)
    requires v <= w
    requires var a, b := PickOrchestrator(env, tier, v, configured), PickOrchestrator(env, tier, w, configured);
             CtxOf(a) == CtxOf(b) && !a.Overflow? && !b.Overflow?
    ensures var a, b := PickOrchestrator(env, tier, v, configured), PickOrchestrator(env, tier, w, configured);
            WorkerPool(env, tier, [v], a) <= WorkerPool(env, tier, [w], b)
  {
    AvailableGrows(v, w);
    OrchestratorGrows(env, tier, v, w, configured);
    FirstContextFits(env, UtilityCost(env, tier).Total(), w - Margin(w), ContextLadder(configured));
  }

  /**
   Configured below 8192, an 8 GB-tier card can really lose context by growing: with 4096 configured the
   1-bit orchestrator runs 8192 tokens in a tight fit at 7000 MiB and 4096 tokens at 9000 MiB.
   */
  lemma SmallContextWitness()
    ensures var env := Env(map[], OneBit, Q8_0, TQ4_0, false);
            && PickOrchestrator(env, Gb8, 7000, 4096) == Tight && CtxOf(Tight) == 8192
            && PickOrchestrator(env, Gb8, 9000, 4096) == Fitted(4096)
            && TierFor(7000) == TierFor(9000) == Some(Gb8)
  {
    SmallContextCosts();
    LadderOfOne(4096);
  }

  lemma SmallContextCosts()
    ensures var env := Env(map[], OneBit, Q8_0, TQ4_0, false);
            && OrchCost(env, 4096).Total() == 5603 && OrchCost(env, 8192).Total() == 5707
            && UtilityCost(env, Gb8).Total() == 1214
  {
    assert Mib(354) == 3625 && Mib(23) == 236 && Mib(120) == 1229 && Mib(60) == 614 && Mib(MMPROJ) == 645;
    assert KvMb(Bonsai27B, 4096, Q8_0, TQ4_0) == 104 && KvMb(Bonsai27B, 8192, Q8_0, TQ4_0) == 208;
    assert KvMb(Bonsai1B7, 8192, Q8_0, TQ4_0) == 364;
  }

  lemma LadderOfOne(configured: nat)
    requires configured < CTX_FLOOR
    ensures ContextLadder(configured) == [configured]
  {
    ContextLadderIs(configured);
    var l := ContextLadder(configured);
    assert configured in l;
    forall i | 0 <= i < |l| ensures l[i] == configured {
      assert l[i] in l;
    }
    assert l[0] == l[|l| - 1] == configured;
  }
}
