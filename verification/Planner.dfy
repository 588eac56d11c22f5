/** The loadout planner (sched/planner.py): what runs on which GPU with which context. */
module Planner {
  import opened Prelude
  import opened Budget

  datatype Tier = Gb24 | Gb16 | Gb12 | Gb8 | Cpu

  datatype Role = Orchestrator | Utility | Worker(number: nat)

  datatype Slot = Slot(role: Role, model: Model, family: Family, ctx: int, gpu: Option<nat>, port: nat,
                       vram: int, mmproj: bool, dspark: bool)

  datatype Notice =
    | GpuTooSmall | FamilyDegraded | DsparkUnavailable | VramTight | LoadoutOverflow
    | OrchestratorCtxReduced | WorkersDegraded | UltraSequential | CpuOnly | No27BResident

  datatype Settings = Settings(family: Family, orchestratorCtx: nat, workerCtx: nat, preferWorkers: nat, dspark: bool)

  /** Total VRAM per GPU (empty when there is no GPU telemetry), RAM, and whether the backend is CUDA. */
  datatype Machine = Machine(gpus: seq<nat>, ram: nat, cuda: bool)

  datatype Loadout = Loadout(tier: Tier, slots: seq<Slot>, headroom: int, configured: Family, effective: Family,
                             degraded: bool, shared: bool, notices: seq<Notice>)

  /** What every cost of one plan depends on. */
  datatype Env = Env(overrides: Overrides, family: Family, k: KvType, v: KvType, dspark: bool)

  const PORT_POOL_START := 8701
  const FAMILY_DEGRADE_BELOW_MB := 14 * 1024
  const CTX_FLOOR := 8192

  function TierFor(vram: nat): Option<Tier> {
    if vram >= 20 * 1024 then Some(Gb24)
    else if vram >= 14 * 1024 then Some(Gb16)
    else if vram >= 10 * 1024 then Some(Gb12)
    else if vram >= 6 * 1024 then Some(Gb8)
    else None
  }

  /** max(1.5 GiB, 8 percent). */
  function Margin(vram: nat): nat {
    Max(1536, vram * 8 / 100)
  }

  const WORKER_LADDER: seq<seq<Model>> := [
    [Bonsai8B, Bonsai8B], [Bonsai8B, Bonsai4B], [Bonsai4B, Bonsai4B], [Bonsai8B], [Bonsai4B], [Bonsai1B7], []]

  function UtilityModel(tier: Tier): Model {
    if tier.Gb8? then Bonsai1B7 else Bonsai4B
  }

  function OrchCost(env: Env, ctx: int): Cost {
    SlotCost(env.overrides, Bonsai27B, env.family, ctx, env.k, env.v, true, env.dspark)
  }

  function UtilityCost(env: Env, tier: Tier): Cost {
    SlotCost(env.overrides, UtilityModel(tier), env.family, 8192, env.k, env.v, false, false)
  }

  function WorkerCost(env: Env, workerCtx: int, m: Model): Cost {
    SlotCost(env.overrides, m, env.family, Min(workerCtx, MaxCtx(m)), env.k, env.v, false, false)
  }

  // ---- the orchestrator's context ladder ----

  /** Insert into a strictly descending list, unless already there. */
  function InsertDescending(x: int, xs: seq<int>): seq<int> {
    if xs == [] || x > xs[0] then [x] + xs
    else if x == xs[0] then xs
    else [xs[0]] + InsertDescending(x, xs[1..])
  }

  function AtMost(bound: int, xs: seq<int>): seq<int> {
    if xs == [] then [] else (if xs[0] <= bound then [xs[0]] else []) + AtMost(bound, xs[1..])
  }

  function ContextLadder(configured: nat): seq<int> {
    var top := Min(configured, MaxCtx(Bonsai27B));
    AtMost(configured, InsertDescending(top, InsertDescending(16384, InsertDescending(CTX_FLOOR, []))))
  }

  /** The first context of the ladder whose orchestrator fits beside `other` MiB. */
  function FirstContext(env: Env, other: int, room: int, ladder: seq<int>): Option<int> {
    if ladder == [] then None
    else if OrchCost(env, ladder[0]).Total() + other <= room then Some(ladder[0])
    else FirstContext(env, other, room, ladder[1..])
  }

  datatype Orchestration = Fitted(ctx: int) | Tight | Overflow

  function PickOrchestrator(env: Env, tier: Tier, vram: nat, configured: nat): Orchestration {
    var utility := UtilityCost(env, tier).Total();
    match FirstContext(env, utility, vram - Margin(vram), ContextLadder(configured))
    case Some(ctx) => Fitted(ctx)
    case None => if OrchCost(env, CTX_FLOOR).Total() + utility <= vram then Tight else Overflow
  }

  function CtxOf(o: Orchestration): int {
    if o.Fitted? then o.ctx else CTX_FLOOR
  }

  // ---- workers ----

  function RungCosts(env: Env, workerCtx: int, rung: seq<Model>): (costs: seq<Cost>)
    ensures |costs| == |rung|
    ensures forall i | 0 <= i < |rung| :: costs[i] == WorkerCost(env, workerCtx, rung[i])
  {
    seq(|rung|, i requires 0 <= i < |rung| => WorkerCost(env, workerCtx, rung[i]))
  }

  function Sum(costs: seq<Cost>): int {
    if costs == [] then 0 else Sum(costs[..|costs| - 1]) + costs[|costs| - 1].Total()
  }

  function Allowed(prefer: nat, ladder: seq<seq<Model>>): seq<seq<Model>> {
    if ladder == [] then [] else (if |ladder[0]| <= prefer then [ladder[0]] else []) + Allowed(prefer, ladder[1..])
  }

  /** Index of the first rung that fits; the length of the ladder when none does. */
  function FirstRung(env: Env, workerCtx: int, pool: int, ladder: seq<seq<Model>>): (n: nat)
    ensures n <= |ladder|
  {
    if ladder == [] || Sum(RungCosts(env, workerCtx, ladder[0])) <= pool then 0
    else 1 + FirstRung(env, workerCtx, pool, ladder[1..])
  }

  function RungAt(ladder: seq<seq<Model>>, n: nat): seq<Model> {
    if n < |ladder| then ladder[n] else []
  }

  function WorkerPool(env: Env, tier: Tier, gpus: seq<nat>, o: Orchestration): int
    requires gpus != []
  {
    if |gpus| > 1 then gpus[1] - Margin(gpus[1])
    else if o.Tight? then 0
    else gpus[0] - Margin(gpus[0]) - (OrchCost(env, CtxOf(o)).Total() + UtilityCost(env, tier).Total())
  }

  // ---- the plan ----

  function WorkerSlot(cost: Cost, i: nat, gpu: nat): Slot {
    Slot(Worker(i + 1), cost.model, cost.family, cost.ctx, Some(gpu), PORT_POOL_START + 2 + i, cost.Total(), false, false)
  }

  function WorkerSlots(costs: seq<Cost>, gpu: nat): (slots: seq<Slot>)
    ensures |slots| == |costs|
    ensures forall i | 0 <= i < |costs| :: slots[i] == WorkerSlot(costs[i], i, gpu)
  {
    seq(|costs|, i requires 0 <= i < |costs| => WorkerSlot(costs[i], i, gpu))
  }

  function Mandatory(env: Env, tier: Tier, ctx: int): seq<Slot> {
    [Slot(Orchestrator, Bonsai27B, env.family, ctx, Some(0), PORT_POOL_START, OrchCost(env, ctx).Total(), true, env.dspark),
     Slot(Utility, UtilityModel(tier), env.family, 8192, Some(0), PORT_POOL_START + 1, UtilityCost(env, tier).Total(), false, false)]
  }

  function Total(slots: seq<Slot>): int {
    if slots == [] then 0 else Total(slots[..|slots| - 1]) + slots[|slots| - 1].vram
  }

  function TotalVram(gpus: seq<nat>): nat {
    if gpus == [] then 0 else TotalVram(gpus[..|gpus| - 1]) + gpus[|gpus| - 1]
  }

  function Note(when: bool, notice: Notice): seq<Notice> {
    if when then [notice] else []
  }

  function Effective(m: Machine, s: Settings): Family
    requires m.gpus != []
  {
    if m.gpus[0] < FAMILY_DEGRADE_BELOW_MB && s.family.Ternary? then OneBit else s.family
  }

  function EnvOf(m: Machine, s: Settings, o: Overrides, k: KvType, v: KvType): Env
    requires m.gpus != []
  {
    Env(o, Effective(m, s), k, v, s.dspark && m.cuda)
  }

  function WorkerCtx(s: Settings): int {
    Min(s.workerCtx, MaxCtx(Bonsai1B7))
  }

  function Rung(env: Env, tier: Tier, m: Machine, s: Settings, o: Orchestration): nat
    requires m.gpus != []
  {
    FirstRung(env, WorkerCtx(s), WorkerPool(env, tier, m.gpus, o), Allowed(s.preferWorkers, WORKER_LADDER))
  }

  /** The loadout of a GPU plan once the orchestrator and the workers (at rung n) are chosen. */
  function GpuLoadout(env: Env, tier: Tier, m: Machine, s: Settings, o: Orchestration, n: nat, workers: seq<Cost>): Loadout {
    var slots := Mandatory(env, tier, CtxOf(o)) + WorkerSlots(workers, if |m.gpus| > 1 then 1 else 0);
    WithSlots(env, tier, m, s, o, n, workers, slots, TotalVram(m.gpus) - Total(slots))
  }

  function WithSlots(env: Env, tier: Tier, m: Machine, s: Settings, o: Orchestration, n: nat, workers: seq<Cost>,
                     slots: seq<Slot>, headroom: int): Loadout
  {
    Loadout(tier, slots, headroom, s.family, env.family, env.family != s.family, false,
            MandatoryNotices(env, m, s, o) + Note(n > 0 && workers != [], WorkersDegraded) + Note(workers == [], UltraSequential))
  }

  function MandatoryNotices(env: Env, m: Machine, s: Settings, o: Orchestration): seq<Notice> {
    Note(env.family != s.family, FamilyDegraded)
    + Note(s.dspark && !m.cuda, DsparkUnavailable)
    + Note(o.Tight?, VramTight)
    + Note(CtxOf(o) < s.orchestratorCtx, OrchestratorCtxReduced)
  }

  function PlanGpu(env: Env, tier: Tier, m: Machine, s: Settings, o: Orchestration): Loadout
    requires m.gpus != []
  {
    var n := Rung(env, tier, m, s, o);
    GpuLoadout(env, tier, m, s, o, n, RungCosts(env, WorkerCtx(s), RungAt(Allowed(s.preferWorkers, WORKER_LADDER), n)))
  }

  function PlanCpu(m: Machine, s: Settings, o: Overrides, k: KvType, v: KvType): Loadout {
    var model := if m.ram >= 16 * 1024 then Bonsai27B else Bonsai8B;
    var ctx := Min(s.orchestratorCtx, MaxCtx(model));
    var cost := SlotCost(o, model, s.family, ctx, k, v, model.Bonsai27B?, false).Total();
    Loadout(Cpu, [Slot(Orchestrator, model, s.family, ctx, None, PORT_POOL_START, cost, model.Bonsai27B?, false)],
            Max(m.ram - cost, 0), s.family, s.family, false, true,
            [CpuOnly] + Note(model.Bonsai8B?, No27BResident))
  }

  function Prefixed(notice: Notice, l: Loadout): Loadout {
    l.(notices := [notice] + l.notices)
  }

  function Plan(m: Machine, s: Settings, o: Overrides, k: KvType, v: KvType): Loadout {
    if m.gpus == [] then PlanCpu(m, s, o, k, v)
    else
      match TierFor(m.gpus[0])
      case None => Prefixed(GpuTooSmall, PlanCpu(m, s, o, k, v))
      case Some(tier) =>
        var env := EnvOf(m, s, o, k, v);
        var orch := PickOrchestrator(env, tier, m.gpus[0], s.orchestratorCtx);
        if orch.Overflow? then Prefixed(LoadoutOverflow, PlanCpu(m, s, o, k, v))
        else PlanGpu(env, tier, m, s, orch)
  }

  // ---- the planner's loops ----

  method PickContext(env: Env, other: int, room: int, ladder: seq<int>) returns (ctx: Option<int>)
    ensures ctx == FirstContext(env, other, room, ladder)
  {
    var i := 0;
    while i < |ladder|
      invariant 0 <= i <= |ladder|
      invariant FirstContext(env, other, room, ladder) == FirstContext(env, other, room, ladder[i..])
    {
      var candidate := OrchCost(env, ladder[i]);
      if candidate.Total() + other <= room {
        return Some(ladder[i]);
      }
      assert ladder[i..][1..] == ladder[i + 1..];
      i := i + 1;
    }
    return None;
  }

  method SumCosts(costs: seq<Cost>) returns (total: int)
    ensures total == Sum(costs)
  {
    total := 0;
    for i := 0 to |costs|
      invariant total == Sum(costs[..i])
    {
      assert costs[..i + 1][..i] == costs[..i];
      total := total + costs[i].Total();
    }
    assert costs[..|costs|] == costs;
  }

  method WalkWorkerLadder(env: Env, workerCtx: int, pool: int, ladder: seq<seq<Model>>)
    returns (n: nat, costs: seq<Cost>)
    ensures n == FirstRung(env, workerCtx, pool, ladder)
    ensures costs == RungCosts(env, workerCtx, RungAt(ladder, n))
  {
    n := 0;
    while n < |ladder|
      invariant 0 <= n <= |ladder|
      invariant FirstRung(env, workerCtx, pool, ladder) == n + FirstRung(env, workerCtx, pool, ladder[n..])
    {
      costs := RungCosts(env, workerCtx, ladder[n]);
      var total := SumCosts(costs);
      if total <= pool {
        return;
      }
      assert ladder[n..][1..] == ladder[n + 1..];
      n := n + 1;
    }
    costs := [];
  }

  method TotalVramOf(gpus: seq<nat>) returns (total: nat)
    ensures total == TotalVram(gpus)
  {
    total := 0;
    for i := 0 to |gpus|
      invariant total == TotalVram(gpus[..i])
    {
      assert gpus[..i + 1][..i] == gpus[..i];
      total := total + gpus[i];
    }
    assert gpus[..|gpus|] == gpus;
  }

  method SumVram(slots: seq<Slot>) returns (used: int)
    ensures used == Total(slots)
  {
    used := 0;
    for i := 0 to |slots|
      invariant used == Total(slots[..i])
    {
      assert slots[..i + 1][..i] == slots[..i];
      used := used + slots[i].vram;
    }
    assert slots[..|slots|] == slots;
  }

  /** The chosen workers on consecutive ports after the mandatory slots. */
  method AddWorkers(mandatory: seq<Slot>, costs: seq<Cost>, gpu: nat) returns (slots: seq<Slot>)
    ensures slots == mandatory + WorkerSlots(costs, gpu)
  {
    slots := mandatory;
    var port := PORT_POOL_START + 2;
    for i := 0 to |costs|
      invariant port == PORT_POOL_START + 2 + i
      invariant slots == mandatory + WorkerSlots(costs, gpu)[..i]
    {
      var c := costs[i];
      slots := slots + [Slot(Worker(i + 1), c.model, c.family, c.ctx, Some(gpu), port, c.Total(), false, false)];
      port := port + 1;
    }
  }

  method ChooseOrchestrator(env: Env, tier: Tier, vram: nat, configured: nat) returns (o: Orchestration)
    ensures o == PickOrchestrator(env, tier, vram, configured)
  {
    var utility := UtilityCost(env, tier).Total();
    var ctx := PickContext(env, utility, vram - Margin(vram), ContextLadder(configured));
    if ctx.Some? {
      return Fitted(ctx.value);
    }
    o := if OrchCost(env, CTX_FLOOR).Total() + utility <= vram then Tight else Overflow;
  }

  method AssembleLoadout(env: Env, tier: Tier, m: Machine, s: Settings, o: Orchestration, n: nat, workers: seq<Cost>)
    returns (l: Loadout)
    ensures l == GpuLoadout(env, tier, m, s, o, n, workers)
  {
    var slots := AddWorkers(Mandatory(env, tier, CtxOf(o)), workers, if |m.gpus| > 1 then 1 else 0);
    var used := SumVram(slots);
    var total := TotalVramOf(m.gpus);
    l := WithSlots(env, tier, m, s, o, n, workers, slots, total - used);
  }

  method PlanOnGpus(env: Env, tier: Tier, m: Machine, s: Settings, o: Orchestration) returns (l: Loadout)
    requires m.gpus != []
    ensures l == PlanGpu(env, tier, m, s, o)
  {
    var pool := WorkerPool(env, tier, m.gpus, o);
    var n, costs := WalkWorkerLadder(env, WorkerCtx(s), pool, Allowed(s.preferWorkers, WORKER_LADDER));
    l := AssembleLoadout(env, tier, m, s, o, n, costs);
  }

  method PlanLoadout(m: Machine, s: Settings, o: Overrides, k: KvType, v: KvType) returns (l: Loadout)
    ensures l == Plan(m, s, o, k, v)
  {
    if m.gpus == [] {
      return PlanCpu(m, s, o, k, v);
    }
    var tier := TierFor(m.gpus[0]);
    if tier.None? {
      return Prefixed(GpuTooSmall, PlanCpu(m, s, o, k, v));
    }
    var env := EnvOf(m, s, o, k, v);
    var orch := ChooseOrchestrator(env, tier.value, m.gpus[0], s.orchestratorCtx);
    if orch.Overflow? {
      return Prefixed(LoadoutOverflow, PlanCpu(m, s, o, k, v));
    }
    l := PlanOnGpus(env, tier.value, m, s, orch);
  }
}
