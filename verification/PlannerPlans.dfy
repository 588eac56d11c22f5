/** What a loadout is, slot by slot and notice by notice (sched/planner.py:147-438), and the loadouts of common machines. */
module PlannerPlans {
  import opened Prelude
  import opened Budget
  import opened Planner
  import opened PlannerProofs

  /** Room kept free on a GPU: 1.5 GiB, or 8 percent when that is more. */
  function Kept(vram: nat): nat {
    if vram < 19_213 then 1536 else vram * 8 / 100
  }

  lemma MarginIs(vram: nat)
    ensures Margin(vram) == Kept(vram)
  {
  }

  /** The tiers begin at 6, 10, 14 and 20 GiB on GPU 0. */
  lemma TierIs(vram: nat)
    ensures TierFor(vram) == None <==> vram < 6144
    ensures TierFor(vram) == Some(Gb8) <==> 6144 <= vram < 10240
    ensures TierFor(vram) == Some(Gb12) <==> 10240 <= vram < 14336
    ensures TierFor(vram) == Some(Gb16) <==> 14336 <= vram < 20480
    ensures TierFor(vram) == Some(Gb24) <==> 20480 <= vram
    ensures TierFor(vram) != Some(Cpu)
  {
  }

  // ---- whether the GPUs are used, and with which context ----

  /** A context the orchestrator may be given: what is configured (up to the model's own limit), 16384 or 8192. */
  predicate Candidate(ctx: int, configured: nat) {
    && ctx <= configured
    && (ctx == (if configured < 262144 then configured else 262144) || ctx == 16384 || ctx == 8192)
  }

  function FamilyOn(m: Machine, s: Settings): Family
    requires m.gpus != []
  {
    if m.gpus[0] < 14336 then OneBit else s.family
  }

  /** What the orchestrator and the utility model take on GPU 0. */
  function MandatoryVram(m: Machine, s: Settings, o: Overrides, k: KvType, v: KvType, ctx: int): int
    requires m.gpus != []
  {
    SlotCost(o, Bonsai27B, FamilyOn(m, s), ctx, k, v, true, s.dspark && m.cuda).Total()
    + SlotCost(o, if m.gpus[0] < 10240 then Bonsai1B7 else Bonsai4B, FamilyOn(m, s), 8192, k, v, false, false).Total()
  }

  lemma CandidateIs(ctx: int, configured: nat)
    ensures Candidate(ctx, configured) <==> ctx in ContextLadder(configured)
  {
    ContextLadderIs(configured);
  }

  lemma MandatoryVramIs(m: Machine, s: Settings, o: Overrides, k: KvType, v: KvType, ctx: int)
    requires m.gpus != [] && m.gpus[0] >= 6144
    ensures var env, tier := EnvOf(m, s, o, k, v), TierFor(m.gpus[0]).value;
            MandatoryVram(m, s, o, k, v, ctx) == OrchCost(env, ctx).Total() + UtilityCost(env, tier).Total()
    ensures Effective(m, s) == FamilyOn(m, s)
  {
    TierIs(m.gpus[0]);
  }

  /**
   Which of the three it is: the largest candidate context that leaves the margin; else 8192 tokens if they fit the
   card at all; else no loadout on the GPUs.
   */
  lemma OrchestrationIs(m: Machine, s: Settings, o: Overrides, k: KvType, v: KvType, c: int)
    requires m.gpus != [] && m.gpus[0] >= 6144
    ensures var orch := PickOrchestrator(EnvOf(m, s, o, k, v), TierFor(m.gpus[0]).value, m.gpus[0], s.orchestratorCtx);
            var room := m.gpus[0] - Kept(m.gpus[0]);
            && (orch.Fitted? ==> Candidate(orch.ctx, s.orchestratorCtx) && MandatoryVram(m, s, o, k, v, orch.ctx) <= room)
            && (Candidate(c, s.orchestratorCtx) && MandatoryVram(m, s, o, k, v, c) <= room ==> orch.Fitted? && orch.ctx >= c)
            && (orch.Tight? ==> MandatoryVram(m, s, o, k, v, 8192) <= m.gpus[0])
            && (orch.Overflow? ==> MandatoryVram(m, s, o, k, v, 8192) > m.gpus[0])
  {
    var env, tier := EnvOf(m, s, o, k, v), TierFor(m.gpus[0]).value;
    MarginIs(m.gpus[0]);
    var orch := PickOrchestrator(env, tier, m.gpus[0], s.orchestratorCtx);
    FirstContextFits(env, UtilityCost(env, tier).Total(), m.gpus[0] - Margin(m.gpus[0]), ContextLadder(s.orchestratorCtx));
    MandatoryVramIs(m, s, o, k, v, c);
    MandatoryVramIs(m, s, o, k, v, CtxOf(orch));
    MandatoryVramIs(m, s, o, k, v, 8192);
    CandidateIs(c, s.orchestratorCtx);
    CandidateIs(CtxOf(orch), s.orchestratorCtx);
    if Candidate(c, s.orchestratorCtx) && MandatoryVram(m, s, o, k, v, c) <= m.gpus[0] - Kept(m.gpus[0]) {
      OrchestratorIsLargestThatFits(env, tier, m.gpus[0], s.orchestratorCtx, c);
    }
  }

  // ---- without a GPU loadout ----

  /** The loadout that runs on the CPU, whatever led to it. */
  predicate CpuLoadout(l: Loadout, m: Machine, s: Settings, o: Overrides, k: KvType, v: KvType) {
    && |l.slots| == 1
    && var big := m.ram >= 16384;
       var slot := l.slots[0];
    && slot.role == Orchestrator && slot.model == (if big then Bonsai27B else Bonsai8B) && slot.family == s.family
    && slot.ctx == Min(s.orchestratorCtx, if big then 262144 else 65536)
    && slot.gpu == None && slot.port == 8701 && slot.mmproj == big && !slot.dspark
    && slot.vram == SlotCost(o, slot.model, s.family, slot.ctx, k, v, big, false).Total()
    && l.tier == Cpu && l.shared && l.configured == l.effective == s.family && !l.degraded
    && l.headroom == (if slot.vram <= m.ram then m.ram - slot.vram else 0)
    && (No27BResident in l.notices <==> !big)
  }

  lemma CpuLoadoutIs(m: Machine, s: Settings, o: Overrides, k: KvType, v: KvType)
    ensures CpuLoadout(PlanCpu(m, s, o, k, v), m, s, o, k, v)
    ensures PlanCpu(m, s, o, k, v).notices == if m.ram >= 16384 then [CpuOnly] else [CpuOnly, No27BResident]
  {
  }

  lemma PrefixedIs(notice: Notice, l: Loadout, m: Machine, s: Settings, o: Overrides, k: KvType, v: KvType)
    requires CpuLoadout(l, m, s, o, k, v) && notice != No27BResident
    ensures CpuLoadout(Prefixed(notice, l), m, s, o, k, v) && Prefixed(notice, l).notices == [notice] + l.notices
  {
  }

  /** Why the CPU is used: what is announced first. */
  function CpuReason(m: Machine): seq<Notice> {
    if m.gpus == [] then [] else if m.gpus[0] < 6144 then [GpuTooSmall] else [LoadoutOverflow]
  }

  lemma GpuTier(m: Machine, s: Settings, o: Overrides, k: KvType, v: KvType)
    requires OnGpus(m, s, o, k, v)
    ensures Plan(m, s, o, k, v).tier == TierFor(m.gpus[0]).value != Cpu
  {
    TierIs(m.gpus[0]);
  }

  lemma OffGpus(m: Machine, s: Settings, o: Overrides, k: KvType, v: KvType)
    requires !OnGpus(m, s, o, k, v)
    ensures Plan(m, s, o, k, v)
         == if m.gpus == [] then PlanCpu(m, s, o, k, v) else Prefixed(CpuReason(m)[0], PlanCpu(m, s, o, k, v))
  {
    if m.gpus != [] {
      TierIs(m.gpus[0]);
    }
  }

  /** The CPU loadout is planned exactly when GPU 0 is missing or too small or overflows, and says which it was. */
  lemma CpuPlanIs(m: Machine, s: Settings, o: Overrides, k: KvType, v: KvType)
    ensures Plan(m, s, o, k, v).tier == Cpu <==> !OnGpus(m, s, o, k, v)
    ensures !OnGpus(m, s, o, k, v) ==>
              && CpuLoadout(Plan(m, s, o, k, v), m, s, o, k, v)
              && Plan(m, s, o, k, v).notices == CpuReason(m) + if m.ram >= 16384 then [CpuOnly] else [CpuOnly, No27BResident]
  {
    if OnGpus(m, s, o, k, v) {
      GpuTier(m, s, o, k, v);
    } else {
      OffGpus(m, s, o, k, v);
      CpuLoadoutIs(m, s, o, k, v);
      if m.gpus != [] {
        PrefixedIs(CpuReason(m)[0], PlanCpu(m, s, o, k, v), m, s, o, k, v);
      }
    }
  }

  // ---- on the GPUs ----

  /** The i-th slot of a GPU loadout, in every field but the model of a worker. */
  predicate SlotIs(slot: Slot, i: nat, m: Machine, s: Settings, o: Overrides, k: KvType, v: KvType)
    requires m.gpus != []
  {
    var first := i == 0;
    && slot.family == FamilyOn(m, s) && slot.port == 8701 + i
    && slot.gpu == Some(if i < 2 || |m.gpus| == 1 then 0 else 1)
    && slot.mmproj == first && slot.dspark == (first && s.dspark && m.cuda)
    && slot.vram == SlotCost(o, slot.model, slot.family, slot.ctx, k, v, slot.mmproj, slot.dspark).Total()
    && (i == 0 ==> slot.role == Orchestrator && slot.model == Bonsai27B)
    && (i == 1 ==> slot.role == Utility && slot.model == (if m.gpus[0] < 10240 then Bonsai1B7 else Bonsai4B) && slot.ctx == 8192)
    && (i >= 2 ==> slot.role == Worker(i - 1) && slot.ctx == Min(s.workerCtx, 32768))
  }

  lemma MandatorySlotIs(m: Machine, s: Settings, o: Overrides, k: KvType, v: KvType, ctx: int, i: nat)
    requires m.gpus != [] && m.gpus[0] >= 6144 && i < 2
    ensures SlotIs(Mandatory(EnvOf(m, s, o, k, v), TierFor(m.gpus[0]).value, ctx)[i], i, m, s, o, k, v)
  {
    TierIs(m.gpus[0]);
  }

  lemma WorkerSlotIs(m: Machine, s: Settings, o: Overrides, k: KvType, v: KvType, rung: seq<Model>, i: nat)
    requires m.gpus != [] && m.gpus[0] >= 6144 && i < |rung|
    ensures SlotIs(WorkerSlots(RungCosts(EnvOf(m, s, o, k, v), WorkerCtx(s), rung), if |m.gpus| > 1 then 1 else 0)[i],
                   i + 2, m, s, o, k, v)
  {
  }

  lemma AssembledSlotIs(m: Machine, s: Settings, o: Overrides, k: KvType, v: KvType, ctx: int, rung: seq<Model>, i: nat)
    requires m.gpus != [] && m.gpus[0] >= 6144 && i < 2 + |rung|
    ensures var slots := Mandatory(EnvOf(m, s, o, k, v), TierFor(m.gpus[0]).value, ctx)
                         + WorkerSlots(RungCosts(EnvOf(m, s, o, k, v), WorkerCtx(s), rung), if |m.gpus| > 1 then 1 else 0);
            |slots| == 2 + |rung| && SlotIs(slots[i], i, m, s, o, k, v) && slots[0].ctx == ctx
  {
    if i < 2 {
      MandatorySlotIs(m, s, o, k, v, ctx, i);
    } else {
      WorkerSlotIs(m, s, o, k, v, rung, i - 2);
    }
  }

  /** Every slot of every GPU loadout. */
  lemma SlotsAre(m: Machine, s: Settings, o: Overrides, k: KvType, v: KvType, i: nat)
    requires OnGpus(m, s, o, k, v) && i < |Plan(m, s, o, k, v).slots|
    ensures |Plan(m, s, o, k, v).slots| >= 2 && SlotIs(Plan(m, s, o, k, v).slots[i], i, m, s, o, k, v)
    ensures Plan(m, s, o, k, v).slots[0].ctx == CtxOf(Orch(m, s, o, k, v))
  {
    TierIs(m.gpus[0]);
    PlannedSlots(m, s, o, k, v);
    AssembledSlotIs(m, s, o, k, v, CtxOf(Orch(m, s, o, k, v)), RungAt(Ladder(s), RungOf(m, s, o, k, v)), i);
  }

  /** The room for workers: a second GPU's, or what GPU 0 has left within the margin. */
  lemma RoomIs(m: Machine, s: Settings, o: Overrides, k: KvType, v: KvType)
    requires OnGpus(m, s, o, k, v)
    ensures WorkerRoom(m, s, o, k, v)
         == if |m.gpus| > 1 then m.gpus[1] - Kept(m.gpus[1])
            else if Orch(m, s, o, k, v).Tight? then 0
            else m.gpus[0] - Kept(m.gpus[0]) - MandatoryVram(m, s, o, k, v, CtxOf(Orch(m, s, o, k, v)))
  {
    TierIs(m.gpus[0]);
    MarginIs(m.gpus[0]);
    MarginIs(if |m.gpus| > 1 then m.gpus[1] else 0);
    MandatoryVramIs(m, s, o, k, v, CtxOf(Orch(m, s, o, k, v)));
  }

  lemma {:induction false} AllowedWhole(prefer: nat, l: seq<seq<Model>>)
    requires forall i | 0 <= i < |l| :: |l[i]| <= prefer
    ensures Allowed(prefer, l) == l
  {
    if l != [] {
      AllowedWhole(prefer, l[1..]);
    }
  }

  lemma {:induction false} AllowedSkips(prefer: nat, l: seq<seq<Model>>, n: nat)
    requires n <= |l| && forall i | 0 <= i < n :: |l[i]| > prefer
    ensures Allowed(prefer, l) == Allowed(prefer, l[n..])
  {
    if n == 0 {
      assert l[0..] == l;
    } else {
      AllowedSkips(prefer, l[1..], n - 1);
      assert l[1..][n - 1..] == l[n..];
    }
  }

  /** The workers that are tried, best first: two, then one, then none, as far as the settings want them. */
  lemma LadderIs(s: Settings)
    ensures s.preferWorkers >= 2 ==>
              Ladder(s) == [[Bonsai8B, Bonsai8B], [Bonsai8B, Bonsai4B], [Bonsai4B, Bonsai4B], [Bonsai8B], [Bonsai4B], [Bonsai1B7], []]
    ensures s.preferWorkers == 1 ==> Ladder(s) == [[Bonsai8B], [Bonsai4B], [Bonsai1B7], []]
    ensures s.preferWorkers == 0 ==> Ladder(s) == [[]]
  {
    var skipped := if s.preferWorkers >= 2 then 0 else if s.preferWorkers == 1 then 3 else 6;
    AllowedSkips(s.preferWorkers, WORKER_LADDER, skipped);
    AllowedWhole(s.preferWorkers, WORKER_LADDER[skipped..]);
  }

  /** The workers are the first of those tried that fit the room, on the slots from the third on. */
  lemma WorkersAre(m: Machine, s: Settings, o: Overrides, k: KvType, v: KvType, i: nat)
    requires OnGpus(m, s, o, k, v)
    ensures var n, ladder := RungOf(m, s, o, k, v), Ladder(s);
            && (n < |ladder| ==> RungTotal(EnvOf(m, s, o, k, v), WorkerCtx(s), ladder[n]) <= WorkerRoom(m, s, o, k, v))
            && (i < n ==> RungTotal(EnvOf(m, s, o, k, v), WorkerCtx(s), ladder[i]) > WorkerRoom(m, s, o, k, v))
  {
    FirstRungFits(EnvOf(m, s, o, k, v), WorkerCtx(s), WorkerRoom(m, s, o, k, v), Ladder(s));
  }

  lemma WorkerSlotsOf(slots: seq<Slot>, env: Env, tier: Tier, ctx: int, workerCtx: int, rung: seq<Model>, gpu: nat, i: nat)
    requires slots == Mandatory(env, tier, ctx) + WorkerSlots(RungCosts(env, workerCtx, rung), gpu)
    ensures |slots| == 2 + |rung| && (i < |rung| ==> slots[2 + i].model == rung[i])
  {
    AssembledShape(env, tier, ctx, workerCtx, rung, gpu, if i < |rung| then 2 + i else 0);
  }

  lemma WorkerSlotsAre(m: Machine, s: Settings, o: Overrides, k: KvType, v: KvType, i: nat)
    requires OnGpus(m, s, o, k, v)
    ensures var slots, rung := Plan(m, s, o, k, v).slots, RungAt(Ladder(s), RungOf(m, s, o, k, v));
            |slots| == 2 + |rung| && (i < |rung| ==> slots[2 + i].model == rung[i])
  {
    PlannedSlots(m, s, o, k, v);
    WorkerSlotsOf(Plan(m, s, o, k, v).slots, EnvOf(m, s, o, k, v), TierFor(m.gpus[0]).value, CtxOf(Orch(m, s, o, k, v)), WorkerCtx(s),
                  RungAt(Ladder(s), RungOf(m, s, o, k, v)), if |m.gpus| > 1 then 1 else 0, i);
  }

  /** The rest of a GPU loadout: the sums, the families, and every notice exactly when it applies. */
  lemma LoadoutIs(m: Machine, s: Settings, o: Overrides, k: KvType, v: KvType)
    requires OnGpus(m, s, o, k, v)
    ensures var l, n := Plan(m, s, o, k, v), RungOf(m, s, o, k, v);
            && |l.slots| >= 2
            && l.tier == TierFor(m.gpus[0]).value && !l.shared
            && l.headroom == TotalVram(m.gpus) - Total(l.slots)
            && l.configured == s.family && l.effective == FamilyOn(m, s)
            && (l.degraded <==> m.gpus[0] < 14336 && s.family == Ternary)
    ensures NoticesAre(Plan(m, s, o, k, v), m, s, Orch(m, s, o, k, v).Tight?, RungOf(m, s, o, k, v))
  {
    TierIs(m.gpus[0]);
    PlannedSlots(m, s, o, k, v);
    GpuNotices(m, s, o, k, v);
  }

  /** The notices of a GPU loadout in their order, each when it applies. */
  function Announced(family: bool, drafter: bool, tight: bool, context: bool, workers: bool, sequential: bool): seq<Notice> {
    Note(family, FamilyDegraded) + Note(drafter, DsparkUnavailable) + Note(tight, VramTight)
    + Note(context, OrchestratorCtxReduced) + Note(workers, WorkersDegraded) + Note(sequential, UltraSequential)
  }

  /** A notice is there exactly when it applies. */
  lemma AnnouncedIff(n: Notice, family: bool, drafter: bool, tight: bool, context: bool, workers: bool, sequential: bool)
    ensures n in Announced(family, drafter, tight, context, workers, sequential)
       <==> match n case FamilyDegraded => family case DsparkUnavailable => drafter case VramTight => tight
            case OrchestratorCtxReduced => context case WorkersDegraded => workers case UltraSequential => sequential
            case _ => false
  {
    InNote(n, family, FamilyDegraded);
    InNote(n, drafter, DsparkUnavailable);
    InNote(n, tight, VramTight);
    InNote(n, context, OrchestratorCtxReduced);
    InNote(n, workers, WorkersDegraded);
    InNote(n, sequential, UltraSequential);
  }

  lemma InNote(n: Notice, when: bool, notice: Notice)
    ensures n in Note(when, notice) <==> when && n == notice
  {
  }

  predicate NoticesAre(l: Loadout, m: Machine, s: Settings, tight: bool, rung: nat)
    requires m.gpus != []
  {
    && |l.slots| >= 2
    && l.notices == Announced(m.gpus[0] < 14336 && s.family == Ternary, s.dspark && !m.cuda, tight,
                              l.slots[0].ctx < s.orchestratorCtx, rung > 0 && |l.slots| > 2, |l.slots| == 2)
  }

  lemma GpuNotices(m: Machine, s: Settings, o: Overrides, k: KvType, v: KvType)
    requires OnGpus(m, s, o, k, v)
    ensures NoticesAre(Plan(m, s, o, k, v), m, s, Orch(m, s, o, k, v).Tight?, RungOf(m, s, o, k, v))
  {
    WorkerSlotsAre(m, s, o, k, v, 0);
    SlotsAre(m, s, o, k, v, 0);
    var rung := RungAt(Ladder(s), RungOf(m, s, o, k, v));
    assert |RungCosts(EnvOf(m, s, o, k, v), WorkerCtx(s), rung)| == |rung|;
  }

  // ---- common machines ----

  /** The settings as shipped. */
  const DEFAULTS := Settings(Ternary, 32768, 16384, 2, false)

  function Default(gpus: seq<nat>): Machine {
    Machine(gpus, 64512, true)
  }

  function PlanFor(gpus: seq<nat>): Loadout {
    Plan(Default(gpus), DEFAULTS, map[], Q8_0, TQ4_0)
  }

  /** The models by slot. */
  function Models(slots: seq<Slot>): (models: seq<Model>)
    ensures |models| == |slots|
  {
    seq(|slots|, i requires 0 <= i < |slots| => slots[i].model)
  }

  /** Analytic costs in MiB of the slots of the shipped settings, for one family. */
  predicate CostsAre(env: Env, orch: seq<int>, utility: int, small: int, workers: seq<int>)
    requires |orch| == 3 && |workers| == 3
  {
    && OrchCost(env, 32768).Total() == orch[0] && OrchCost(env, 16384).Total() == orch[1] && OrchCost(env, 8192).Total() == orch[2]
    && UtilityCost(env, Gb24).Total() == utility && UtilityCost(env, Gb8).Total() == small
    && WorkerCost(env, 16384, Bonsai8B).Total() == workers[0] && WorkerCost(env, 16384, Bonsai4B).Total() == workers[1]
    && WorkerCost(env, 16384, Bonsai1B7).Total() == workers[2]
  }

  lemma CacheSizes()
    ensures KvMb(Bonsai27B, 32768, Q8_0, TQ4_0) == 832 && KvMb(Bonsai27B, 16384, Q8_0, TQ4_0) == 416
    ensures KvMb(Bonsai27B, 8192, Q8_0, TQ4_0) == 208
    ensures KvMb(Bonsai8B, 16384, Q8_0, TQ4_0) == KvMb(Bonsai4B, 16384, Q8_0, TQ4_0) == 936
    ensures KvMb(Bonsai4B, 8192, Q8_0, TQ4_0) == 468
    ensures KvMb(Bonsai1B7, 8192, Q8_0, TQ4_0) == 364 && KvMb(Bonsai1B7, 16384, Q8_0, TQ4_0) == 728
  {
    RoundIs(16384 * 26 * 32768, 16 * BYTES_PER_MIB, 832);
    RoundIs(16384 * 26 * 16384, 16 * BYTES_PER_MIB, 416);
    RoundIs(16384 * 26 * 8192, 16 * BYTES_PER_MIB, 208);
    RoundIs(36864 * 26 * 16384, 16 * BYTES_PER_MIB, 936);
    RoundIs(36864 * 26 * 8192, 16 * BYTES_PER_MIB, 468);
    RoundIs(28672 * 26 * 8192, 16 * BYTES_PER_MIB, 364);
    RoundIs(28672 * 26 * 16384, 16 * BYTES_PER_MIB, 728);
  }

  lemma TernaryCosts()
    ensures CostsAre(Env(map[], Ternary, Q8_0, TQ4_0, false), [9536, 9120, 8912], 2106, 1418, [3629, 2574, 1782])
  {
    CacheSizes();
    WeightsInMib();
    assert Mib(120) == 1229 && Mib(60) == 614 && Mib(MMPROJ) == 645;
  }

  lemma OneBitCosts()
    ensures CostsAre(Env(map[], OneBit, Q8_0, TQ4_0, false), [6331, 5915, 5707], 1625, 1214, [2656, 2093, 1578])
  {
    CacheSizes();
    WeightsInMib();
    assert Mib(120) == 1229 && Mib(60) == 614 && Mib(MMPROJ) == 645;
  }

  lemma RungsAdd(env: Env, orch: seq<int>, utility: int, small: int, w: seq<int>)
    requires |orch| == 3 && |w| == 3 && CostsAre(env, orch, utility, small, w)
    ensures forall i | 0 <= i < 7 ::
              RungTotal(env, 16384, WORKER_LADDER[i]) == [2 * w[0], w[0] + w[1], 2 * w[1], w[0], w[1], w[2], 0][i]
  {
    RungOfTwo(env, 16384, Bonsai8B, Bonsai8B);
    RungOfTwo(env, 16384, Bonsai8B, Bonsai4B);
    RungOfTwo(env, 16384, Bonsai4B, Bonsai4B);
    RungOfOne(env, 16384, Bonsai8B);
    RungOfOne(env, 16384, Bonsai4B);
    RungOfOne(env, 16384, Bonsai1B7);
    NoWorkersCostNothing(env, 16384);
  }

  lemma FirstRungIs(env: Env, pool: int, n: nat)
    requires n < 7 && RungTotal(env, 16384, WORKER_LADDER[n]) <= pool
    requires forall i | 0 <= i < n :: RungTotal(env, 16384, WORKER_LADDER[i]) > pool
    ensures FirstRung(env, 16384, pool, WORKER_LADDER) == n
  {
    FirstRungFits(env, 16384, pool, WORKER_LADDER);
  }

  /** What the planner chooses on this machine: how the orchestrator fits, and which workers. */
  ghost predicate Chooses(gpus: seq<nat>, orch: Orchestration, n: nat) {
    && OnGpus(Default(gpus), DEFAULTS, map[], Q8_0, TQ4_0)
    && Orch(Default(gpus), DEFAULTS, map[], Q8_0, TQ4_0) == orch
    && RungOf(Default(gpus), DEFAULTS, map[], Q8_0, TQ4_0) == n < 7
  }

  lemma ContextsTried()
    ensures ContextLadder(32768) == [32768, 16384, 8192]
  {
    var one := InsertDescending(8192, []);
    var two := InsertDescending(16384, one);
    assert one == [8192] && two == [16384, 8192];
    var three := InsertDescending(32768, two);
    assert three == [32768, 16384, 8192] && three[1..] == two && two[1..] == one && one[1..] == [];
    assert AtMost(32768, one) == one;
    assert AtMost(32768, two) == [16384] + AtMost(32768, one) == two;
    assert AtMost(32768, three) == [32768] + AtMost(32768, two) == three;
  }

  lemma DefaultLadder()
    ensures Ladder(DEFAULTS) == WORKER_LADDER && ContextLadder(32768) == [32768, 16384, 8192]
  {
    LadderIs(DEFAULTS);
    ContextsTried();
  }

  lemma FitsLargest(env: Env, tier: Tier, vram: nat)
    requires OrchCost(env, 32768).Total() + UtilityCost(env, tier).Total() <= vram - Margin(vram)
    ensures PickOrchestrator(env, tier, vram, 32768) == Fitted(32768)
  {
    DefaultLadder();
  }

  lemma FitsTightly(env: Env, tier: Tier, vram: nat)
    requires forall c | c in ContextLadder(32768) :: OrchCost(env, c).Total() + UtilityCost(env, tier).Total() > vram - Margin(vram)
    requires OrchCost(env, 8192).Total() + UtilityCost(env, tier).Total() <= vram
    ensures PickOrchestrator(env, tier, vram, 32768) == Tight
  {
    FirstContextFits(env, UtilityCost(env, tier).Total(), vram - Margin(vram), ContextLadder(32768));
  }

  function DefaultEnv(gpus: seq<nat>): Env
    requires gpus != []
  {
    Env(map[], if gpus[0] < 14336 then OneBit else Ternary, Q8_0, TQ4_0, false)
  }

  lemma DefaultEnvIs(gpus: seq<nat>)
    requires gpus != []
    ensures EnvOf(Default(gpus), DEFAULTS, map[], Q8_0, TQ4_0) == DefaultEnv(gpus)
  {
  }

  lemma ChoiceIs(gpus: seq<nat>, tier: Tier, orch: Orchestration, n: nat, pool: int)
    requires gpus != [] && TierFor(gpus[0]) == Some(tier) && !orch.Overflow? && n < 7
    requires PickOrchestrator(DefaultEnv(gpus), tier, gpus[0], 32768) == orch
    requires WorkerPool(DefaultEnv(gpus), tier, gpus, orch) == pool
    requires FirstRung(DefaultEnv(gpus), 16384, pool, WORKER_LADDER) == n
    ensures Chooses(gpus, orch, n)
  {
    DefaultLadder();
    DefaultEnvIs(gpus);
  }

  /** What is left for the workers. */
  lemma PoolIs(env: Env, tier: Tier, gpus: seq<nat>, orch: Orchestration, need: int)
    requires gpus != [] && OrchCost(env, CtxOf(orch)).Total() + UtilityCost(env, tier).Total() == need
    ensures WorkerPool(env, tier, gpus, orch)
         == if |gpus| > 1 then gpus[1] - Kept(gpus[1]) else if orch.Tight? then 0 else gpus[0] - Kept(gpus[0]) - need
  {
    MarginIs(gpus[0]);
    MarginIs(if |gpus| > 1 then gpus[1] else 0);
  }

  lemma ChosenSlots(gpus: seq<nat>, orch: Orchestration, n: nat, i: nat)
    requires Chooses(gpus, orch, n)
    ensures var slots, rung := PlanFor(gpus).slots, WORKER_LADDER[n];
            && |slots| == 2 + |rung| && slots[0].model == Bonsai27B && slots[0].ctx == CtxOf(orch)
            && slots[1].model == (if gpus[0] < 10240 then Bonsai1B7 else Bonsai4B)
            && (i < |rung| ==> slots[2 + i].model == rung[i])
  {
    DefaultLadder();
    WorkerSlotsAre(Default(gpus), DEFAULTS, map[], Q8_0, TQ4_0, i);
    SlotsAre(Default(gpus), DEFAULTS, map[], Q8_0, TQ4_0, 0);
    SlotsAre(Default(gpus), DEFAULTS, map[], Q8_0, TQ4_0, 1);
  }

  lemma ModelsAre(slots: seq<Slot>, utility: Model, rung: seq<Model>)
    requires |slots| == 2 + |rung| && slots[0].model == Bonsai27B && slots[1].model == utility
    requires forall i | 0 <= i < |rung| :: slots[2 + i].model == rung[i]
    ensures Models(slots) == [Bonsai27B, utility] + rung
  {
    forall i | 0 <= i < |slots| ensures Models(slots)[i] == ([Bonsai27B, utility] + rung)[i] {
      if i >= 2 {
        assert slots[2 + (i - 2)].model == rung[i - 2];
      }
    }
  }

  lemma ChosenModels(gpus: seq<nat>, orch: Orchestration, n: nat)
    requires Chooses(gpus, orch, n)
    ensures Models(PlanFor(gpus).slots) == [Bonsai27B, if gpus[0] < 10240 then Bonsai1B7 else Bonsai4B] + WORKER_LADDER[n]
    ensures |PlanFor(gpus).slots| > 0 && PlanFor(gpus).slots[0].ctx == CtxOf(orch)
  {
    forall i | 0 <= i < |WORKER_LADDER[n]|
      ensures |PlanFor(gpus).slots| == 2 + |WORKER_LADDER[n]| && PlanFor(gpus).slots[2 + i].model == WORKER_LADDER[n][i]
    {
      ChosenSlots(gpus, orch, n, i);
    }
    ChosenSlots(gpus, orch, n, 0);
    ModelsAre(PlanFor(gpus).slots, if gpus[0] < 10240 then Bonsai1B7 else Bonsai4B, WORKER_LADDER[n]);
  }

  lemma HeadroomIs(m: Machine, s: Settings, o: Overrides, k: KvType, v: KvType, env: Env, tier: Tier, orch: Orchestration,
                   rung: seq<Model>, need: int, work: int)
    requires OnGpus(m, s, o, k, v) && env == EnvOf(m, s, o, k, v) && Some(tier) == TierFor(m.gpus[0]) && orch == Orch(m, s, o, k, v)
    requires rung == RungAt(Ladder(s), RungOf(m, s, o, k, v))
    requires OrchCost(env, CtxOf(orch)).Total() + UtilityCost(env, tier).Total() == need
    requires RungTotal(env, WorkerCtx(s), rung) == work
    ensures Plan(m, s, o, k, v).headroom == TotalVram(m.gpus) - (need + work)
  {
    LoadoutSums(m, s, o, k, v, 0);
  }

  lemma ChoiceFacts(gpus: seq<nat>, orch: Orchestration, n: nat)
    requires Chooses(gpus, orch, n)
    ensures EnvOf(Default(gpus), DEFAULTS, map[], Q8_0, TQ4_0) == DefaultEnv(gpus) && WorkerCtx(DEFAULTS) == 16384
    ensures RungAt(Ladder(DEFAULTS), RungOf(Default(gpus), DEFAULTS, map[], Q8_0, TQ4_0)) == WORKER_LADDER[n]
  {
    DefaultLadder();
    DefaultEnvIs(gpus);
  }

  lemma ChosenHeadroom(gpus: seq<nat>, tier: Tier, orch: Orchestration, n: nat, need: int, work: int)
    requires Chooses(gpus, orch, n) && TierFor(gpus[0]) == Some(tier)
    requires OrchCost(DefaultEnv(gpus), CtxOf(orch)).Total() + UtilityCost(DefaultEnv(gpus), tier).Total() == need
    requires RungTotal(DefaultEnv(gpus), 16384, WORKER_LADDER[n]) == work
    ensures PlanFor(gpus).headroom == TotalVram(gpus) - (need + work)
  {
    ChoiceFacts(gpus, orch, n);
    HeadroomIs(Default(gpus), DEFAULTS, map[], Q8_0, TQ4_0, DefaultEnv(gpus), tier, orch, WORKER_LADDER[n], need, work);
  }

  /** A loadout, by what tells it from the others. */
  predicate Loads(l: Loadout, tier: Tier, family: Family, models: seq<Model>, ctx: int, headroom: int, notices: seq<Notice>) {
    && l.tier == tier && l.effective == family && Models(l.slots) == models && models != [] && l.slots[0].ctx == ctx
    && l.headroom == headroom && l.notices == notices
  }

  function DefaultNotices(vram: nat, tight: bool, n: nat): seq<Notice> {
    Announced(vram < 14336, false, tight, tight, 0 < n < 6, n == 6)
  }

  lemma NoticesFollow(l: Loadout, gpus: seq<nat>, orch: Orchestration, n: nat)
    requires gpus != [] && n < 7 && (orch.Tight? || orch == Fitted(32768))
    requires NoticesAre(l, Default(gpus), DEFAULTS, orch.Tight?, n)
    requires |l.slots| == 2 + |WORKER_LADDER[n]| && l.slots[0].ctx == CtxOf(orch)
    ensures l.notices == DefaultNotices(gpus[0], orch.Tight?, n)
  {
    assert WORKER_LADDER[n] == [] <==> n == 6;
  }

  lemma ChosenNotices(gpus: seq<nat>, orch: Orchestration, n: nat)
    requires Chooses(gpus, orch, n) && (orch.Tight? || orch == Fitted(32768))
    ensures PlanFor(gpus).notices == DefaultNotices(gpus[0], orch.Tight?, n)
    ensures PlanFor(gpus).tier == TierFor(gpus[0]).value && PlanFor(gpus).effective == DefaultEnv(gpus).family
  {
    ChosenSlots(gpus, orch, n, 0);
    LoadoutIs(Default(gpus), DEFAULTS, map[], Q8_0, TQ4_0);
    NoticesFollow(PlanFor(gpus), gpus, orch, n);
  }

  /** The loadout that follows from the choice. */
  lemma Chosen(gpus: seq<nat>, tier: Tier, orch: Orchestration, n: nat, need: int, work: int)
    requires Chooses(gpus, orch, n) && TierFor(gpus[0]) == Some(tier) && (orch.Tight? || orch == Fitted(32768))
    requires OrchCost(DefaultEnv(gpus), CtxOf(orch)).Total() + UtilityCost(DefaultEnv(gpus), tier).Total() == need
    requires RungTotal(DefaultEnv(gpus), 16384, WORKER_LADDER[n]) == work
    ensures Loads(PlanFor(gpus), tier, DefaultEnv(gpus).family,
                  [Bonsai27B, if gpus[0] < 10240 then Bonsai1B7 else Bonsai4B] + WORKER_LADDER[n], CtxOf(orch),
                  TotalVram(gpus) - (need + work), DefaultNotices(gpus[0], orch.Tight?, n))
  {
    ChosenModels(gpus, orch, n);
    ChosenHeadroom(gpus, tier, orch, n, need, work);
    ChosenNotices(gpus, orch, n);
  }

  lemma TernaryPick(tier: Tier, vram: nat)
    requires (tier == Gb24 && vram == 24576) || (tier == Gb16 && vram == 16384)
    ensures PickOrchestrator(Env(map[], Ternary, Q8_0, TQ4_0, false), tier, vram, 32768) == Fitted(32768)
  {
    TernaryCosts();
    FitsLargest(Env(map[], Ternary, Q8_0, TQ4_0, false), tier, vram);
  }

  lemma TernaryRung(env: Env, pool: int, n: nat, work: int)
    requires env == Env(map[], Ternary, Q8_0, TQ4_0, false) && n < 7
    requires var totals := [7258, 6203, 5148, 3629, 2574, 1782, 0];
             work == totals[n] <= pool && forall i | 0 <= i < n :: totals[i] > pool
    ensures FirstRung(env, 16384, pool, WORKER_LADDER) == n && RungTotal(env, 16384, WORKER_LADDER[n]) == work
  {
    TernaryCosts();
    RungsAdd(env, [9536, 9120, 8912], 2106, 1418, [3629, 2574, 1782]);
    FirstRungIs(env, pool, n);
  }

  lemma TernaryNeeds(env: Env, tier: Tier)
    requires env == Env(map[], Ternary, Q8_0, TQ4_0, false) && tier in {Gb24, Gb16}
    ensures OrchCost(env, 32768).Total() + UtilityCost(env, tier).Total() == 11642
  {
    TernaryCosts();
  }

  lemma TernaryChoice(gpus: seq<nat>, tier: Tier, n: nat, pool: int, work: int)
    requires gpus != [] && n < 7 && ((tier == Gb24 && gpus[0] == 24576) || (tier == Gb16 && gpus[0] == 16384))
    requires pool == if |gpus| > 1 then gpus[1] - Kept(gpus[1]) else gpus[0] - Kept(gpus[0]) - 11642
    requires var totals := [7258, 6203, 5148, 3629, 2574, 1782, 0];
             work == totals[n] <= pool && forall i | 0 <= i < n :: totals[i] > pool
    ensures Chooses(gpus, Fitted(32768), n) && RungTotal(DefaultEnv(gpus), 16384, WORKER_LADDER[n]) == work
  {
    TernaryPick(tier, gpus[0]);
    TernaryRung(DefaultEnv(gpus), pool, n, work);
    TernaryNeeds(DefaultEnv(gpus), tier);
    PoolIs(DefaultEnv(gpus), tier, gpus, Fitted(32768), 11642);
    ChoiceIs(gpus, tier, Fitted(32768), n, pool);
  }

  /** The 1-bit orchestrator and utility model, in full on 12 GB and tightly on 8 GB. */
  lemma OneBitPicks(env: Env)
    requires env == Env(map[], OneBit, Q8_0, TQ4_0, false)
    ensures PickOrchestrator(env, Gb12, 12288, 32768) == Fitted(32768)
    ensures PickOrchestrator(env, Gb8, 8192, 32768) == Tight
  {
    OneBitCosts();
    ContextsTried();
    FitsLargest(env, Gb12, 12288);
    FitsTightly(env, Gb8, 8192);
  }

  lemma OneBitNeeds(env: Env)
    requires env == Env(map[], OneBit, Q8_0, TQ4_0, false)
    ensures OrchCost(env, 32768).Total() + UtilityCost(env, Gb12).Total() == 7956
    ensures OrchCost(env, 8192).Total() + UtilityCost(env, Gb8).Total() == 6921
  {
    OneBitCosts();
  }

  lemma OneBitRung(env: Env, pool: int, n: nat, work: int)
    requires env == Env(map[], OneBit, Q8_0, TQ4_0, false) && n < 7
    requires var totals := [5312, 4749, 4186, 2656, 2093, 1578, 0];
             work == totals[n] <= pool && forall i | 0 <= i < n :: totals[i] > pool
    ensures FirstRung(env, 16384, pool, WORKER_LADDER) == n && RungTotal(env, 16384, WORKER_LADDER[n]) == work
  {
    OneBitCosts();
    RungsAdd(env, [6331, 5915, 5707], 1625, 1214, [2656, 2093, 1578]);
    FirstRungIs(env, pool, n);
  }

  lemma TightChoice(gpus: seq<nat>, n: nat, pool: int, work: int)
    requires gpus != [] && gpus[0] == 8192 && n < 7
    requires pool == if |gpus| > 1 then gpus[1] - Kept(gpus[1]) else 0
    requires var totals := [5312, 4749, 4186, 2656, 2093, 1578, 0];
             work == totals[n] <= pool && forall i | 0 <= i < n :: totals[i] > pool
    ensures Chooses(gpus, Tight, n) && RungTotal(DefaultEnv(gpus), 16384, WORKER_LADDER[n]) == work
  {
    OneBitPicks(DefaultEnv(gpus));
    OneBitRung(DefaultEnv(gpus), pool, n, work);
    OneBitNeeds(DefaultEnv(gpus));
    PoolIs(DefaultEnv(gpus), Gb8, gpus, Tight, 6921);
    ChoiceIs(gpus, Gb8, Tight, n, pool);
  }

  lemma FittedChoice(gpus: seq<nat>)
    requires gpus == [12288]
    ensures Chooses(gpus, Fitted(32768), 3) && RungTotal(DefaultEnv(gpus), 16384, WORKER_LADDER[3]) == 2656
  {
    OneBitPicks(DefaultEnv(gpus));
    OneBitRung(DefaultEnv(gpus), 2796, 3, 2656);
    OneBitNeeds(DefaultEnv(gpus));
    PoolIs(DefaultEnv(gpus), Gb12, gpus, Fitted(32768), 7956);
    ChoiceIs(gpus, Gb12, Fitted(32768), 3, 2796);
  }

  lemma TotalOf(a: nat, b: nat)
    ensures TotalVram([a]) == a && TotalVram([a, b]) == a + b
  {
    assert [a][..0] == [] && [a, b][..1] == [a];
  }

  lemma Plan24Values(l: Loadout, gpus: seq<nat>)
    requires gpus == [24576]
    requires Loads(l, Gb24, Ternary, [Bonsai27B, Bonsai4B] + WORKER_LADDER[0], 32768, TotalVram(gpus) - 18900,
                   DefaultNotices(24576, false, 0))
    ensures Loads(l, Gb24, Ternary, [Bonsai27B, Bonsai4B, Bonsai8B, Bonsai8B], 32768, 5676, [])
  {
    TotalOf(24576, 0);
    assert [Bonsai27B, Bonsai4B] + WORKER_LADDER[0] == [Bonsai27B, Bonsai4B, Bonsai8B, Bonsai8B];
  }

  /** 24 GB: everything at its best. */
  lemma Plan24()
    ensures Loads(PlanFor([24576]), Gb24, Ternary, [Bonsai27B, Bonsai4B, Bonsai8B, Bonsai8B], 32768, 5676,
                  [])
  {
    TernaryChoice([24576], Gb24, 0, 10968, 7258);
    TernaryNeeds(DefaultEnv([24576]), Gb24);
    Chosen([24576], Gb24, Fitted(32768), 0, 11642, 7258);
    Plan24Values(PlanFor([24576]), [24576]);
  }

  lemma Plan16Values(l: Loadout, gpus: seq<nat>)
    requires gpus == [16384]
    requires Loads(l, Gb16, Ternary, [Bonsai27B, Bonsai4B] + WORKER_LADDER[4], 32768, TotalVram(gpus) - 14216,
                   DefaultNotices(16384, false, 4))
    ensures Loads(l, Gb16, Ternary, [Bonsai27B, Bonsai4B, Bonsai4B], 32768, 2168, [WorkersDegraded])
  {
    TotalOf(16384, 0);
    assert [Bonsai27B, Bonsai4B] + WORKER_LADDER[4] == [Bonsai27B, Bonsai4B, Bonsai4B];
  }

  /** 16 GB: one 4B worker is what is left. */
  lemma Plan16()
    ensures Loads(PlanFor([16384]), Gb16, Ternary, [Bonsai27B, Bonsai4B, Bonsai4B], 32768, 2168,
                  [WorkersDegraded])
  {
    TernaryChoice([16384], Gb16, 4, 3206, 2574);
    TernaryNeeds(DefaultEnv([16384]), Gb16);
    Chosen([16384], Gb16, Fitted(32768), 4, 11642, 2574);
    Plan16Values(PlanFor([16384]), [16384]);
  }

  lemma Plan12Values(l: Loadout, gpus: seq<nat>)
    requires gpus == [12288]
    requires Loads(l, Gb12, OneBit, [Bonsai27B, Bonsai4B] + WORKER_LADDER[3], 32768, TotalVram(gpus) - 10612,
                   DefaultNotices(12288, false, 3))
    ensures Loads(l, Gb12, OneBit, [Bonsai27B, Bonsai4B, Bonsai8B], 32768, 1676, [FamilyDegraded, WorkersDegraded])
  {
    TotalOf(12288, 0);
    assert [Bonsai27B, Bonsai4B] + WORKER_LADDER[3] == [Bonsai27B, Bonsai4B, Bonsai8B];
  }

  /** 12 GB: the 1-bit family, with one 8B worker. */
  lemma Plan12()
    ensures Loads(PlanFor([12288]), Gb12, OneBit, [Bonsai27B, Bonsai4B, Bonsai8B], 32768, 1676,
                  [FamilyDegraded, WorkersDegraded])
  {
    FittedChoice([12288]);
    OneBitNeeds(DefaultEnv([12288]));
    Chosen([12288], Gb12, Fitted(32768), 3, 7956, 2656);
    Plan12Values(PlanFor([12288]), [12288]);
  }

  lemma Plan8Values(l: Loadout, gpus: seq<nat>)
    requires gpus == [8192]
    requires Loads(l, Gb8, OneBit, [Bonsai27B, Bonsai1B7] + WORKER_LADDER[6], 8192, TotalVram(gpus) - 6921,
                   DefaultNotices(8192, true, 6))
    ensures Loads(l, Gb8, OneBit, [Bonsai27B, Bonsai1B7], 8192, 1271, [FamilyDegraded, VramTight, OrchestratorCtxReduced, UltraSequential])
  {
    TotalOf(8192, 0);
    assert [Bonsai27B, Bonsai1B7] + WORKER_LADDER[6] == [Bonsai27B, Bonsai1B7];
  }

  /** 8 GB: a tight fit without workers. */
  lemma Plan8()
    ensures Loads(PlanFor([8192]), Gb8, OneBit, [Bonsai27B, Bonsai1B7], 8192, 1271,
                  [FamilyDegraded, VramTight, OrchestratorCtxReduced, UltraSequential])
  {
    TightChoice([8192], 6, 0, 0);
    OneBitNeeds(DefaultEnv([8192]));
    Chosen([8192], Gb8, Tight, 6, 6921, 0);
    Plan8Values(PlanFor([8192]), [8192]);
  }

  lemma PlanTwoGpusValues(l: Loadout, gpus: seq<nat>)
    requires gpus == [24576, 8192]
    requires Loads(l, Gb24, Ternary, [Bonsai27B, Bonsai4B] + WORKER_LADDER[1], 32768, TotalVram(gpus) - 17845,
                   DefaultNotices(24576, false, 1))
    ensures Loads(l, Gb24, Ternary, [Bonsai27B, Bonsai4B, Bonsai8B, Bonsai4B], 32768, 14923, [WorkersDegraded])
  {
    TotalOf(24576, 8192);
    assert [Bonsai27B, Bonsai4B] + WORKER_LADDER[1] == [Bonsai27B, Bonsai4B, Bonsai8B, Bonsai4B];
  }

  /** A second GPU holds the workers, and only they depend on it. */
  lemma PlanTwoGpus()
    ensures Loads(PlanFor([24576, 8192]), Gb24, Ternary, [Bonsai27B, Bonsai4B, Bonsai8B, Bonsai4B], 32768, 14923,
                  [WorkersDegraded])
  {
    TernaryChoice([24576, 8192], Gb24, 1, 6656, 6203);
    TernaryNeeds(DefaultEnv([24576, 8192]), Gb24);
    Chosen([24576, 8192], Gb24, Fitted(32768), 1, 11642, 6203);
    PlanTwoGpusValues(PlanFor([24576, 8192]), [24576, 8192]);
  }

  lemma PlanTwoSmallGpusValues(l: Loadout, gpus: seq<nat>)
    requires gpus == [8192, 8192]
    requires Loads(l, Gb8, OneBit, [Bonsai27B, Bonsai1B7] + WORKER_LADDER[0], 8192, TotalVram(gpus) - 12233,
                   DefaultNotices(8192, true, 0))
    ensures Loads(l, Gb8, OneBit, [Bonsai27B, Bonsai1B7, Bonsai8B, Bonsai8B], 8192, 4151,
                  [FamilyDegraded, VramTight, OrchestratorCtxReduced])
  {
    TotalOf(8192, 8192);
    assert [Bonsai27B, Bonsai1B7] + WORKER_LADDER[0] == [Bonsai27B, Bonsai1B7, Bonsai8B, Bonsai8B];
  }

  /** Beside 8 GB, a second GPU of 8 GB has room for both 8B workers. */
  lemma PlanTwoSmallGpus()
    ensures Loads(PlanFor([8192, 8192]), Gb8, OneBit, [Bonsai27B, Bonsai1B7, Bonsai8B, Bonsai8B], 8192, 4151,
                  [FamilyDegraded, VramTight, OrchestratorCtxReduced])
  {
    TightChoice([8192, 8192], 0, 6656, 5312);
    OneBitNeeds(DefaultEnv([8192, 8192]));
    Chosen([8192, 8192], Gb8, Tight, 0, 6921, 5312);
    PlanTwoSmallGpusValues(PlanFor([8192, 8192]), [8192, 8192]);
  }
}
