/** VRAM cost of one slot in MiB (sched/budget.py): analytic priors, and measured overrides. */
module Budget {
  import opened Prelude

  datatype Model = Bonsai27B | Bonsai8B | Bonsai4B | Bonsai1B7
  datatype Family = Ternary | OneBit
  datatype KvType = F16 | Q8_0 | TQ4_0 | TQ3_0

  /** Python's round of num / den: to nearest, ties to even. */
  function Round(num: int, den: int): (r: int)
    requires den > 0
    ensures 2 * num - den <= 2 * (r * den) <= 2 * num + den
    ensures 2 * (r * den) == 2 * num - den || 2 * (r * den) == 2 * num + den ==> r % 2 == 0
  {
    var q, rest := num / den, num % den;
    assert num == q * den + rest;
    assert (q + 1) * den == q * den + den;
    if 2 * rest < den || (2 * rest == den && q % 2 == 0) then q else q + 1
  }

  lemma QuotientMonotone(a: int, b: int, den: int)
    requires den > 0 && a <= b
    ensures a / den <= b / den
    ensures a / den == b / den ==> a % den <= b % den
  {
    var q, r := a / den, b / den;
    assert a == q * den + a % den && b == r * den + b % den;
    assert den * (r + 1) == r * den + den;
    if r < q {
      Times(den, r + 1, q);
    }
  }

  lemma Times(unit: nat, c: int, d: int)
    requires c <= d
    ensures unit * c <= unit * d
  {
  }

  /** Rounding is monotone. */
  lemma RoundMonotone(a: int, b: int, den: int)
    requires den > 0 && a <= b
    ensures Round(a, den) <= Round(b, den)
  {
    QuotientMonotone(a, b, den);
  }

  /** KV bytes per element, in sixteenths. */
  function KvSixteenths(t: KvType): nat {
    match t case F16 => 32 case Q8_0 => 17 case TQ4_0 => 9 case TQ3_0 => 7
  }

  /** Layers * KV heads * head dimension, for each of K and V. */
  function KvElements(m: Model): nat {
    match m case Bonsai27B => 16 * 4 * 256 case Bonsai8B => 36 * 8 * 128 case Bonsai4B => 36 * 8 * 128 case Bonsai1B7 => 28 * 8 * 128
  }

  /** Weights in hundredths of a GiB. */
  function WeightsPrior(m: Model, f: Family): nat {
    match (m, f)
    case (Bonsai27B, Ternary) => 667 case (Bonsai27B, OneBit) => 354
    case (Bonsai8B, Ternary) => 203 case (Bonsai8B, OneBit) => 108
    case (Bonsai4B, Ternary) => 100 case (Bonsai4B, OneBit) => 53
    case (Bonsai1B7, Ternary) => 43 case (Bonsai1B7, OneBit) => 23
  }

  function BufferPrior(m: Model): nat {
    if m.Bonsai27B? then 120 else 60
  }

  const MMPROJ := 63
  const DSPARK := 180

  function MaxCtx(m: Model): nat {
    match m case Bonsai27B => 262144 case Bonsai8B => 65536 case Bonsai4B => 32768 case Bonsai1B7 => 32768
  }

  /** A size given in hundredths of a GiB, in MiB. */
  function Mib(hundredths: nat): int {
    Round(hundredths * 1024, 100)
  }

  const BYTES_PER_MIB := 1024 * 1024

  function KvMb(m: Model, ctx: int, k: KvType, v: KvType): int {
    Round(KvElements(m) * (KvSixteenths(k) + KvSixteenths(v)) * ctx, 16 * BYTES_PER_MIB)
  }

  datatype Measured = Measured(weights: Option<int>, buffers: Option<int>)

  type Overrides = map<(Model, Family), Measured>

  datatype Cost = Cost(model: Model, family: Family, ctx: int, weights: int, kv: int, buffers: int, extras: int, measured: bool) {
    function Total(): int {
      weights + kv + buffers + extras
    }
  }

  function Or(o: Option<int>, prior: int): int {
    if o.Some? then o.value else prior
  }

  function SlotCost(o: Overrides, m: Model, f: Family, ctx: int, k: KvType, v: KvType, mmproj: bool, dspark: bool): Cost {
    var known := (m, f) in o;
    var measured := if known then o[(m, f)] else Measured(None, None);
    Cost(m, f, ctx, Or(measured.weights, Mib(WeightsPrior(m, f))), KvMb(m, ctx, k, v), Or(measured.buffers, Mib(BufferPrior(m))),
         (if mmproj then Mib(MMPROJ) else 0) + (if dspark then Mib(DSPARK) else 0),
         measured.weights.Some? || measured.buffers.Some?)
  }

  /** The analytic weights in MiB, ternary and 1-bit. */
  lemma WeightsInMib()
    ensures Mib(WeightsPrior(Bonsai27B, Ternary)) == 6830 && Mib(WeightsPrior(Bonsai27B, OneBit)) == 3625
    ensures Mib(WeightsPrior(Bonsai8B, Ternary)) == 2079 && Mib(WeightsPrior(Bonsai8B, OneBit)) == 1106
    ensures Mib(WeightsPrior(Bonsai4B, Ternary)) == 1024 && Mib(WeightsPrior(Bonsai4B, OneBit)) == 543
    ensures Mib(WeightsPrior(Bonsai1B7, Ternary)) == 440 && Mib(WeightsPrior(Bonsai1B7, OneBit)) == 236
  {
  }

  lemma Apart(den: nat, a: int, b: int)
    requires a < b
    ensures a * den + den <= b * den
  {
    Times(den, a + 1, b);
  }

  /** There is one nearest number, unless there is a tie. */
  lemma NearestIsUnique(num: int, den: nat, q: int, r: int)
    requires 2 * num - den <= 2 * (q * den) <= 2 * num + den
    requires 2 * num - den < 2 * (r * den) < 2 * num + den
    ensures q == r
  {
    if q < r {
      Apart(den, q, r);
    } else if r < q {
      Apart(den, r, q);
    }
  }

  lemma RoundIs(num: int, den: nat, r: int)
    requires den > 0 && 2 * num - den < 2 * (r * den) < 2 * num + den
    ensures Round(num, den) == r
  {
    NearestIsUnique(num, den, Round(num, den), r);
  }

  /** 2048 tokens at K = q8_0 and V = tq4_0: 26, 58.5, 58.5 and 45.5 KiB each. */
  lemma KvInMib()
    ensures KvMb(Bonsai27B, 2048, Q8_0, TQ4_0) == 52 && KvMb(Bonsai8B, 2048, Q8_0, TQ4_0) == 117
    ensures KvMb(Bonsai4B, 2048, Q8_0, TQ4_0) == 117 && KvMb(Bonsai1B7, 2048, Q8_0, TQ4_0) == 91
  {
    RoundIs(16384 * 26 * 2048, 16 * BYTES_PER_MIB, 52);
    RoundIs(36864 * 26 * 2048, 16 * BYTES_PER_MIB, 117);
    RoundIs(28672 * 26 * 2048, 16 * BYTES_PER_MIB, 91);
  }

  /** The other cache types, for the 27B: 64, 49 and 24 KiB per token; a tie is rounded to the even number. */
  lemma KvByType()
    ensures KvMb(Bonsai27B, 1024, F16, F16) == 64 && KvMb(Bonsai27B, 1024, F16, Q8_0) == 49
    ensures KvMb(Bonsai27B, 1024, Q8_0, TQ3_0) == 24 && KvMb(Bonsai8B, 1024, Q8_0, TQ4_0) == 58
  {
    RoundIs(16384 * 64 * 1024, 16 * BYTES_PER_MIB, 64);
    RoundIs(16384 * 49 * 1024, 16 * BYTES_PER_MIB, 49);
    RoundIs(16384 * 24 * 1024, 16 * BYTES_PER_MIB, 24);
  }

  /** The part that was measured, if it was. */
  function MeasuredPart(o: Overrides, m: Model, f: Family, part: Measured -> Option<int>): Option<int> {
    if (m, f) in o then part(o[(m, f)]) else None
  }

  /**
   What a slot costs: measured parts count as measured and the other ones as estimated; the vision projector and
   the drafter come on top for the slots that have them; the cache is never measured.
   */
  lemma SlotCostIs(o: Overrides, m: Model, f: Family, ctx: int, k: KvType, v: KvType, mmproj: bool, dspark: bool)
    ensures var c := SlotCost(o, m, f, ctx, k, v, mmproj, dspark);
            var weights, buffers := MeasuredPart(o, m, f, (x: Measured) => x.weights), MeasuredPart(o, m, f, (x: Measured) => x.buffers);
            && c.Total() == c.weights + c.buffers + KvMb(m, ctx, k, v) + (if mmproj then 645 else 0) + (if dspark then 1843 else 0)
            && c.weights == (if weights.Some? then weights.value else Mib(WeightsPrior(m, f)))
            && c.buffers == (if buffers.Some? then buffers.value else if m == Bonsai27B then 1229 else 614)
            && (c.measured <==> weights.Some? || buffers.Some?)
            && c.ctx == ctx && c.model == m && c.family == f
  {
    assert Mib(120) == 1229 && Mib(60) == 614 && Mib(MMPROJ) == 645 && Mib(DSPARK) == 1843;
  }

  /** A longer context never costs less, whatever has been measured. */
  lemma LongerCostsMore(o: Overrides, m: Model, f: Family, c: int, d: int, k: KvType, v: KvType, mmproj: bool, dspark: bool)
    requires c <= d
    ensures SlotCost(o, m, f, c, k, v, mmproj, dspark).Total() <= SlotCost(o, m, f, d, k, v, mmproj, dspark).Total()
  {
    var unit := KvElements(m) * (KvSixteenths(k) + KvSixteenths(v));
    Times(unit, c, d);
    RoundMonotone(unit * c, unit * d, 16 * BYTES_PER_MIB);
  }

  /** The measured values on record, and the cost that follows from them. */
  class BudgetProvider {
    var measured: Overrides

    constructor (measured: Overrides)
      ensures this.measured == measured
    {
      this.measured := measured;
    }

    /** A new measurement of one part keeps what was measured of the other, and all other models. */
    method RecordMeasured(m: Model, f: Family, weights: Option<int>, buffers: Option<int>)
      modifies this
      ensures measured.Keys == old(measured).Keys + {(m, f)}
      ensures forall key | key in old(measured) && key != (m, f) :: measured[key] == old(measured)[key]
      ensures measured[(m, f)].weights
           == if weights.Some? then weights else if (m, f) in old(measured) then old(measured)[(m, f)].weights else None
      ensures measured[(m, f)].buffers
           == if buffers.Some? then buffers else if (m, f) in old(measured) then old(measured)[(m, f)].buffers else None
    {
      var entry := if (m, f) in measured then measured[(m, f)] else Measured(None, None);
      if weights.Some? {
        entry := entry.(weights := weights);
      }
      if buffers.Some? {
        entry := entry.(buffers := buffers);
      }
      measured := measured[(m, f) := entry];
    }
  }
}
