/** Adaptive batch sizing, over the reals. */
module BatchSizing {
  import opened Wrappers

  datatype Sizing = Sizing(minBatch: int, maxBatch: int, targetCpu: real, targetMem: real)

  datatype Metrics = Metrics(cpu: real, mem: real, queueLoad: real)

  /** What toConfig guarantees; minBatch may exceed maxBatch. */
  predicate Configured(z: Sizing) { z.minBatch >= 1 && z.maxBatch >= 1 && z.targetCpu > 0.0 && z.targetMem > 0.0 }

  function MaxReal(a: real, b: real): real { if a < b then b else a }

  function MinReal(a: real, b: real): real { if b < a then b else a }

  /** Go's conversion of a float to int drops the fraction. */
  function Truncate(x: real): int { if x >= 0.0 then x.Floor else -((-x).Floor) }

  function ResourceFactor(z: Sizing, m: Metrics): real
    requires Configured(z)
  {
    MaxReal(0.0, 1.0 - m.cpu / z.targetCpu) * 0.4 + MaxReal(0.0, 1.0 - m.mem / z.targetMem) * 0.4
    + MinReal(1.0, m.queueLoad / 50.0) * 0.2
  }

  function RawSize(z: Sizing, factor: real): int { Truncate(z.maxBatch as real * factor) }

  function Clamp(z: Sizing, raw: int): int { Max(z.minBatch, Min(raw, z.maxBatch)) }

  function BatchSize(z: Sizing, m: Metrics): (size: int)
    requires Configured(z)
    ensures z.minBatch <= size <= Max(z.minBatch, z.maxBatch)
  {
    Clamp(z, RawSize(z, ResourceFactor(z, m)))
  }

  predicate Measured(m: Metrics) { m.cpu >= 0.0 && m.mem >= 0.0 && 0.0 <= m.queueLoad <= 100.0 }

  /** QueueLoad as sampled: a percentage, because a channel never holds more than its capacity. */
  function QueueLoad(length: nat, capacity: nat): real
    requires length <= capacity && capacity > 0
  {
    length as real / capacity as real * 100.0
  }

  lemma RatioBounds(x: real, y: real)
    requires 0.0 <= x && y > 0.0
    ensures x / y >= 0.0
    ensures x <= y ==> x / y <= 1.0
    ensures x >= y ==> x / y >= 1.0
  {
    ProductOrder(0.0, x / y, y);
    ProductOrder(x / y, 1.0, y);
    ProductOrder(1.0, x / y, y);
  }

  lemma ProductOrder(p: real, q: real, y: real)
    requires y > 0.0
    ensures p * y <= q * y <==> p <= q
  {
    assert p > q ==> (p - q) * y > 0.0;
    assert p < q ==> (q - p) * y > 0.0;
  }

  lemma RatioMonotone(x: real, x': real, y: real)
    requires x <= x' && y > 0.0
    ensures x / y <= x' / y
  {
    ProductOrder(x / y, x' / y, y);
  }

  lemma QueueLoadIsPercentage(length: nat, capacity: nat)
    requires length <= capacity && capacity > 0
    ensures 0.0 <= QueueLoad(length, capacity) <= 100.0
    ensures QueueLoad(length, capacity) * capacity as real == 100.0 * length as real
  {
    RatioBounds(length as real, capacity as real);
  }

  lemma FactorBounds(z: Sizing, m: Metrics)
    requires Configured(z) && Measured(m)
    ensures 0.0 <= ResourceFactor(z, m) <= 1.0
    ensures m.cpu >= z.targetCpu && m.mem >= z.targetMem ==> ResourceFactor(z, m) <= 0.2
  {
    RatioBounds(m.cpu, z.targetCpu);
    RatioBounds(m.mem, z.targetMem);
  }

  lemma FactorMonotone(z: Sizing, m: Metrics, m': Metrics)
    requires Configured(z) && m.cpu >= m'.cpu && m.mem >= m'.mem && m.queueLoad <= m'.queueLoad
    ensures ResourceFactor(z, m) <= ResourceFactor(z, m')
  {
    RatioMonotone(m'.cpu, m.cpu, z.targetCpu);
    RatioMonotone(m'.mem, m.mem, z.targetMem);
  }

  lemma RawSizeMonotone(z: Sizing, x: real, y: real)
    requires Configured(z) && 0.0 <= x <= y
    ensures 0 <= RawSize(z, x) <= RawSize(z, y)
  {
    var c := z.maxBatch as real;
    assert c * x >= 0.0 && c * (y - x) >= 0.0;
    assert c * y == c * x + c * (y - x);
  }

  lemma RawSizeAt(z: Sizing)
    requires Configured(z)
    ensures RawSize(z, 1.0) == z.maxBatch && RawSize(z, 0.2) == z.maxBatch / 5
  {
    var c := z.maxBatch as real;
    assert c * 0.2 == c / 5.0;
    assert (z.maxBatch / 5) as real * 5.0 <= c < ((z.maxBatch / 5) as real + 1.0) * 5.0;
  }

  /** For nonnegative metrics the weighted factor is a fraction, so the raw size never exceeds the maximum. */
  lemma FactorIsFraction(z: Sizing, m: Metrics)
    requires Configured(z) && Measured(m)
    ensures 0.0 <= ResourceFactor(z, m) <= 1.0
    ensures 0 <= RawSize(z, ResourceFactor(z, m)) <= z.maxBatch
  {
    FactorBounds(z, m);
    RawSizeMonotone(z, ResourceFactor(z, m), 1.0);
    RawSizeAt(z);
  }

  lemma ClampMonotone(z: Sizing, a: int, b: int)
    requires a <= b
    ensures Clamp(z, a) <= Clamp(z, b)
    ensures Clamp(z, a) <= Max(z.minBatch, b)
  {
  }

  /** More load on the machine never enlarges a batch; more load on the queue never shrinks it. */
  lemma SizeIsMonotone(z: Sizing, m: Metrics, m': Metrics)
    requires Configured(z) && Measured(m) && Measured(m')
    requires m.cpu >= m'.cpu && m.mem >= m'.mem && m.queueLoad <= m'.queueLoad
    ensures BatchSize(z, m) <= BatchSize(z, m')
  {
    FactorMonotone(z, m, m');
    FactorBounds(z, m);
    var f, g := ResourceFactor(z, m), ResourceFactor(z, m');
    RawSizeMonotone(z, f, g);
    ClampMonotone(z, RawSize(z, f), RawSize(z, g));
  }

  /** Once both targets are reached only the queue weighs in: at most a fifth of the maximum. */
  lemma BackOffAtTargets(z: Sizing, m: Metrics)
    requires Configured(z) && Measured(m) && m.cpu >= z.targetCpu && m.mem >= z.targetMem
    ensures BatchSize(z, m) <= Max(z.minBatch, z.maxBatch / 5)
  {
    FactorBounds(z, m);
    var f := ResourceFactor(z, m);
    RawSizeMonotone(z, f, 0.2);
    RawSizeAt(z);
    ClampMonotone(z, RawSize(z, f), z.maxBatch / 5);
  }

  // ---- Exact sizes ----

  lemma RatioIs(x: real, y: real, q: real)
    requires y > 0.0 && x == q * y
    ensures x / y == q
  {
    ProductOrder(x / y, q, y);
    ProductOrder(q, x / y, y);
  }

  lemma FiftiethsOf(n: int, x: real)
    requires n >= 0 && x * 50.0 == n as real
    ensures Truncate(x) == n / 50
  {
    assert n == n / 50 * 50 + n % 50;
    assert (n / 50) as real <= x < (n / 50) as real + 1.0;
  }

  lemma RawSizeOf(z: Sizing, p: nat)
    requires Configured(z)
    ensures RawSize(z, p as real / 50.0) == z.maxBatch * p / 50
  {
    var c, f := z.maxBatch as real, p as real / 50.0;
    calc {
      c * f * 50.0;
      c * (f * 50.0);
      { assert f * 50.0 == p as real; }
      c * p as real;
    }
    assert c * p as real == (z.maxBatch * p) as real;
    assert z.maxBatch * p >= 0;
    FiftiethsOf(z.maxBatch * p, c * f);
  }

  /** How free a resource is: wholly when idle, half at half its target, not at all from its target on. */
  predicate Free(load: real, target: real, tenths: nat) {
    || (tenths == 10 && load == 0.0)
    || (tenths == 5 && load + load == target)
    || (tenths == 0 && load >= target)
  }

  /** How full the queue counts as: half at 25 percent, wholly from 50 percent on. */
  predicate Full(queueLoad: real, tenths: nat) {
    || (tenths == 0 && queueLoad == 0.0)
    || (tenths == 5 && queueLoad == 25.0)
    || (tenths == 10 && queueLoad >= 50.0)
  }

  lemma Freedom(load: real, target: real, tenths: nat)
    requires target > 0.0 && load >= 0.0 && Free(load, target, tenths)
    ensures MaxReal(0.0, 1.0 - load / target) == tenths as real / 10.0
  {
    if tenths == 10 {
      RatioIs(load, target, 0.0);
    } else if tenths == 5 {
      RatioIs(load, target, 0.5);
    } else {
      RatioBounds(load, target);
    }
  }

  lemma Fullness(queueLoad: real, tenths: nat)
    requires Full(queueLoad, tenths)
    ensures MinReal(1.0, queueLoad / 50.0) == tenths as real / 10.0
  {
  }

  lemma FactorIs(z: Sizing, m: Metrics, cpu: nat, mem: nat, queue: nat)
    requires Configured(z) && Measured(m)
    requires Free(m.cpu, z.targetCpu, cpu) && Free(m.mem, z.targetMem, mem) && Full(m.queueLoad, queue)
    ensures ResourceFactor(z, m) == (2 * cpu + 2 * mem + queue) as real / 50.0
  {
    Freedom(m.cpu, z.targetCpu, cpu);
    Freedom(m.mem, z.targetMem, mem);
    Fullness(m.queueLoad, queue);
  }

  lemma ProductAtMost(a: int, b: nat, limit: nat)
    requires a >= 0 && b <= limit
    ensures a * b <= a * limit
  {
    assert a * (limit - b) >= 0;
  }

  lemma PartOf(z: Sizing, p: nat)
    requires Configured(z) && p <= 50
    ensures Clamp(z, z.maxBatch * p / 50) == Max(z.minBatch, z.maxBatch * p / 50)
  {
    ProductAtMost(z.maxBatch, p, 50);
    var n := z.maxBatch * p;
    assert n <= z.maxBatch * 50 && n / 50 <= z.maxBatch;
  }

  /**
   Free processor and free memory weigh two fifths each and a full queue one fifth: the size is that
   part of the maximum, rounded down, and at least the minimum.
   */
  lemma SizeIs(z: Sizing, m: Metrics, cpu: nat, mem: nat, queue: nat)
    requires Configured(z) && Measured(m)
    requires Free(m.cpu, z.targetCpu, cpu) && Free(m.mem, z.targetMem, mem) && Full(m.queueLoad, queue)
    ensures BatchSize(z, m) == Max(z.minBatch, z.maxBatch * (2 * cpu + 2 * mem + queue) / 50)
  {
    var p := 2 * cpu + 2 * mem + queue;
    FactorIs(z, m, cpu, mem, queue);
    RawSizeOf(z, p);
    PartOf(z, p);
  }
}
