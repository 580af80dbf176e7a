/** The persistent store of the token-service estimator (database.py): the
    reference tables (hardware, per-(model, hardware) benchmark, service
    levels), the pricing table with its append-only history, and the
    capacity memo table that is filled cache-aside by a closed-form
    derivation. Each SQLite table is a map from its unique key to its row. */
module Database {
  import opened Basics

  // ------------------------------------------------------------------ rows

  datatype HardwareConfig = HardwareConfig(
    name: string,
    gpuType: string,
    gpuCount: int,
    gpuMemoryGb: int,
    cpuCores: int,
    memoryGb: int,
    storageGb: int,
    prefillTps: int,
    decodeTps: int,
    maxConcurrentRequests: int,
    purchaseCostYuan: real,
    monthlyRentalCostYuan: real,
    powerConsumptionW: int,
    monthlyMaintenanceCostYuan: real,
    depreciationYears: int)

  /** A measured benchmark of one model on one hardware configuration. */
  datatype ModelHardwarePerformance = ModelHardwarePerformance(
    modelKey: string,
    hardwareName: string,
    maxConcurrent: int,
    memoryUsageGb: real,
    avgResponseTimeMs: real)

  datatype ModelPricing = ModelPricing(
    modelKey: string,
    modelName: string,
    category: string,
    inputPricePerM: real,
    outputPricePerM: real,
    description: string,
    provider: string,
    parameterSize: string,
    modelType: string)

  datatype SLALevel = SLALevel(
    level: string,
    name: string,
    description: string,
    availabilityTarget: real,
    maxConcurrentRatio: real)

  /** UNIQUE(model_key, hardware_name) of the benchmark table. */
  datatype PerformanceKey = PerformanceKey(modelKey: string, hardwareName: string)

  /** UNIQUE(hardware_name, model_key, sla_level, input_tokens, output_tokens)
      of the capacity memo table. */
  datatype CapacityKey = CapacityKey(
    hardwareName: string,
    modelKey: string,
    slaLevel: string,
    inputTokens: int,
    outputTokens: int)

  /** The four stored fields of a capacity row. */
  datatype Capacity = Capacity(
    maxConcurrentRequests: int,
    effectiveQps: real,
    memoryUsagePercent: real,
    cpuUsagePercent: real)

  /** The CHECK constraint on model_pricing.category. */
  predicate IsValidCategory(category: string)
  {
    category == "free" || category == "paid" || category == "fine_tune"
  }

  // ------------------------------------------------------ capacity formula

  /** Token volume the benchmark figures were measured at. */
  const BaselineTokens: real := 10000.0

  /** `max(1.0, token_ratio * 0.5)`: how much a token profile slows a request
      down relative to the benchmark; never below 1. */
  function TokenDivisor(inputTokens: int, outputTokens: int): (d: real)
    ensures d >= 1.0
    ensures d >= (inputTokens + outputTokens) as real / BaselineTokens * 0.5
  {
    var tokenRatio := (inputTokens + outputTokens) as real / BaselineTokens;
    if tokenRatio * 0.5 > 1.0 then tokenRatio * 0.5 else 1.0
  }

  /** `int(max_concurrent / max(1.0, token_ratio * 0.5))`. */
  function AdjustedConcurrency(maxConcurrent: int, inputTokens: int, outputTokens: int): int
  {
    Trunc(maxConcurrent as real / TokenDivisor(inputTokens, outputTokens))
  }

  /** `int(adjusted_concurrent * concurrent_ratio * availability)`: the
      service level's share of the token-adjusted concurrency. */
  function EffectiveConcurrency(maxConcurrent: int, sla: SLALevel, inputTokens: int, outputTokens: int): int
  {
    ServiceShare(AdjustedConcurrency(maxConcurrent, inputTokens, outputTokens), sla)
  }

  /** `int(adjusted * ratio * availability)` for a given adjusted concurrency. */
  function ServiceShare(adjusted: int, sla: SLALevel): int
  {
    Trunc(adjusted as real * sla.maxConcurrentRatio * sla.availabilityTarget)
  }

  /** The derivation of `_calculate_new_capacity` once both reference rows are
      known. The source divides by the benchmark's max_concurrent and
      avg_response_time_ms without a guard, so both must be non-zero. */
  function DeriveCapacity(perf: ModelHardwarePerformance, sla: SLALevel, inputTokens: int, outputTokens: int): (c: Capacity)
    requires perf.maxConcurrent != 0 && perf.avgResponseTimeMs != 0.0
    ensures c.maxConcurrentRequests == EffectiveConcurrency(perf.maxConcurrent, sla, inputTokens, outputTokens)
    ensures c.cpuUsagePercent <= 95.0
    ensures c.memoryUsagePercent * perf.maxConcurrent as real == c.maxConcurrentRequests as real * 100.0
    ensures c.cpuUsagePercent == if c.memoryUsagePercent * sla.availabilityTarget < 95.0
                                 then c.memoryUsagePercent * sla.availabilityTarget else 95.0
    ensures c.effectiveQps * perf.avgResponseTimeMs == c.maxConcurrentRequests as real * 1000.0 * sla.availabilityTarget
  {
    var maxConcurrent := perf.maxConcurrent as real;
    var effective := EffectiveConcurrency(perf.maxConcurrent, sla, inputTokens, outputTokens);
    var e, t, rt := effective as real, sla.availabilityTarget, perf.avgResponseTimeMs;
    var qps := e / (rt / 1000.0) * t;
    var memory := e / maxConcurrent * 100.0;
    var cpu := e / maxConcurrent * t * 100.0;
    ShareTimesWhole(e, maxConcurrent, 100.0, memory);
    SwapLastFactors(e / maxConcurrent, t, 100.0, cpu);
    QpsTimesBenchmarkTime(e, rt, t, qps);
    Capacity(effective, qps, memory, if cpu < 95.0 then cpu else 95.0)
  }

  lemma ShareTimesWhole(e: real, m: real, k: real, x: real)
    requires m != 0.0 && x == e / m * k
    ensures x * m == e * k
  {
    assert e / m * m == e;
  }

  lemma SwapLastFactors(a: real, b: real, c: real, x: real)
    requires x == a * b * c
    ensures x == a * c * b
  {
  }

  lemma QpsTimesBenchmarkTime(e: real, rt: real, t: real, q: real)
    requires rt != 0.0 && q == e / (rt / 1000.0) * t
    ensures q * rt == e * 1000.0 * t
  {
    assert e / (rt / 1000.0) == e * 1000.0 / rt;
    assert e * 1000.0 / rt * rt == e * 1000.0;
  }

  /** The token-adjusted concurrency of a positive benchmark lies between 0
      and the benchmark's maximum. */
  lemma AdjustedConcurrencyBounds(maxConcurrent: int, inputTokens: int, outputTokens: int)
    requires maxConcurrent > 0
    ensures 0 <= AdjustedConcurrency(maxConcurrent, inputTokens, outputTokens) <= maxConcurrent
  {
    DivByAtLeastOne(maxConcurrent as real, TokenDivisor(inputTokens, outputTokens));
  }

  /** With service-level fractions in [0, 1], the effective concurrency lies
      between 0 and the token-adjusted concurrency, which never exceeds the
      benchmark's maximum. */
  lemma ConcurrencyBounds(maxConcurrent: int, sla: SLALevel, inputTokens: int, outputTokens: int)
    requires maxConcurrent > 0
    requires 0.0 <= sla.maxConcurrentRatio <= 1.0 && 0.0 <= sla.availabilityTarget <= 1.0
    ensures 0 <= EffectiveConcurrency(maxConcurrent, sla, inputTokens, outputTokens)
              <= AdjustedConcurrency(maxConcurrent, inputTokens, outputTokens) <= maxConcurrent
  {
    AdjustedConcurrencyBounds(maxConcurrent, inputTokens, outputTokens);
    var adjusted := AdjustedConcurrency(maxConcurrent, inputTokens, outputTokens);
    TruncOfScaled(adjusted, sla.maxConcurrentRatio, sla.availabilityTarget);
  }

  /** Under the same fractions the derived memory usage is a percentage. */
  lemma MemoryUsageIsPercentage(perf: ModelHardwarePerformance, sla: SLALevel, inputTokens: int, outputTokens: int)
    requires perf.maxConcurrent > 0 && perf.avgResponseTimeMs != 0.0
    requires 0.0 <= sla.maxConcurrentRatio <= 1.0 && 0.0 <= sla.availabilityTarget <= 1.0
    ensures 0.0 <= DeriveCapacity(perf, sla, inputTokens, outputTokens).memoryUsagePercent <= 100.0
  {
    ConcurrencyBounds(perf.maxConcurrent, sla, inputTokens, outputTokens);
    var c := DeriveCapacity(perf, sla, inputTokens, outputTokens);
    PercentageOf(c.memoryUsagePercent, perf.maxConcurrent as real, c.maxConcurrentRequests as real);
  }

  /** A larger token total never lowers the divisor. */
  lemma TokenDivisorMonotone(in1: int, out1: int, in2: int, out2: int)
    requires in1 + out1 <= in2 + out2
    ensures TokenDivisor(in1, out1) <= TokenDivisor(in2, out2)
  {
    var r1 := (in1 + out1) as real / BaselineTokens;
    var r2 := (in2 + out2) as real / BaselineTokens;
    assert r1 <= r2;
  }

  /** A heavier token profile (larger input + output total) never yields a
      higher effective concurrency. */
  lemma ConcurrencyMonotoneInTokens(maxConcurrent: int, sla: SLALevel,
                                    in1: int, out1: int, in2: int, out2: int)
    requires maxConcurrent > 0
    requires sla.maxConcurrentRatio >= 0.0 && sla.availabilityTarget >= 0.0
    requires in1 + out1 <= in2 + out2
    ensures EffectiveConcurrency(maxConcurrent, sla, in2, out2) <= EffectiveConcurrency(maxConcurrent, sla, in1, out1)
  {
    AdjustedMonotoneInTokens(maxConcurrent, in1, out1, in2, out2);
    ServiceShareMonotone(AdjustedConcurrency(maxConcurrent, in2, out2),
                         AdjustedConcurrency(maxConcurrent, in1, out1), sla);
  }

  lemma AdjustedMonotoneInTokens(maxConcurrent: int, in1: int, out1: int, in2: int, out2: int)
    requires maxConcurrent > 0
    requires in1 + out1 <= in2 + out2
    ensures 0 <= AdjustedConcurrency(maxConcurrent, in2, out2) <= AdjustedConcurrency(maxConcurrent, in1, out1)
  {
    var m := maxConcurrent as real;
    var d1, d2 := TokenDivisor(in1, out1), TokenDivisor(in2, out2);
    TokenDivisorMonotone(in1, out1, in2, out2);
    DivAntitone(m, d1, d2);
    DivByAtLeastOne(m, d2);
    TruncMonotone(m / d2, m / d1);
  }

  lemma ServiceShareMonotone(a2: int, a1: int, sla: SLALevel)
    requires 0 <= a2 <= a1 && sla.maxConcurrentRatio >= 0.0 && sla.availabilityTarget >= 0.0
    ensures ServiceShare(a2, sla) <= ServiceShare(a1, sla)
  {
    var r, t := sla.maxConcurrentRatio, sla.availabilityTarget;
    var x2, x1 := a2 as real * r * t, a1 as real * r * t;
    ScaledMonotone(a2 as real, a1 as real, r, t, x2, x1);
    TruncMonotone(x2, x1);
  }

  lemma ScaledMonotone(a2: real, a1: real, r: real, t: real, x2: real, x1: real)
    requires 0.0 <= a2 <= a1 && r >= 0.0 && t >= 0.0
    requires x2 == a2 * r * t && x1 == a1 * r * t
    ensures 0.0 <= x2 <= x1
  {
    var y2, y1 := a2 * r, a1 * r;
    MulMonotone(a2, a1, r);
    assert 0.0 <= y2 <= y1;
    MulMonotone(y2, y1, t);
    assert x2 == y2 * t && x1 == y1 * t;
  }

  /** Up to twice the baseline token volume the benchmark concurrency is kept
      unchanged before the service-level discount. */
  lemma LightLoadKeepsBenchmark(maxConcurrent: int, inputTokens: int, outputTokens: int)
    requires inputTokens + outputTokens <= 20000
    ensures AdjustedConcurrency(maxConcurrent, inputTokens, outputTokens) == maxConcurrent
  {
    assert TokenDivisor(inputTokens, outputTokens) == 1.0;
    TruncOfInt(maxConcurrent);
  }

  // ------------------------------------------------------------- seed data

  /** The service levels of `init_default_data`. */
  function DefaultSlaLevels(): seq<SLALevel>
  {
    [ SLALevel("basic", "基础服务", "标准可用性，99%", 0.99, 1.0),
      SLALevel("standard", "标准服务", "高可用性，99.5%", 0.995, 0.8),
      SLALevel("premium", "高级服务", "极高可用性，99.9%", 0.999, 0.6),
      SLALevel("enterprise", "企业服务", "超高可用性，99.99%", 0.9999, 0.4) ]
  }

  /** The hardware configurations of `init_default_data`. */
  function DefaultHardware(): seq<HardwareConfig>
  {
    [ HardwareConfig("RTX4090x4", "RTX4090", 4, 24, 32, 128, 2000, 16000, 400, 200,
                     80000.0, 8000.0, 1500, 500.0, 5),
      HardwareConfig("A100x8", "A100", 8, 80, 64, 512, 4000, 32000, 800, 400,
                     320000.0, 32000.0, 3000, 2000.0, 5) ]
  }

  /** The benchmark rows of `init_default_data`. */
  function DefaultPerformance(): seq<ModelHardwarePerformance>
  {
    [ ModelHardwarePerformance("moonshotai-kimi-k2-thinking", "RTX4090x4", 200, 80.0, 5500.0),
      ModelHardwarePerformance("moonshotai-kimi-k2-thinking", "A100x8", 400, 160.0, 2750.0),
      ModelHardwarePerformance("qwen2-7b", "RTX4090x4", 250, 60.0, 4400.0) ]
  }

  /** Seeded Kimi benchmark on RTX4090x4 under the seeded `standard` level:
      a light profile (1000 in / 500 out) keeps the full 200 before the
      discount and yields 159; a heavy one (50000 / 10000) is cut to 66 and
      then to 52. */
  lemma SeededKimiScenarios()
    ensures AdjustedConcurrency(DefaultPerformance()[0].maxConcurrent, 1000, 500) == 200
    ensures DeriveCapacity(DefaultPerformance()[0], DefaultSlaLevels()[1], 1000, 500).maxConcurrentRequests == 159
    ensures AdjustedConcurrency(DefaultPerformance()[0].maxConcurrent, 50000, 10000) == 66
    ensures DeriveCapacity(DefaultPerformance()[0], DefaultSlaLevels()[1], 50000, 10000).maxConcurrentRequests == 52
  {
    assert TokenDivisor(1000, 500) == 1.0;
    assert TokenDivisor(50000, 10000) == 3.0;
    assert (200.0 / 1.0).Floor == 200;
    assert (200.0 / 3.0).Floor == 66;
    assert (200.0 * 0.8 * 0.995).Floor == 159;
    assert (66.0 * 0.8 * 0.995).Floor == 52;
  }

  // --------------------------------------------------------- keyed upserts

  /** Rows upserted one after another into a keyed table (`INSERT OR REPLACE`
      in a loop): the table after the last row. */
  function UpsertAll<K, V>(table: map<K, V>, rows: seq<V>, key: V -> K): map<K, V>
  {
    if rows == [] then table
    else UpsertAll(table, rows[..|rows| - 1], key)[key(rows[|rows| - 1]) := rows[|rows| - 1]]
  }

  /** Upserting leaves a key that no row carries exactly as it was. */
  lemma {:induction false} UpsertAllKeepsOthers<K, V>(table: map<K, V>, rows: seq<V>, key: V -> K, k: K)
    requires forall j :: 0 <= j < |rows| ==> key(rows[j]) != k
    ensures k in UpsertAll(table, rows, key) <==> k in table
    ensures k in table ==> UpsertAll(table, rows, key)[k] == table[k]
  {
    if rows != [] {
      UpsertAllKeepsOthers(table, rows[..|rows| - 1], key, k);
    }
  }

  /** After upserting, a key holds the last row that carried it: one row per
      key, the later row replacing the earlier. */
  lemma {:induction false} UpsertAllLastWins<K, V>(table: map<K, V>, rows: seq<V>, key: V -> K, j: nat)
    requires j < |rows|
    requires forall i :: j < i < |rows| ==> key(rows[i]) != key(rows[j])
    ensures key(rows[j]) in UpsertAll(table, rows, key)
    ensures UpsertAll(table, rows, key)[key(rows[j])] == rows[j]
  {
    if j < |rows| - 1 {
      UpsertAllLastWins(table, rows[..|rows| - 1], key, j);
    }
  }

  // ------------------------------------------------------ cache-aside logic

  /** The benchmark row and the service level the key names both exist. */
  predicate Derivable(performance: map<PerformanceKey, ModelHardwarePerformance>,
                      slaLevels: map<string, SLALevel>, key: CapacityKey)
  {
    PerformanceKey(key.modelKey, key.hardwareName) in performance && key.slaLevel in slaLevels
  }

  /** The derivation for `key` does not divide by zero. */
  predicate SafeToDerive(performance: map<PerformanceKey, ModelHardwarePerformance>,
                         slaLevels: map<string, SLALevel>, key: CapacityKey)
  {
    Derivable(performance, slaLevels, key) ==>
      var perf := performance[PerformanceKey(key.modelKey, key.hardwareName)];
      perf.maxConcurrent != 0 && perf.avgResponseTimeMs != 0.0
  }

  /** `_calculate_new_capacity`: `None` when the benchmark row or the service
      level is missing, else the derivation over the two rows found. */
  function CalculateNewCapacity(performance: map<PerformanceKey, ModelHardwarePerformance>,
                                slaLevels: map<string, SLALevel>, key: CapacityKey): (r: Option<Capacity>)
    requires SafeToDerive(performance, slaLevels, key)
    ensures r.Some? <==> Derivable(performance, slaLevels, key)
    ensures r.Some? ==> r.value == DeriveCapacity(performance[PerformanceKey(key.modelKey, key.hardwareName)],
                                                  slaLevels[key.slaLevel], key.inputTokens, key.outputTokens)
    ensures r.Some? ==> r.value.cpuUsagePercent <= 95.0
  {
    var pk := PerformanceKey(key.modelKey, key.hardwareName);
    if pk !in performance then None
    else if key.slaLevel !in slaLevels then None
    else Some(DeriveCapacity(performance[pk], slaLevels[key.slaLevel], key.inputTokens, key.outputTokens))
  }

  /** The answer of one lookup and the memo table after it. */
  datatype LookupOutcome = LookupOutcome(result: Option<Capacity>, cache: map<CapacityKey, Capacity>)

  /** `calculate_hardware_capacity` as a state transition of the memo table:
      a hit returns the stored row and writes nothing; a miss derives, and
      stores the result under the full key only when there is one. */
  function CapacityLookup(cache: map<CapacityKey, Capacity>,
                          performance: map<PerformanceKey, ModelHardwarePerformance>,
                          slaLevels: map<string, SLALevel>, key: CapacityKey): (o: LookupOutcome)
    requires key in cache || SafeToDerive(performance, slaLevels, key)
    ensures key in cache ==> o.result == Some(cache[key]) && o.cache == cache
    ensures key !in cache ==> o.result == CalculateNewCapacity(performance, slaLevels, key)
    ensures key !in cache ==> (o.result.Some? <==> Derivable(performance, slaLevels, key))
    ensures o.result.None? ==> o.cache == cache
    ensures o.result.Some? ==> key in o.cache && o.cache[key] == o.result.value
    ensures o.cache.Keys == cache.Keys || o.cache.Keys == cache.Keys + {key}
    ensures forall k :: k in cache && k != key ==> o.cache[k] == cache[k]
  {
    if key in cache then LookupOutcome(Some(cache[key]), cache)
    else
      var capacity := CalculateNewCapacity(performance, slaLevels, key);
      if capacity.Some? then LookupOutcome(capacity, cache[key := capacity.value])
      else LookupOutcome(None, cache)
  }

  /** A miss on a derivable key with service-level fractions in [0, 1]
      answers and stores a row whose concurrency lies between 0 and the
      benchmark's maximum and whose memory usage is a percentage. */
  lemma MissStaysWithinBenchmark(cache: map<CapacityKey, Capacity>,
                                 performance: map<PerformanceKey, ModelHardwarePerformance>,
                                 slaLevels: map<string, SLALevel>, key: CapacityKey)
    requires key !in cache && Derivable(performance, slaLevels, key)
    requires performance[PerformanceKey(key.modelKey, key.hardwareName)].maxConcurrent > 0
    requires performance[PerformanceKey(key.modelKey, key.hardwareName)].avgResponseTimeMs != 0.0
    requires 0.0 <= slaLevels[key.slaLevel].maxConcurrentRatio <= 1.0
    requires 0.0 <= slaLevels[key.slaLevel].availabilityTarget <= 1.0
    ensures var o := CapacityLookup(cache, performance, slaLevels, key);
            var perf := performance[PerformanceKey(key.modelKey, key.hardwareName)];
            && o.result.Some?
            && 0 <= o.result.value.maxConcurrentRequests <= perf.maxConcurrent
            && 0.0 <= o.result.value.memoryUsagePercent <= 100.0
            && o.cache == cache[key := o.result.value]
  {
    var perf := performance[PerformanceKey(key.modelKey, key.hardwareName)];
    var sla := slaLevels[key.slaLevel];
    ConcurrencyBounds(perf.maxConcurrent, sla, key.inputTokens, key.outputTokens);
    MemoryUsageIsPercentage(perf, sla, key.inputTokens, key.outputTokens);
  }

  /** Memo stability: repeating a lookup returns the same answer, field for
      field, and changes nothing more, even though the reference tables are
      not consulted again. */
  lemma LookupIsStable(cache: map<CapacityKey, Capacity>,
                       performance: map<PerformanceKey, ModelHardwarePerformance>,
                       slaLevels: map<string, SLALevel>, key: CapacityKey)
    requires key in cache || SafeToDerive(performance, slaLevels, key)
    ensures var first := CapacityLookup(cache, performance, slaLevels, key);
            var second := CapacityLookup(first.cache, performance, slaLevels, key);
            second == first
  {
  }

  /** A stored row is returned even after the reference tables change: the
      memo is never invalidated. */
  lemma CachedRowSurvivesReferenceChanges(cache: map<CapacityKey, Capacity>,
                                          perf1: map<PerformanceKey, ModelHardwarePerformance>,
                                          sla1: map<string, SLALevel>,
                                          perf2: map<PerformanceKey, ModelHardwarePerformance>,
                                          sla2: map<string, SLALevel>, key: CapacityKey)
    requires key in cache
    ensures CapacityLookup(cache, perf1, sla1, key) == CapacityLookup(cache, perf2, sla2, key)
  {
  }

  // --------------------------------------------------------------- queries

  predicate SortedByName(rows: seq<ModelPricing>)
  {
    forall i, j :: 0 <= i < j < |rows| ==> LexLe(rows[i].modelName, rows[j].modelName)
  }

  /** Places a row into a name-ordered list of rows. */
  function InsertByName(rows: seq<ModelPricing>, p: ModelPricing): (r: seq<ModelPricing>)
    requires SortedByName(rows)
    ensures SortedByName(r)
    ensures multiset(r) == multiset(rows) + multiset{p}
  {
    if rows == [] then [p]
    else if LexLe(p.modelName, rows[0].modelName) then
      SortedBelowHead(rows, p);
      [p] + rows
    else
      var rest := InsertByName(rows[1..], p);
      assert rows == [rows[0]] + rows[1..];
      LexLeTotal(p.modelName, rows[0].modelName);
      HeadBelowInserted(rows, p, rest);
      SortedCons(rows[0], rest);
      [rows[0]] + rest
  }

  /** A row no greater than the head of a sorted list is no greater than any
      of its rows. */
  lemma SortedBelowHead(rows: seq<ModelPricing>, p: ModelPricing)
    requires SortedByName(rows) && rows != [] && LexLe(p.modelName, rows[0].modelName)
    ensures forall j :: 0 <= j < |rows| ==> LexLe(p.modelName, rows[j].modelName)
    ensures SortedByName([p] + rows)
  {
    forall j | 0 <= j < |rows| ensures LexLe(p.modelName, rows[j].modelName) {
      if j > 0 { LexLeTransitive(p.modelName, rows[0].modelName, rows[j].modelName); }
    }
    SortedCons(p, rows);
  }

  lemma SortedCons(h: ModelPricing, rest: seq<ModelPricing>)
    requires SortedByName(rest)
    requires forall j :: 0 <= j < |rest| ==> LexLe(h.modelName, rest[j].modelName)
    ensures SortedByName([h] + rest)
  {
    var r := [h] + rest;
    forall i, j | 0 <= i < j < |r| ensures LexLe(r[i].modelName, r[j].modelName) {
      assert r[j] == rest[j - 1];
      if i > 0 {
        assert r[i] == rest[i - 1];
      }
    }
  }

  /** Every row of a sorted tail with `p` inserted is at least the head. */
  lemma HeadBelowInserted(rows: seq<ModelPricing>, p: ModelPricing, rest: seq<ModelPricing>)
    requires SortedByName(rows) && rows != [] && LexLe(rows[0].modelName, p.modelName)
    requires multiset(rest) == multiset(rows[1..]) + multiset{p}
    ensures forall x :: x in rest ==> LexLe(rows[0].modelName, x.modelName)
  {
    forall x | x in rest ensures LexLe(rows[0].modelName, x.modelName) {
      assert x in multiset(rest);
      if x != p {
        assert x in multiset(rows[1..]);
        var j :| 0 <= j < |rows[1..]| && rows[1..][j] == x;
        assert rows[j + 1] == x;
      }
    }
  }

  /** `rows` is the name-ordered list of the rows of `category` among the
      keys in `done`, each exactly once. */
  ghost predicate SelectedRows(pricing: map<string, ModelPricing>, done: set<string>, category: string,
                               rows: seq<ModelPricing>)
  {
    && SortedByName(rows)
    && (forall i :: 0 <= i < |rows| ==>
          rows[i].modelKey in done && rows[i].modelKey in pricing
          && pricing[rows[i].modelKey] == rows[i] && rows[i].category == category)
    && (forall k :: k in pricing ==>
          multiset(rows)[pricing[k]] == if k in done && pricing[k].category == category then 1 else 0)
  }

  /** One step of the category query: looking at one more key. */
  lemma SelectOneMore(pricing: map<string, ModelPricing>, done: set<string>, category: string,
                      rows: seq<ModelPricing>, k: string)
    requires forall m :: m in pricing ==> pricing[m].modelKey == m
    requires SelectedRows(pricing, done, category, rows)
    requires k in pricing && k !in done
    ensures SelectedRows(pricing, done + {k}, category,
                         if pricing[k].category == category then InsertByName(rows, pricing[k]) else rows)
  {
    if pricing[k].category == category {
      var next := InsertByName(rows, pricing[k]);
      SelectedRowsMembers(pricing, done, category, rows, k, next);
      SelectedRowsCounts(pricing, done, category, rows, k, next);
    } else {
      SelectedRowsSkip(pricing, done, category, rows, k);
    }
  }

  lemma SelectedRowsSkip(pricing: map<string, ModelPricing>, done: set<string>, category: string,
                         rows: seq<ModelPricing>, k: string)
    requires SelectedRows(pricing, done, category, rows)
    requires k in pricing && pricing[k].category != category
    ensures SelectedRows(pricing, done + {k}, category, rows)
  {
    assert forall m :: m in pricing ==>
      multiset(rows)[pricing[m]] == if m in done + {k} && pricing[m].category == category then 1 else 0;
  }

  lemma SelectedRowsMembers(pricing: map<string, ModelPricing>, done: set<string>, category: string,
                            rows: seq<ModelPricing>, k: string, next: seq<ModelPricing>)
    requires SelectedRows(pricing, done, category, rows)
    requires k in pricing && pricing[k].category == category && pricing[k].modelKey == k
    requires multiset(next) == multiset(rows) + multiset{pricing[k]}
    ensures forall i :: 0 <= i < |next| ==>
              next[i].modelKey in done + {k} && next[i].modelKey in pricing
              && pricing[next[i].modelKey] == next[i] && next[i].category == category
  {
    forall i | 0 <= i < |next|
      ensures next[i].modelKey in done + {k} && next[i].modelKey in pricing
              && pricing[next[i].modelKey] == next[i] && next[i].category == category
    {
      var x := next[i];
      assert x in multiset(next);
      if x != pricing[k] {
        assert x in multiset(rows);
        var j :| 0 <= j < |rows| && rows[j] == x;
      }
    }
  }

  lemma SelectedRowsCounts(pricing: map<string, ModelPricing>, done: set<string>, category: string,
                           rows: seq<ModelPricing>, k: string, next: seq<ModelPricing>)
    requires forall m :: m in pricing ==> pricing[m].modelKey == m
    requires SelectedRows(pricing, done, category, rows)
    requires k in pricing && k !in done && pricing[k].category == category
    requires multiset(next) == multiset(rows) + multiset{pricing[k]}
    ensures forall m :: m in pricing ==>
              multiset(next)[pricing[m]] == if m in done + {k} && pricing[m].category == category then 1 else 0
  {
    forall m | m in pricing
      ensures multiset(next)[pricing[m]] == if m in done + {k} && pricing[m].category == category then 1 else 0
    {
      if m != k {
        assert pricing[m] != pricing[k];
      }
    }
  }

  // ------------------------------------------------------------- the store

  /** `TokenServiceDatabase`: one map per SQLite table, keyed by the table's
      unique key, plus the append-only pricing history. */
  class TokenServiceDatabase {
    var hardwareConfigs: map<string, HardwareConfig>
    var performance: map<PerformanceKey, ModelHardwarePerformance>
    var slaLevels: map<string, SLALevel>
    var pricing: map<string, ModelPricing>
    var pricingHistory: seq<ModelPricing>
    var capacityCache: map<CapacityKey, Capacity>

    /** Every row is stored under its own key, and every pricing row (current
        or archived) passed the category CHECK constraint. */
    ghost predicate Valid()
      reads this
    {
      && (forall n :: n in hardwareConfigs ==> hardwareConfigs[n].name == n)
      && (forall k :: k in performance ==>
            performance[k].modelKey == k.modelKey && performance[k].hardwareName == k.hardwareName)
      && (forall l :: l in slaLevels ==> slaLevels[l].level == l)
      && (forall m :: m in pricing ==> pricing[m].modelKey == m && IsValidCategory(pricing[m].category))
      && (forall i :: 0 <= i < |pricingHistory| ==> IsValidCategory(pricingHistory[i].category))
    }

    /** A newly created database file: every table exists and is empty. */
    constructor ()
      ensures Valid()
      ensures hardwareConfigs == map[] && performance == map[] && slaLevels == map[]
      ensures pricing == map[] && pricingHistory == [] && capacityCache == map[]
    {
      hardwareConfigs, performance, slaLevels := map[], map[], map[];
      pricing, pricingHistory, capacityCache := map[], [], map[];
    }

    /** `add_hardware_config`: INSERT OR REPLACE keyed by name. */
    method AddHardwareConfig(hardware: HardwareConfig)
      requires Valid()
      modifies this`hardwareConfigs
      ensures Valid()
      ensures hardwareConfigs == old(hardwareConfigs)[hardware.name := hardware]
    {
      hardwareConfigs := hardwareConfigs[hardware.name := hardware];
    }

    /** `add_model_hardware_performance`: INSERT OR REPLACE keyed by
        (model_key, hardware_name). Cached capacities are left as they are. */
    method AddModelHardwarePerformance(perf: ModelHardwarePerformance)
      requires Valid()
      modifies this`performance
      ensures Valid()
      ensures performance == old(performance)[PerformanceKey(perf.modelKey, perf.hardwareName) := perf]
    {
      performance := performance[PerformanceKey(perf.modelKey, perf.hardwareName) := perf];
    }

    /** `add_sla_level`: INSERT OR REPLACE keyed by level. */
    method AddSlaLevel(sla: SLALevel)
      requires Valid()
      modifies this`slaLevels
      ensures Valid()
      ensures slaLevels == old(slaLevels)[sla.level := sla]
    {
      slaLevels := slaLevels[sla.level := sla];
    }

    /** `add_model_pricing`: archive the row being superseded, then upsert the
        new one, in one transaction. A category outside the CHECK constraint
        makes the upsert fail; the transaction then rolls back, the archive
        row included, and `ok` is false. */
    method AddModelPricing(p: ModelPricing) returns (ok: bool)
      requires Valid()
      modifies this`pricing, this`pricingHistory
      ensures Valid()
      ensures ok <==> IsValidCategory(p.category)
      ensures !ok ==> pricing == old(pricing) && pricingHistory == old(pricingHistory)
      ensures ok ==> pricing == old(pricing)[p.modelKey := p]
      ensures ok && p.modelKey in old(pricing) ==>
                pricingHistory == old(pricingHistory) + [old(pricing)[p.modelKey]]
      ensures ok && p.modelKey !in old(pricing) ==> pricingHistory == old(pricingHistory)
    {
      var history := pricingHistory;
      if p.modelKey in pricing {
        history := history + [pricing[p.modelKey]];
      }
      if !IsValidCategory(p.category) {
        return false;
      }
      pricingHistory := history;
      pricing := pricing[p.modelKey := p];
      ok := true;
    }

    /** `get_model_pricing`: the row for one key when a non-empty key is
        given (an empty key is falsy and selects everything), else the whole
        table, as a dictionary keyed by model_key. */
    function GetModelPricing(modelKey: Option<string>): (r: map<string, ModelPricing>)
      reads this
      ensures forall k :: k in r ==> k in pricing && r[k] == pricing[k]
      ensures modelKey.None? || modelKey.value == "" ==> r == pricing
      ensures modelKey.Some? && modelKey.value != "" ==>
                r.Keys == (if modelKey.value in pricing then {modelKey.value} else {})
    {
      if modelKey.Some? && modelKey.value != "" then
        (if modelKey.value in pricing then map[modelKey.value := pricing[modelKey.value]] else map[])
      else pricing
    }

    /** `get_hardware_configs`: every stored configuration, in no particular
        order. */
    function GetHardwareConfigs(): (rows: set<HardwareConfig>)
      reads this
      requires Valid()
      ensures forall h :: h in rows <==> h.name in hardwareConfigs && hardwareConfigs[h.name] == h
    {
      set n | n in hardwareConfigs :: hardwareConfigs[n]
    }

    /** `get_models_by_category`: every row of the category exactly once, in
        ascending model_name order (ties in any order). */
    method GetModelsByCategory(category: string) returns (rows: seq<ModelPricing>)
      requires Valid()
      ensures SortedByName(rows)
      ensures forall i :: 0 <= i < |rows| ==>
                rows[i].modelKey in pricing && pricing[rows[i].modelKey] == rows[i] && rows[i].category == category
      ensures forall k :: k in pricing ==>
                multiset(rows)[pricing[k]] == if pricing[k].category == category then 1 else 0
    {
      rows := [];
      var remaining := pricing.Keys;
      while remaining != {}
        invariant remaining <= pricing.Keys
        invariant SelectedRows(pricing, pricing.Keys - remaining, category, rows)
        decreases remaining
      {
        var k :| k in remaining;
        SelectOneMore(pricing, pricing.Keys - remaining, category, rows, k);
        remaining := remaining - {k};
        assert pricing.Keys - remaining == (pricing.Keys - (remaining + {k})) + {k};
        if pricing[k].category == category {
          rows := InsertByName(rows, pricing[k]);
        }
      }
    }

    /** `_cache_capacity`: INSERT OR REPLACE keyed by the full 5-tuple. */
    method CacheCapacity(key: CapacityKey, capacity: Capacity)
      modifies this`capacityCache
      ensures capacityCache == old(capacityCache)[key := capacity]
    {
      capacityCache := capacityCache[key := capacity];
    }

    /** `calculate_hardware_capacity`: cache-aside lookup of the memo table. */
    method CalculateHardwareCapacity(hardwareName: string, modelKey: string, slaLevel: string,
                                     inputTokens: int, outputTokens: int) returns (capacity: Option<Capacity>)
      requires var key := CapacityKey(hardwareName, modelKey, slaLevel, inputTokens, outputTokens);
               key in capacityCache || SafeToDerive(performance, slaLevels, key)
      modifies this`capacityCache
      ensures var o := CapacityLookup(old(capacityCache), performance, slaLevels,
                                      CapacityKey(hardwareName, modelKey, slaLevel, inputTokens, outputTokens));
              capacity == o.result && capacityCache == o.cache
    {
      var key := CapacityKey(hardwareName, modelKey, slaLevel, inputTokens, outputTokens);
      if key in capacityCache {
        return Some(capacityCache[key]);
      }
      capacity := CalculateNewCapacity(performance, slaLevels, key);
      if capacity.Some? {
        CacheCapacity(key, capacity.value);
      }
    }

    /** `init_default_data`: upserts the seeded service levels, hardware and
        benchmarks, in list order. */
    method InitDefaultData()
      requires Valid()
      modifies this`slaLevels, this`hardwareConfigs, this`performance
      ensures Valid()
      ensures slaLevels == UpsertAll(old(slaLevels), DefaultSlaLevels(), (s: SLALevel) => s.level)
      ensures hardwareConfigs == UpsertAll(old(hardwareConfigs), DefaultHardware(), (h: HardwareConfig) => h.name)
      ensures performance == UpsertAll(old(performance), DefaultPerformance(),
                                       (p: ModelHardwarePerformance) => PerformanceKey(p.modelKey, p.hardwareName))
    {
      SeedSlaLevels();
      SeedHardware();
      SeedPerformance();
    }

    /** The first loop of `init_default_data`. */
    method SeedSlaLevels()
      requires Valid()
      modifies this`slaLevels
      ensures Valid()
      ensures slaLevels == UpsertAll(old(slaLevels), DefaultSlaLevels(), (s: SLALevel) => s.level)
    {
      var slas := DefaultSlaLevels();
      for i := 0 to |slas|
        invariant Valid()
        invariant slaLevels == UpsertAll(old(slaLevels), slas[..i], (s: SLALevel) => s.level)
      {
        AddSlaLevel(slas[i]);
        assert slas[..i + 1][..i] == slas[..i];
      }
      assert slas[..|slas|] == slas;
    }

    /** The second loop of `init_default_data`. */
    method SeedHardware()
      requires Valid()
      modifies this`hardwareConfigs
      ensures Valid()
      ensures hardwareConfigs == UpsertAll(old(hardwareConfigs), DefaultHardware(), (h: HardwareConfig) => h.name)
    {
      var hardware := DefaultHardware();
      for i := 0 to |hardware|
        invariant Valid()
        invariant hardwareConfigs == UpsertAll(old(hardwareConfigs), hardware[..i], (h: HardwareConfig) => h.name)
      {
        AddHardwareConfig(hardware[i]);
        assert hardware[..i + 1][..i] == hardware[..i];
      }
      assert hardware[..|hardware|] == hardware;
    }

    /** The third loop of `init_default_data`. */
    method SeedPerformance()
      requires Valid()
      modifies this`performance
      ensures Valid()
      ensures performance == UpsertAll(old(performance), DefaultPerformance(),
                                       (p: ModelHardwarePerformance) => PerformanceKey(p.modelKey, p.hardwareName))
    {
      var perfs := DefaultPerformance();
      for i := 0 to |perfs|
        invariant Valid()
        invariant performance == UpsertAll(old(performance), perfs[..i],
                                           (p: ModelHardwarePerformance) => PerformanceKey(p.modelKey, p.hardwareName))
      {
        AddModelHardwarePerformance(perfs[i]);
        assert perfs[..i + 1][..i] == perfs[..i];
      }
      assert perfs[..|perfs|] == perfs;
    }
  }

  /** A dictionary of configurations keyed by name, built from rows whose
      names are distinct. */
  function IndexByName(rows: set<HardwareConfig>): (m: map<string, HardwareConfig>)
    requires forall a, b :: a in rows && b in rows && a.name == b.name ==> a == b
    ensures forall h :: h in rows ==> h.name in m && m[h.name] == h
    ensures forall n :: n in m ==> m[n] in rows && m[n].name == n
  {
    map h | h in rows :: h.name := h
  }

  /** Indexing the listed configurations by name gives back the table:
      nothing is lost or duplicated on the way through the list. */
  lemma HardwareIndexIsTable(db: TokenServiceDatabase)
    requires db.Valid()
    ensures var rows := db.GetHardwareConfigs();
            (forall a, b :: a in rows && b in rows && a.name == b.name ==> a == b)
            && IndexByName(rows) == db.hardwareConfigs
  {
    var rows := db.GetHardwareConfigs();
    var m := IndexByName(rows);
    forall n | n in db.hardwareConfigs ensures n in m && m[n] == db.hardwareConfigs[n] {
      assert db.hardwareConfigs[n] in rows;
    }
    assert m.Keys == db.hardwareConfigs.Keys;
  }

  /** After seeding any database, every seeded service level and benchmark
      is the row stored under its key. */
  lemma SeededRowsPresent(performance: map<PerformanceKey, ModelHardwarePerformance>, slaLevels: map<string, SLALevel>)
    ensures var slas := UpsertAll(slaLevels, DefaultSlaLevels(), (s: SLALevel) => s.level);
            forall j :: 0 <= j < |DefaultSlaLevels()| ==>
              DefaultSlaLevels()[j].level in slas && slas[DefaultSlaLevels()[j].level] == DefaultSlaLevels()[j]
    ensures var perfs := UpsertAll(performance, DefaultPerformance(),
                                   (p: ModelHardwarePerformance) => PerformanceKey(p.modelKey, p.hardwareName));
            forall j :: 0 <= j < |DefaultPerformance()| ==>
              var p := DefaultPerformance()[j];
              PerformanceKey(p.modelKey, p.hardwareName) in perfs && perfs[PerformanceKey(p.modelKey, p.hardwareName)] == p
  {
    var slas := DefaultSlaLevels();
    forall j | 0 <= j < |slas|
      ensures slas[j].level in UpsertAll(slaLevels, slas, (s: SLALevel) => s.level)
      ensures UpsertAll(slaLevels, slas, (s: SLALevel) => s.level)[slas[j].level] == slas[j]
    {
      UpsertAllLastWins(slaLevels, slas, (s: SLALevel) => s.level, j);
    }
    var perfs := DefaultPerformance();
    var pkey := (p: ModelHardwarePerformance) => PerformanceKey(p.modelKey, p.hardwareName);
    forall j | 0 <= j < |perfs|
      ensures pkey(perfs[j]) in UpsertAll(performance, perfs, pkey)
      ensures UpsertAll(performance, perfs, pkey)[pkey(perfs[j])] == perfs[j]
    {
      UpsertAllLastWins(performance, perfs, pkey, j);
    }
  }
}
