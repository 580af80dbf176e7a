/** The revenue calculator (token_service_calculator.py): per-request
    revenue, per-instance throughput, hardware capacity and cost, the SLA
    ratio fallback for concurrency, the model-key normaliser and the
    lifecycle revenue figures, all over the four configuration fields the
    calculator's setters fill in. */
module RevenueCalculator {
  import opened Basics
  import Database
  import PriceUpdater

  /** The calculator's own pricing record: a model name and two prices per
      million tokens. */
  datatype ModelPricing = ModelPricing(modelName: string, inputPricePerM: real, outputPricePerM: real)
  {
    /** `calculate_request_revenue`: the price of one request. */
    function CalculateRequestRevenue(inputTokens: int, outputTokens: int): (r: real)
      ensures inputTokens >= 0 && outputTokens >= 0 && inputPricePerM >= 0.0 && outputPricePerM >= 0.0 ==> r >= 0.0
    {
      var inputCost := inputTokens as real / 1000000.0 * inputPricePerM;
      var outputCost := outputTokens as real / 1000000.0 * outputPricePerM;
      NonNegativeProduct(inputTokens as real / 1000000.0, inputPricePerM);
      NonNegativeProduct(outputTokens as real / 1000000.0, outputPricePerM);
      inputCost + outputCost
    }
  }

  /** A request without tokens earns nothing. */
  lemma RequestRevenueOfNothing(p: ModelPricing)
    ensures p.CalculateRequestRevenue(0, 0) == 0.0
  {
  }

  /** Revenue is additive in token counts: two requests earn what one request
      with their combined tokens earns. */
  lemma RequestRevenueAdditive(p: ModelPricing, in1: int, out1: int, in2: int, out2: int)
    ensures p.CalculateRequestRevenue(in1 + in2, out1 + out2)
            == p.CalculateRequestRevenue(in1, out1) + p.CalculateRequestRevenue(in2, out2)
  {
    var a, b := p.inputPricePerM, p.outputPricePerM;
    assert (in1 + in2) as real / 1000000.0 * a == in1 as real / 1000000.0 * a + in2 as real / 1000000.0 * a;
    assert (out1 + out2) as real / 1000000.0 * b == out1 as real / 1000000.0 * b + out2 as real / 1000000.0 * b;
  }

  /** Revenue scales with the request: k times the tokens earn k times as much. */
  lemma RequestRevenueScales(p: ModelPricing, inputTokens: int, outputTokens: int, k: int)
    ensures p.CalculateRequestRevenue(k * inputTokens, k * outputTokens)
            == k as real * p.CalculateRequestRevenue(inputTokens, outputTokens)
  {
    var a, b := p.inputPricePerM, p.outputPricePerM;
    assert (k * inputTokens) as real / 1000000.0 * a == k as real * (inputTokens as real / 1000000.0 * a);
    assert (k * outputTokens) as real / 1000000.0 * b == k as real * (outputTokens as real / 1000000.0 * b);
  }

  /** Average token counts and response time (seconds) of one request. */
  datatype ServiceProfile = ServiceProfile(inputTokens: int, outputTokens: int, responseTime: real)

  /** The hardware a service runs on; `costMode` is "rental" or anything
      else, which the cost rule treats as purchase. */
  datatype HardwarePerformance = HardwarePerformance(
    hardwareName: string,
    prefillTps: real,
    decodeTps: real,
    maxConcurrentRequests: int,
    costMode: string,
    gpuCount: int,
    powerConsumptionW: int)

  /** Lifecycle length, load and availability, and the SLA level name. */
  datatype ServiceParameters = ServiceParameters(
    lifecycleYears: int,
    averageLoadFactor: real,
    uptimePercentage: real,
    slaLevel: string)

  /** The figures `calculate_single_service_metrics` returns. */
  datatype SingleServiceMetrics = SingleServiceMetrics(
    revenuePerRequest: real,
    processingTime: real,
    qpsPerInstance: real,
    dailyRequestsPerInstance: real,
    dailyRevenuePerInstance: real)

  /** The figures `calculate_hardware_capacity` returns. */
  datatype HardwareCapacity = HardwareCapacity(maxConcurrentRequests: real, totalQps: real, instancesCount: real)

  /** The `cost_details` part of a cost report. */
  datatype CostDetails = CostDetails(mode: string, hardwareName: string, gpuCount: int)

  /** The figures `calculate_hardware_cost` returns; `details` is `None` for
      the empty details of a calculator without hardware. */
  datatype HardwareCost = HardwareCost(monthlyCost: real, lifecycleCost: real, details: Option<CostDetails>)

  /** The figures `calculate_lifecycle_revenue` returns. */
  datatype LifecycleRevenue = LifecycleRevenue(
    singleRequestRevenue: real,
    effectiveQps: real,
    dailyTotalRequests: real,
    dailyRevenue: real,
    dailyNetRevenue: real,
    annualRevenue: real,
    annualNetRevenue: real,
    lifecycleRevenue: real,
    lifecycleNetRevenue: real,
    concurrentCapacity: int,
    utilizationRate: real,
    hardwareCost: HardwareCost)

  const SecondsPerDay: real := 86400.0
  const DaysInYear: int := 365

  /** Default costs for hardware the database does not know. */
  const DefaultMonthlyRental: real := 8000.0
  const DefaultPurchaseCost: real := 80000.0
  const DefaultDepreciationYears: real := 5.0
  const DefaultMonthlyMaintenance: real := 500.0

  /** Monthly electricity cost of a device drawing `powerW` watts around the
      clock for 30 days, at 0.8 yuan per kWh. */
  function MonthlyPowerCost(powerW: int): (c: real)
    ensures powerW >= 0 ==> c >= 0.0
    ensures c == powerW as real * 0.576
  {
    (powerW * 24 * 30) as real / 1000.0 * 0.8
  }

  /** Monthly cost of owned hardware: depreciation plus maintenance plus power. */
  function PurchaseMonthlyCost(purchase: real, depreciationYears: real, maintenance: real, powerW: int): (c: real)
    requires depreciationYears != 0.0
    ensures purchase >= 0.0 && depreciationYears > 0.0 && maintenance >= 0.0 && powerW >= 0 ==> c >= maintenance
  {
    DivByPositive(purchase, depreciationYears);
    purchase / depreciationYears / 12.0 + maintenance + MonthlyPowerCost(powerW)
  }

  lemma DivByPositive(m: real, d: real)
    ensures m >= 0.0 && d > 0.0 ==> m / d >= 0.0
  {
  }

  /** The fallback SLA ratios: basic 1.0, standard 0.8, premium 0.6,
      enterprise 0.4, and 0.8 for any other level. */
  function SlaRatio(level: string): (r: real)
    ensures 0.0 < r <= 1.0
    ensures level !in {"basic", "standard", "premium", "enterprise"} ==> r == 0.8
  {
    match level
    case "basic" => 1.0
    case "standard" => 0.8
    case "premium" => 0.6
    case "enterprise" => 0.4
    case _ => 0.8
  }

  /** The fallback ratio table agrees with the `max_concurrent_ratio` of
      every SLA level the database is seeded with. */
  lemma SlaRatioMatchesSeededLevels()
    ensures forall i :: 0 <= i < |Database.DefaultSlaLevels()| ==>
              SlaRatio(Database.DefaultSlaLevels()[i].level) == Database.DefaultSlaLevels()[i].maxConcurrentRatio
  {
    var levels := Database.DefaultSlaLevels();
    assert levels[0].level == "basic" && levels[1].level == "standard";
    assert levels[2].level == "premium" && levels[3].level == "enterprise";
  }

  // ------------------------------------------------------------ model key

  predicate IsKeyChar(c: char)
  {
    IsAsciiLower(c) || IsAsciiDigit(c)
  }

  /** Every character outside [a-z0-9] becomes '-'. */
  function MarkNonKey(s: string): (r: string)
    ensures |r| == |s|
    ensures forall i :: 0 <= i < |s| ==> r[i] == if IsKeyChar(s[i]) then s[i] else '-'
  {
    if s == [] then [] else [if IsKeyChar(s[0]) then s[0] else '-'] + MarkNonKey(s[1..])
  }

  /** `s` without its leading characters outside [a-z0-9]. */
  function SkipNonKey(s: string): (r: string)
    ensures |r| <= |s| && r == s[|s| - |r|..]
    ensures r == [] || IsKeyChar(r[0])
  {
    if s != [] && !IsKeyChar(s[0]) then SkipNonKey(s[1..]) else s
  }

  /** `re.sub(r'[^a-z0-9]+', '-', s)`: every maximal run of characters
      outside [a-z0-9] becomes a single '-'. */
  function ReplaceRuns(s: string): (r: string)
    decreases |s|
  {
    if s == [] then []
    else if IsKeyChar(s[0]) then [s[0]] + ReplaceRuns(s[1..])
    else ['-'] + ReplaceRuns(SkipNonKey(s[1..]))
  }

  lemma {:induction false} CollapseAfterDash(t: string)
    ensures PriceUpdater.CollapseDashes(['-'] + t) == ['-'] + PriceUpdater.CollapseDashes(PriceUpdater.StripLeading(t))
  {
    assert (['-'] + t)[1..] == t;
    if t != [] && t[0] == '-' {
      assert t == ['-'] + t[1..];
      CollapseAfterDash(t[1..]);
    }
  }

  lemma {:induction false} MarkNonKeyAfterSkip(u: string)
    ensures MarkNonKey(SkipNonKey(u)) == PriceUpdater.StripLeading(MarkNonKey(u))
  {
    if u != [] && !IsKeyChar(u[0]) {
      assert MarkNonKey(u)[1..] == MarkNonKey(u[1..]);
      MarkNonKeyAfterSkip(u[1..]);
    }
  }

  /** Replacing each run by one '-' is marking each character and then
      collapsing dash runs (a '-' is itself outside [a-z0-9]). */
  lemma {:induction false} ReplaceRunsIsCollapse(s: string)
    ensures ReplaceRuns(s) == PriceUpdater.CollapseDashes(MarkNonKey(s))
    decreases |s|
  {
    if s != [] {
      var m := MarkNonKey(s);
      assert m == [m[0]] + MarkNonKey(s[1..]);
      if IsKeyChar(s[0]) {
        ReplaceRunsIsCollapse(s[1..]);
        PriceUpdater.CollapseAfterChar(s[0], MarkNonKey(s[1..]));
      } else {
        ReplaceRunsIsCollapse(SkipNonKey(s[1..]));
        CollapseAfterDash(MarkNonKey(s[1..]));
        MarkNonKeyAfterSkip(s[1..]);
      }
    }
  }

  /** `_get_model_key_from_pricing` on a model name: lower-case, replace each
      run outside [a-z0-9] by '-', strip dashes at both ends. */
  function ModelKey(modelName: string): (key: string)
    ensures forall i :: 0 <= i < |key| ==> IsKeyChar(key[i]) || key[i] == '-'
    ensures PriceUpdater.NoDoubleDash(key)
    ensures key == [] || (key[0] != '-' && key[|key| - 1] != '-')
    ensures key == PriceUpdater.JoinDash(PriceUpdater.Words(LowerStr(modelName), IsNonKeyChar))
    ensures PriceUpdater.NonDash(key) == KeyChars(LowerStr(modelName))
  {
    var lowered := LowerStr(modelName);
    KeyPipeline(lowered);
    KeyIsJoin(lowered);
    KeyKeepsKeyChars(lowered);
    PriceUpdater.StripDashes(ReplaceRuns(lowered))
  }

  /** What replacing runs and stripping dashes yields on any text. */
  lemma KeyPipeline(lowered: string)
    ensures var key := PriceUpdater.StripDashes(ReplaceRuns(lowered));
            && PriceUpdater.NoDoubleDash(key)
            && forall i :: 0 <= i < |key| ==> IsKeyChar(key[i]) || key[i] == '-'
  {
    ReplaceRunsIsCollapse(lowered);
    var marked := MarkNonKey(lowered);
    var key := PriceUpdater.StripDashes(PriceUpdater.CollapseDashes(marked));
    forall i | 0 <= i < |key| ensures IsKeyChar(key[i]) || key[i] == '-' {
      var c := key[i];
      assert c in key;
      assert c in marked;
      var j :| 0 <= j < |marked| && marked[j] == c;
    }
  }

  predicate IsNonKeyChar(c: char)
  {
    !IsKeyChar(c)
  }

  /** The [a-z0-9] characters of `s`, in order. */
  function KeyChars(s: string): string
  {
    if s == [] then [] else (if IsKeyChar(s[0]) then [s[0]] else []) + KeyChars(s[1..])
  }

  lemma {:induction false} NonDashOfMarked(s: string)
    ensures PriceUpdater.NonDash(MarkNonKey(s)) == KeyChars(s)
  {
    if s != [] {
      assert MarkNonKey(s)[1..] == MarkNonKey(s[1..]);
      NonDashOfMarked(s[1..]);
    }
  }

  /** The key joins the runs of [a-z0-9] with single dashes. */
  lemma KeyIsJoin(lowered: string)
    ensures PriceUpdater.StripDashes(ReplaceRuns(lowered))
            == PriceUpdater.JoinDash(PriceUpdater.Words(lowered, IsNonKeyChar))
  {
    var marked := MarkNonKey(lowered);
    ReplaceRunsIsCollapse(lowered);
    PriceUpdater.StripCollapseIsJoin(marked);
    MarkedFields(lowered);
  }

  /** Splitting the marked text at '-' is splitting at characters outside
      [a-z0-9]. */
  lemma MarkedFields(s: string)
    ensures PriceUpdater.Fields(MarkNonKey(s), PriceUpdater.IsDash) == PriceUpdater.Fields(s, IsNonKeyChar)
  {
    PriceUpdater.FieldsOfMarked(s, MarkNonKey(s), IsNonKeyChar);
  }

  /** The key keeps every [a-z0-9] character, in order. */
  lemma KeyKeepsKeyChars(lowered: string)
    ensures PriceUpdater.NonDash(PriceUpdater.StripDashes(ReplaceRuns(lowered))) == KeyChars(lowered)
  {
    ReplaceRunsIsCollapse(lowered);
    NonDashOfMarked(lowered);
  }

  lemma ModelKeySteps(modelName: string)
    ensures ModelKey(modelName) == PriceUpdater.StripDashes(PriceUpdater.CollapseDashes(MarkNonKey(LowerStr(modelName))))
  {
    ReplaceRunsIsCollapse(LowerStr(modelName));
  }

  /** A model key is its own key. */
  lemma ModelKeyIdempotent(modelName: string)
    ensures ModelKey(ModelKey(modelName)) == ModelKey(modelName)
  {
    KeyIsFixedPoint(ModelKey(modelName));
  }

  /** Text already in key form is its own key. */
  lemma KeyIsFixedPoint(key: string)
    requires forall i :: 0 <= i < |key| ==> IsKeyChar(key[i]) || key[i] == '-'
    requires PriceUpdater.NoDoubleDash(key)
    requires key == [] || (key[0] != '-' && key[|key| - 1] != '-')
    ensures ModelKey(key) == key
  {
    PriceUpdater.LowerStrFixed(key);
    MarkNonKeyFixed(key);
    PriceUpdater.CollapseDashesIdentity(key);
    PriceUpdater.StripDashesFixed(key);
    calc {
      ModelKey(key);
      { ModelKeySteps(key); }
      PriceUpdater.StripDashes(PriceUpdater.CollapseDashes(MarkNonKey(LowerStr(key))));
      PriceUpdater.StripDashes(PriceUpdater.CollapseDashes(key));
      key;
    }
  }

  lemma MarkNonKeyFixed(s: string)
    requires forall i :: 0 <= i < |s| ==> IsKeyChar(s[i]) || s[i] == '-'
    ensures MarkNonKey(s) == s
  {
    assert forall i :: 0 <= i < |s| ==> MarkNonKey(s)[i] == s[i];
  }

  predicate IsAscii(c: char)
  {
    c < 128 as char
  }

  /** On ASCII names without '_' whose lower case is not the placeholder
      'model', the calculator's key and the scraper's normalised name agree. */
  lemma ModelKeyAgreesWithNormalizedName(modelName: string)
    requires forall i :: 0 <= i < |modelName| ==> IsAscii(modelName[i]) && modelName[i] != '_'
    requires !PriceUpdater.IsPlaceholderName(LowerStr(modelName))
    ensures ModelKey(modelName) == PriceUpdater.NormalizeModelName(modelName)
  {
    var lowered := LowerStr(modelName);
    forall i | 0 <= i < |lowered|
      ensures PriceUpdater.IsWordChar(lowered[i]) <==> IsKeyChar(lowered[i])
    {
      WordCharIsKeyChar(modelName[i]);
    }
    ReplaceNonWordIsMark(lowered);
    ModelKeySteps(modelName);
    if modelName != "" {
      PriceUpdater.NormalizeSteps(modelName);
    }
  }

  lemma ReplaceNonWordIsMark(s: string)
    requires forall i :: 0 <= i < |s| ==> (PriceUpdater.IsWordChar(s[i]) <==> IsKeyChar(s[i]))
    ensures PriceUpdater.ReplaceNonWord(s) == MarkNonKey(s)
  {
    assert forall i :: 0 <= i < |s| ==> PriceUpdater.ReplaceNonWord(s)[i] == MarkNonKey(s)[i];
  }

  lemma WordCharIsKeyChar(c: char)
    requires IsAscii(c) && c != '_'
    ensures PriceUpdater.IsWordChar(Lower(c)) <==> IsKeyChar(Lower(c))
  {
  }

  // ------------------------------------------------------------ calculator

  /** `TokenServiceCalculator`: four optional configuration fields filled in
      by the setters, and the database it reads hardware costs from. */
  class TokenServiceCalculator {
    var modelPricing: Option<ModelPricing>
    var serviceProfile: Option<ServiceProfile>
    var hardware: Option<HardwarePerformance>
    var serviceParams: Option<ServiceParameters>
    const db: Database.TokenServiceDatabase

    /** A calculator with nothing configured, over the given database. */
    constructor(db: Database.TokenServiceDatabase)
      ensures modelPricing.None? && serviceProfile.None? && hardware.None? && serviceParams.None?
      ensures this.db == db
    {
      modelPricing := None;
      serviceProfile := None;
      hardware := None;
      serviceParams := None;
      this.db := db;
    }

    method SetModelPricing(p: ModelPricing)
      modifies this`modelPricing
      ensures modelPricing == Some(p)
    {
      modelPricing := Some(p);
    }

    method SetServiceProfile(p: ServiceProfile)
      modifies this`serviceProfile
      ensures serviceProfile == Some(p)
    {
      serviceProfile := Some(p);
    }

    method SetHardware(h: HardwarePerformance)
      modifies this`hardware
      ensures hardware == Some(h)
    {
      hardware := Some(h);
    }

    method SetServiceParameters(p: ServiceParameters)
      modifies this`serviceParams
      ensures serviceParams == Some(p)
    {
      serviceParams := Some(p);
    }

    predicate Configured()
      reads this
    {
      modelPricing.Some? && serviceProfile.Some? && hardware.Some? && serviceParams.Some?
    }

    /** `calculate_single_service_metrics`: revenue per request, the time one
        request occupies an instance (prefill plus decode), the instance's
        QPS, and its daily requests and revenue at the configured uptime. */
    function CalculateSingleServiceMetrics(): (m: SingleServiceMetrics)
      reads this
      requires Configured()
      requires hardware.value.prefillTps != 0.0 && hardware.value.decodeTps != 0.0
      ensures m.revenuePerRequest
              == modelPricing.value.CalculateRequestRevenue(serviceProfile.value.inputTokens, serviceProfile.value.outputTokens)
      ensures m.processingTime
              == serviceProfile.value.inputTokens as real / hardware.value.prefillTps
                 + serviceProfile.value.outputTokens as real / hardware.value.decodeTps
      ensures m.processingTime > 0.0 ==> m.qpsPerInstance > 0.0 && m.qpsPerInstance * m.processingTime == 1.0
      ensures m.processingTime <= 0.0 ==> m.qpsPerInstance == 0.0
      ensures m.dailyRequestsPerInstance == m.qpsPerInstance * SecondsPerDay * serviceParams.value.uptimePercentage
      ensures m.dailyRevenuePerInstance == m.dailyRequestsPerInstance * m.revenuePerRequest
    {
      var profile := serviceProfile.value;
      var hw := hardware.value;
      var revenue := modelPricing.value.CalculateRequestRevenue(profile.inputTokens, profile.outputTokens);
      var processingTime := profile.inputTokens as real / hw.prefillTps + profile.outputTokens as real / hw.decodeTps;
      var qps := if processingTime > 0.0 then 1.0 / processingTime else 0.0;
      var daily := qps * 3600.0 * 24.0 * serviceParams.value.uptimePercentage;
      SingleServiceMetrics(revenue, processingTime, qps, daily, daily * revenue)
    }

    /** `calculate_hardware_capacity`: concurrency is the hardware ceiling or
        the prefill estimate `prefill_tps / input_tokens * 10`, whichever is
        smaller; total QPS is that many requests per response time, or 0
        for a response time that is not positive. */
    function CalculateHardwareCapacity(): (c: HardwareCapacity)
      reads this
      requires serviceProfile.Some? && hardware.Some?
      requires serviceProfile.value.inputTokens != 0
      ensures var ceiling := hardware.value.maxConcurrentRequests as real;
              var estimate := hardware.value.prefillTps / serviceProfile.value.inputTokens as real * 10.0;
              c.maxConcurrentRequests <= ceiling && c.maxConcurrentRequests <= estimate
              && (c.maxConcurrentRequests == ceiling || c.maxConcurrentRequests == estimate)
      ensures serviceProfile.value.responseTime <= 0.0 ==> c.totalQps == 0.0
      ensures serviceProfile.value.responseTime > 0.0 ==>
                c.totalQps * serviceProfile.value.responseTime == c.maxConcurrentRequests
      ensures c.instancesCount == c.maxConcurrentRequests
    {
      var ceiling := hardware.value.maxConcurrentRequests as real;
      var estimate := hardware.value.prefillTps / serviceProfile.value.inputTokens as real * 10.0;
      // Python's min keeps its first argument unless the second is smaller.
      var effective := if estimate < ceiling then estimate else ceiling;
      var rt := serviceProfile.value.responseTime;
      var singleQps := if rt > 0.0 then 1.0 / rt else 0.0;
      HardwareCapacity(effective, effective * singleQps, effective)
    }

    /** `calculate_hardware_cost`: no hardware costs nothing; hardware the
        database knows costs its stored rental, or its depreciation plus
        maintenance plus power; unknown hardware costs 8000 a month rented or
        the default purchase figures owned; the lifecycle cost is twelve
        months a year for the lifecycle. Any mode other than "rental" is
        purchase. */
    function CalculateHardwareCost(): (c: HardwareCost)
      reads this, db
      requires hardware.Some? ==> serviceParams.Some?
      requires hardware.Some? && hardware.value.costMode != "rental" && hardware.value.hardwareName in db.hardwareConfigs
               ==> db.hardwareConfigs[hardware.value.hardwareName].depreciationYears != 0
      ensures hardware.None? ==> c == HardwareCost(0.0, 0.0, None)
      ensures hardware.Some? ==>
                var hw := hardware.value;
                && c.lifecycleCost == c.monthlyCost * 12.0 * serviceParams.value.lifecycleYears as real
                && c.details == Some(CostDetails(hw.costMode, hw.hardwareName, hw.gpuCount))
                && (hw.hardwareName in db.hardwareConfigs && hw.costMode == "rental" ==>
                      c.monthlyCost == db.hardwareConfigs[hw.hardwareName].monthlyRentalCostYuan)
                && (hw.hardwareName in db.hardwareConfigs && hw.costMode != "rental" ==>
                      var row := db.hardwareConfigs[hw.hardwareName];
                      c.monthlyCost == PurchaseMonthlyCost(row.purchaseCostYuan, row.depreciationYears as real,
                                                           row.monthlyMaintenanceCostYuan, row.powerConsumptionW))
                && (hw.hardwareName !in db.hardwareConfigs && hw.costMode == "rental" ==>
                      c.monthlyCost == DefaultMonthlyRental)
                && (hw.hardwareName !in db.hardwareConfigs && hw.costMode != "rental" ==>
                      c.monthlyCost == PurchaseMonthlyCost(DefaultPurchaseCost, DefaultDepreciationYears,
                                                           DefaultMonthlyMaintenance, hw.powerConsumptionW))
    {
      if hardware.None? then HardwareCost(0.0, 0.0, None)
      else
        var hw := hardware.value;
        var monthly :=
          if hw.hardwareName !in db.hardwareConfigs then
            if hw.costMode == "rental" then 8000.0
            else 80000.0 / 5.0 / 12.0 + 500.0 + (hw.powerConsumptionW * 24 * 30) as real / 1000.0 * 0.8
          else
            var row := db.hardwareConfigs[hw.hardwareName];
            if hw.costMode == "rental" then row.monthlyRentalCostYuan
            else
              row.purchaseCostYuan / row.depreciationYears as real / 12.0 + row.monthlyMaintenanceCostYuan
              + (row.powerConsumptionW * 24 * 30) as real / 1000.0 * 0.8;
        HardwareCost(monthly, monthly * 12.0 * serviceParams.value.lifecycleYears as real,
                     Some(CostDetails(hw.costMode, hw.hardwareName, hw.gpuCount)))
    }

    /** `get_effective_concurrency`: without pricing, hardware and parameters
        all set, the hardware ceiling (0 without hardware); otherwise the
        ceiling scaled by the SLA level's fallback ratio and truncated. */
    function GetEffectiveConcurrency(): (n: int)
      reads this
      ensures !(modelPricing.Some? && hardware.Some? && serviceParams.Some?) ==>
                n == if hardware.Some? then hardware.value.maxConcurrentRequests else 0
      ensures modelPricing.Some? && hardware.Some? && serviceParams.Some? ==>
                n == Trunc(hardware.value.maxConcurrentRequests as real * SlaRatio(serviceParams.value.slaLevel))
      ensures hardware.Some? && hardware.value.maxConcurrentRequests >= 0 ==>
                0 <= n <= hardware.value.maxConcurrentRequests
    {
      if !(modelPricing.Some? && hardware.Some? && serviceParams.Some?) then
        if hardware.Some? then hardware.value.maxConcurrentRequests else 0
      else
        var ceiling := hardware.value.maxConcurrentRequests;
        var ratio := SlaRatio(serviceParams.value.slaLevel);
        if ceiling >= 0 then
          TruncOfFraction(ceiling, ratio);
          Trunc(ceiling as real * ratio)
        else
          Trunc(ceiling as real * ratio)
    }

    /** `_get_model_key_from_pricing`: the model key of the configured name. */
    function GetModelKeyFromPricing(): (key: string)
      reads this
      requires modelPricing.Some?
      ensures key == ModelKey(modelPricing.value.modelName)
    {
      ModelKey(modelPricing.value.modelName)
    }

    /** `calculate_lifecycle_revenue` over the configured fields: the
        single-request revenue, the fallback concurrency and the hardware cost
        feed `LifecycleFigures`. */
    function CalculateLifecycleRevenue(): (r: LifecycleRevenue)
      reads this, db
      requires Configured()
      requires hardware.value.prefillTps != 0.0 && hardware.value.decodeTps != 0.0
      requires serviceProfile.value.responseTime != 0.0
      requires hardware.value.costMode != "rental" && hardware.value.hardwareName in db.hardwareConfigs
               ==> db.hardwareConfigs[hardware.value.hardwareName].depreciationYears != 0
      ensures r.singleRequestRevenue == CalculateSingleServiceMetrics().revenuePerRequest
      ensures r.concurrentCapacity == GetEffectiveConcurrency()
      ensures r.hardwareCost == CalculateHardwareCost()
      ensures r.utilizationRate == serviceParams.value.averageLoadFactor
      ensures r == LifecycleFigures(r.singleRequestRevenue, r.concurrentCapacity,
                                    serviceProfile.value.responseTime, serviceParams.value.averageLoadFactor,
                                    serviceParams.value.lifecycleYears, r.hardwareCost)
    {
      LifecycleFigures(CalculateSingleServiceMetrics().revenuePerRequest, GetEffectiveConcurrency(),
                       serviceProfile.value.responseTime, serviceParams.value.averageLoadFactor,
                       serviceParams.value.lifecycleYears, CalculateHardwareCost())
    }
  }

  /** The arithmetic of `calculate_lifecycle_revenue`: concurrency per
      response time at the load factor is the effective QPS; a day's requests
      times the request revenue is the daily revenue; a year is 365 days;
      net figures subtract the hardware cost over the same span. */
  function LifecycleFigures(revenuePerRequest: real, effective: int, responseTime: real, loadFactor: real,
                            lifecycleYears: int, cost: HardwareCost): (r: LifecycleRevenue)
    requires responseTime != 0.0
    requires cost.lifecycleCost == cost.monthlyCost * 12.0 * lifecycleYears as real
    ensures r.singleRequestRevenue == revenuePerRequest && r.concurrentCapacity == effective
    ensures r.utilizationRate == loadFactor && r.hardwareCost == cost
    ensures r.effectiveQps * responseTime == effective as real * loadFactor
    ensures r.dailyTotalRequests == r.effectiveQps * SecondsPerDay
    ensures r.dailyRevenue == r.dailyTotalRequests * revenuePerRequest
    ensures r.annualRevenue == r.dailyRevenue * DaysInYear as real
    ensures r.lifecycleRevenue == r.annualRevenue * lifecycleYears as real
    ensures r.dailyNetRevenue == r.dailyRevenue - cost.monthlyCost / 30.0
    ensures r.annualNetRevenue == r.annualRevenue - cost.monthlyCost * 12.0
    ensures r.lifecycleNetRevenue == r.annualNetRevenue * lifecycleYears as real
  {
    var totalQps := effective as real / responseTime;
    var effectiveQps := totalQps * loadFactor;
    var dailyRequests := effectiveQps * 3600.0 * 24.0;
    var dailyRevenue := dailyRequests * revenuePerRequest;
    var lifecycleRevenue := dailyRevenue * (lifecycleYears * 365) as real;
    var annualRevenue := dailyRevenue * 365.0;
    var annualNet := annualRevenue - cost.monthlyCost * 12.0;
    var lifecycleNet := lifecycleRevenue - cost.lifecycleCost;
    LifecycleArithmetic(dailyRevenue, cost.monthlyCost, lifecycleYears);
    QpsTimesResponseTime(effective as real, responseTime, loadFactor);
    LifecycleRevenue(revenuePerRequest, effectiveQps, dailyRequests, dailyRevenue,
                     dailyRevenue - cost.monthlyCost / 30.0, annualRevenue, annualNet,
                     lifecycleRevenue, lifecycleNet, effective, loadFactor, cost)
  }

  lemma QpsTimesResponseTime(concurrency: real, rt: real, load: real)
    requires rt != 0.0
    ensures concurrency / rt * load * rt == concurrency * load
  {
    assert concurrency / rt * rt == concurrency;
  }

  /** Counting a lifecycle in days or in years gives the same revenue, and
      its net is the yearly net times the years. */
  lemma LifecycleArithmetic(daily: real, monthly: real, years: int)
    ensures daily * (years * 365) as real == daily * 365.0 * years as real
    ensures daily * (years * 365) as real - monthly * 12.0 * years as real
            == (daily * 365.0 - monthly * 12.0) * years as real
  {
    var y := years as real;
    assert (years * 365) as real == y * 365.0;
    assert daily * (y * 365.0) == daily * 365.0 * y;
  }
}
