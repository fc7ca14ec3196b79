/** The requirement-driven design rules: a system type from the grid
    situation, a battery technology, array, battery and inverter sizes with
    temperature and dust derating, the protection components a site needs,
    an economic analysis and a two-stage modular design. */
module Requirements {
  import opened Common

  /** `SystemRequirements`; an absent budget is `None`. */
  datatype SystemRequirements = SystemRequirements(
    dailyEnergyKwh: real,
    peakLoadKw: real,
    locationTemperature: real,
    gridHours: real,
    hasVoltageIssues: bool,
    backupHours: real,
    hasMotorLoads: bool,
    hasDualUse: bool,
    budgetConstraint: Option<real>)

  // ---------------------------------------------------------------------
  // System type

  datatype SystemType = Portable | FullSolar | Hybrid | BackupOnly

  /** `determine_system_type`: dual use asks for a portable unit whatever
      the grid does; otherwise the daily grid hours pick the type, with 8
      and 16 hours both counting as hybrid. */
  function DetermineSystemType(req: SystemRequirements): (t: SystemType)
    ensures t == Portable <==> req.hasDualUse
    ensures t == FullSolar <==> !req.hasDualUse && req.gridHours < 8.0
    ensures t == Hybrid <==> !req.hasDualUse && 8.0 <= req.gridHours <= 16.0
    ensures t == BackupOnly <==> !req.hasDualUse && req.gridHours > 16.0
  {
    if req.hasDualUse then Portable
    else if req.gridHours < 8.0 then FullSolar
    else if req.gridHours <= 16.0 then Hybrid
    else BackupOnly
  }

  // ---------------------------------------------------------------------
  // Battery technology

  datatype Technology = Lithium | LeadAcid

  datatype BatteryTech = BatteryTech(
    technology: Technology,
    depthOfDischarge: real,
    lifecycleYears: int,
    reason: string)

  const LithiumDepthOfDischarge: real := 0.8
  const LeadAcidDepthOfDischarge: real := 0.5

  /** Python's truth test on an optional number: present and not zero. */
  predicate Truthy(x: Option<real>) {
    x.Some? && x.value != 0.0
  }

  /** `recommend_battery_technology`: lithium for heat above 35 °C or fewer
      than 16 grid hours; otherwise lead-acid only under a budget below one
      million naira, and lithium by default. */
  function RecommendBatteryTechnology(req: SystemRequirements): (t: BatteryTech)
    ensures t.technology == LeadAcid <==>
      && !(req.locationTemperature > 35.0) && !(req.gridHours < 16.0)
      && Truthy(req.budgetConstraint) && req.budgetConstraint.value < 1000000.0
    ensures t.technology == Lithium ==> t.depthOfDischarge == 0.8 && t.lifecycleYears == 10
    ensures t.technology == LeadAcid ==> t.depthOfDischarge == 0.5 && t.lifecycleYears == 3
    ensures req.locationTemperature > 35.0 || req.gridHours < 16.0 ==>
      t.reason == "High temperature environment and/or frequent cycling needs"
    ensures t.technology == LeadAcid ==> t.reason == "Budget constraints favor lower upfront cost"
    ensures t.technology == Lithium && !(req.locationTemperature > 35.0 || req.gridHours < 16.0) ==>
      t.reason == "Default recommendation for optimal performance"
    ensures t.depthOfDischarge > 0.0
  {
    var isHighTemp := req.locationTemperature > 35.0;
    var isFrequentCycling := req.gridHours < 16.0;
    if isHighTemp || isFrequentCycling then
      BatteryTech(Lithium, LithiumDepthOfDischarge, 10,
                  "High temperature environment and/or frequent cycling needs")
    else if Truthy(req.budgetConstraint) && req.budgetConstraint.value < 1000000.0 then
      BatteryTech(LeadAcid, LeadAcidDepthOfDischarge, 3,
                  "Budget constraints favor lower upfront cost")
    else
      BatteryTech(Lithium, LithiumDepthOfDischarge, 10,
                  "Default recommendation for optimal performance")
  }

  /** A budget of zero is no budget: it never buys lead-acid. */
  lemma ZeroBudgetIsNoBudget(req: SystemRequirements)
    requires req.budgetConstraint == Some(0.0)
    ensures RecommendBatteryTechnology(req) == RecommendBatteryTechnology(req.(budgetConstraint := None))
  {
  }

  // ---------------------------------------------------------------------
  // Array size

  /** The derating for heat: half a percent per degree above 25 °C, never
      negative. */
  function DeratingAbove(temperature: real, threshold: real, perDegree: real): (d: real)
    requires perDegree > 0.0
    ensures d >= 0.0 && d >= (temperature - threshold) * perDegree
    ensures temperature <= threshold ==> d == 0.0
    ensures temperature > threshold ==> d == (temperature - threshold) * perDegree
  {
    Max(0.0, (temperature - threshold) * perDegree)
  }

  datatype SolarSizing = SolarSizing(
    capacityKw: real,
    temperatureDerating: real,
    dustDerating: real,
    totalDerating: real)

  const DustDerating: real := 0.10

  /** `get_system_size`: the daily energy plus 20% losses, derated for heat
      and dust, rounded up to a whole kWh and spread over 4 peak sun hours,
      with a floor of 0.2 kW, which is reached exactly when there is no
      energy to cover. */
  function GetSystemSize(req: SystemRequirements): (s: SolarSizing)
    ensures s.temperatureDerating == DeratingAbove(req.locationTemperature, 25.0, 0.005)
    ensures s.dustDerating == 0.10
    ensures s.totalDerating == 1.1 + s.temperatureDerating && s.totalDerating >= 1.1
    ensures s.capacityKw >= 0.2
    ensures s.capacityKw == 0.2 <==> req.dailyEnergyKwh * 1.2 * s.totalDerating <= 0.0
    ensures s.capacityKw * 4.0 >= req.dailyEnergyKwh * 1.2 * s.totalDerating
    ensures s.capacityKw == 0.2 || s.capacityKw * 4.0 < req.dailyEnergyKwh * 1.2 * s.totalDerating + 1.0
    ensures s.capacityKw == 0.2 || (s.capacityKw * 4.0).Floor as real == s.capacityKw * 4.0
  {
    SizeForEnergy(req.dailyEnergyKwh * 1.2, DeratingAbove(req.locationTemperature, 25.0, 0.005))
  }

  /** The sizing for a day's energy with losses and a temperature derating:
      the derated energy is rounded up to whole kWh, spread over 4 peak sun
      hours and floored at 0.2 kW. */
  function SizeForEnergy(dailyEnergyWithLosses: real, tempDerating: real): (s: SolarSizing)
    ensures s.temperatureDerating == tempDerating && s.dustDerating == 0.10
    ensures s.totalDerating == 1.1 + tempDerating
    ensures s.capacityKw == Max(0.2, Ceil(Derated(dailyEnergyWithLosses, s.totalDerating)) as real / 4.0)
  {
    var dustDerating := DustDerating;
    var totalDerating := 1.0 + tempDerating + dustDerating;
    var deratedEnergy := Derated(dailyEnergyWithLosses, totalDerating);
    var requiredCapacity := Ceil(deratedEnergy);
    var solarSizeKw := Max(0.2, requiredCapacity as real / 4.0);
    SolarSizing(solarSizeKw, tempDerating, dustDerating, totalDerating)
  }

  /** An energy scaled by a derating factor. */
  function Derated(energy: real, derating: real): real
  {
    energy * derating
  }

  // ---------------------------------------------------------------------
  // Battery size

  datatype BatterySizing = BatterySizing(
    capacityKwh: real,
    temperatureDerating: real,
    depthOfDischarge: real)

  /** The storage before the floor: the backup share of a day's energy,
      over the usable fraction, plus 1% per degree above 30 °C. */
  function StorageNeedKwh(req: SystemRequirements, depthOfDischarge: real): real
    requires depthOfDischarge != 0.0
  {
    var dailyBackupKwh := req.dailyEnergyKwh * (req.backupHours / 24.0);
    Divide(dailyBackupKwh, depthOfDischarge) * (1.0 + DeratingAbove(req.locationTemperature, 30.0, 0.01))
  }

  /** `get_battery_size`: the storage need with a floor of 0.5 kWh. A depth
      of discharge of zero divides by zero. */
  function GetBatterySize(req: SystemRequirements, tech: BatteryTech): (r: Result<BatterySizing>)
    ensures r.Err? <==> tech.depthOfDischarge == 0.0
    ensures r.Err? ==> r.error == ZeroDivisionError
    ensures r.Ok? ==>
      && r.value.capacityKwh >= 0.5
      && r.value.capacityKwh >= StorageNeedKwh(req, tech.depthOfDischarge)
      && (r.value.capacityKwh == 0.5 || r.value.capacityKwh == StorageNeedKwh(req, tech.depthOfDischarge))
      && r.value.temperatureDerating == DeratingAbove(req.locationTemperature, 30.0, 0.01)
      && r.value.depthOfDischarge == tech.depthOfDischarge
  {
    var usableCapacity := tech.depthOfDischarge;
    var tempDerating := DeratingAbove(req.locationTemperature, 30.0, 0.01);
    if usableCapacity == 0.0 then Err(ZeroDivisionError)
    else
      var totalCapacity := StorageNeedKwh(req, usableCapacity);
      Ok(BatterySizing(Max(0.5, totalCapacity), tempDerating, usableCapacity))
  }

  /** The storage need is the backup energy scaled up by the usable fraction
      and the heat derating: need × DoD = daily × hours / 24 × (1 + derating). */
  lemma StorageNeedRecoversBackup(req: SystemRequirements, depthOfDischarge: real)
    requires depthOfDischarge != 0.0
    ensures StorageNeedKwh(req, depthOfDischarge) * depthOfDischarge ==
      req.dailyEnergyKwh * (req.backupHours / 24.0) * (1.0 + DeratingAbove(req.locationTemperature, 30.0, 0.01))
  {
    var q := Divide(req.dailyEnergyKwh * (req.backupHours / 24.0), depthOfDischarge);
    var k := 1.0 + DeratingAbove(req.locationTemperature, 30.0, 0.01);
    assert q * k * depthOfDischarge == (q * depthOfDischarge) * k;
  }

  /** The recommended technology never divides by zero. */
  lemma RecommendedBatteryIsSized(req: SystemRequirements)
    ensures GetBatterySize(req, RecommendBatteryTechnology(req)).Ok?
  {
  }

  // ---------------------------------------------------------------------
  // Inverter

  datatype InverterType = Micro | HybridInverter | Standard
  datatype Feature = SurgeProtection | VoltageStabilization | GridInteractive

  datatype InverterSpec = InverterSpec(sizeKw: real, inverterType: InverterType, features: seq<Feature>)

  /** What `get_inverter_size` returns: 20% over the peak load, tripled for
      motor starting surges; surge protection always, voltage stabilisation
      and grid interaction for an unstable grid; a micro inverter below
      1 kW, otherwise hybrid unless the grid is on all day. */
  function InverterFor(req: SystemRequirements): (s: InverterSpec)
    ensures s.sizeKw == req.peakLoadKw * (if req.hasMotorLoads then 3.6 else 1.2)
    ensures |s.features| >= 1 && s.features[0] == SurgeProtection
    ensures VoltageStabilization in s.features <==> req.hasVoltageIssues
    ensures GridInteractive in s.features <==> req.hasVoltageIssues
    ensures |s.features| == if req.hasVoltageIssues then 3 else 1
    ensures req.hasVoltageIssues ==> s.features[1] == VoltageStabilization && s.features[2] == GridInteractive
    ensures s.inverterType == Micro <==> s.sizeKw < 1.0
    ensures s.inverterType == HybridInverter <==> s.sizeKw >= 1.0 && req.gridHours < 24.0
    ensures s.inverterType == Standard <==> s.sizeKw >= 1.0 && req.gridHours >= 24.0
  {
    var size := req.peakLoadKw * (if req.hasMotorLoads then 3.0 else 1.0) * 1.2;
    var features := [SurgeProtection] + (if req.hasVoltageIssues then [VoltageStabilization, GridInteractive] else []);
    var inverterType := if size < 1.0 then Micro else if req.gridHours < 24.0 then HybridInverter else Standard;
    InverterSpec(size, inverterType, features)
  }

  /** `get_inverter_size`, step by step as the source builds its answer. */
  method GetInverterSize(req: SystemRequirements) returns (spec: InverterSpec)
    ensures spec == InverterFor(req)
  {
    var baseSize := req.peakLoadKw;
    if req.hasMotorLoads {
      baseSize := baseSize * 3.0;
    }
    var recommendedSize := baseSize * 1.2;
    var features := [SurgeProtection];
    if req.hasVoltageIssues {
      features := features + [VoltageStabilization, GridInteractive];
    }
    var inverterType;
    if recommendedSize < 1.0 {
      inverterType := Micro;
    } else if req.gridHours < 24.0 {
      inverterType := HybridInverter;
    } else {
      inverterType := Standard;
    }
    spec := InverterSpec(recommendedSize, inverterType, features);
  }

  /** A higher peak load with the same motor loads never gets a smaller
      inverter. */
  lemma InverterGrowsWithPeak(small: SystemRequirements, large: SystemRequirements)
    requires small.hasMotorLoads == large.hasMotorLoads
    requires 0.0 <= small.peakLoadKw <= large.peakLoadKw
    ensures InverterFor(small).sizeKw <= InverterFor(large).sizeKw
  {
  }

  // ---------------------------------------------------------------------
  // Protection components

  datatype ComponentKind = SecurityCage | SurgeProtector | VoltageStabilizer | GpsTracker | MotionSensor
  datatype Priority = High | Medium

  datatype Component = Component(kind: ComponentKind, description: string, priority: Priority)

  /** The fixed position of each kind in the list. */
  function Rank(k: ComponentKind): nat {
    match k
    case SecurityCage => 0
    case SurgeProtector => 1
    case VoltageStabilizer => 2
    case GpsTracker => 3
    case MotionSensor => 4
  }

  /** The entry the source writes for each kind. */
  function ComponentOf(k: ComponentKind): (c: Component)
    ensures c.kind == k
    ensures c.priority == High <==> Rank(k) <= 2
  {
    match k
    case SecurityCage => Component(k, "Outdoor equipment protection", High)
    case SurgeProtector => Component(k, "Equipment electrical protection", High)
    case VoltageStabilizer => Component(k, "Grid voltage fluctuation protection", High)
    case GpsTracker => Component(k, "Asset tracking and recovery", Medium)
    case MotionSensor => Component(k, "Security monitoring", Medium)
  }

  function Kinds(cs: seq<Component>): (ks: seq<ComponentKind>)
    ensures |ks| == |cs| && forall i :: 0 <= i < |cs| ==> ks[i] == cs[i].kind
  {
    seq(|cs|, i requires 0 <= i < |cs| => cs[i].kind)
  }

  /** What `recommend_protection_components` returns: a security cage and a
      surge protector always and first, a voltage stabiliser for an unstable
      grid, and asset tracking and motion sensing above a 5 kW peak, each
      with its fixed entry. */
  function ProtectionComponentsFor(req: SystemRequirements): (cs: seq<Component>)
    ensures |cs| == 2 + (if req.hasVoltageIssues then 1 else 0) + (if req.peakLoadKw > 5.0 then 2 else 0)
    ensures 2 <= |cs| <= 5
    ensures cs[0].kind == SecurityCage && cs[1].kind == SurgeProtector
    ensures forall i :: 0 <= i < |cs| ==> cs[i] == ComponentOf(cs[i].kind)
  {
    [ComponentOf(SecurityCage), ComponentOf(SurgeProtector)]
      + (if req.hasVoltageIssues then [ComponentOf(VoltageStabilizer)] else [])
      + (if req.peakLoadKw > 5.0 then [ComponentOf(GpsTracker), ComponentOf(MotionSensor)] else [])
  }

  /** A stabiliser is listed exactly for an unstable grid, and tracking and
      motion sensing exactly above a 5 kW peak. */
  lemma ProtectionMembership(req: SystemRequirements)
    ensures VoltageStabilizer in Kinds(ProtectionComponentsFor(req)) <==> req.hasVoltageIssues
    ensures GpsTracker in Kinds(ProtectionComponentsFor(req)) <==> req.peakLoadKw > 5.0
    ensures MotionSensor in Kinds(ProtectionComponentsFor(req)) <==> req.peakLoadKw > 5.0
  {
    var ks := Kinds(ProtectionComponentsFor(req));
    if req.hasVoltageIssues {
      assert ks[2] == VoltageStabilizer;
    }
    if req.peakLoadKw > 5.0 {
      assert ks[|ks| - 2] == GpsTracker && ks[|ks| - 1] == MotionSensor;
    }
  }

  /** Each kind is listed at most once, in the fixed order cage, surge
      protector, stabiliser, tracker, motion sensor. */
  lemma ProtectionOrder(req: SystemRequirements)
    ensures var cs := ProtectionComponentsFor(req);
      forall i, j :: 0 <= i < j < |cs| ==> Rank(cs[i].kind) < Rank(cs[j].kind)
  {
  }

  /** `recommend_protection_components`, appending as the source does. */
  method RecommendProtectionComponents(req: SystemRequirements) returns (components: seq<Component>)
    ensures components == ProtectionComponentsFor(req)
  {
    components := [ComponentOf(SecurityCage), ComponentOf(SurgeProtector)];
    if req.hasVoltageIssues {
      components := components + [ComponentOf(VoltageStabilizer)];
    }
    if req.peakLoadKw > 5.0 {
      components := components + [ComponentOf(GpsTracker), ComponentOf(MotionSensor)];
    }
  }

  // ---------------------------------------------------------------------
  // Economics

  const SolarCostPerKw: real := 500000.0
  const LithiumCostPerKwh: real := 200000.0
  const LeadAcidCostPerKwh: real := 100000.0
  const InverterCostPerKw: real := 150000.0
  const DieselCostPerKwh: real := 200.0

  datatype EconomicAnalysis = EconomicAnalysis(
    initialCost: real,
    monthlySavings: real,
    paybackPeriodMonths: real,
    solarCost: real,
    batteryCost: real,
    inverterCost: real)

  /** The battery price per kWh: the lithium rate above 35 °C and the
      lead-acid rate otherwise, whatever technology was recommended. */
  function BatteryRate(req: SystemRequirements): (rate: real)
    ensures rate == (if req.locationTemperature > 35.0 then 200000.0 else 100000.0)
  {
    if req.locationTemperature > 35.0 then LithiumCostPerKwh else LeadAcidCostPerKwh
  }

  /** `perform_economic_analysis`: the component costs at fixed rates, their
      sum as the initial cost, the diesel bill the system saves each month,
      and the months of savings that repay the initial cost. Zero daily
      energy makes the division fail. */
  function PerformEconomicAnalysis(solar: SolarSizing, battery: BatterySizing, inverter: InverterSpec,
                                   req: SystemRequirements): (r: Result<EconomicAnalysis>)
    ensures r.Err? <==> req.dailyEnergyKwh == 0.0
    ensures r.Err? ==> r.error == ZeroDivisionError
    ensures r.Ok? ==>
      && r.value.solarCost == solar.capacityKw * 500000.0
      && r.value.batteryCost == battery.capacityKwh * BatteryRate(req)
      && r.value.inverterCost == inverter.sizeKw * 150000.0
      && r.value.initialCost == r.value.solarCost + r.value.batteryCost + r.value.inverterCost
      && r.value.monthlySavings == req.dailyEnergyKwh * 6000.0
      && r.value.paybackPeriodMonths * r.value.monthlySavings == r.value.initialCost
  {
    var solarCost := solar.capacityKw * SolarCostPerKw;
    var batteryCost := battery.capacityKwh * BatteryRate(req);
    var inverterCost := inverter.sizeKw * InverterCostPerKw;
    var totalCost := solarCost + batteryCost + inverterCost;
    var monthlySavings := req.dailyEnergyKwh * 30.0 * DieselCostPerKwh;
    if monthlySavings == 0.0 then Err(ZeroDivisionError)
    else
      var paybackMonths := Divide(totalCost, monthlySavings);
      Ok(EconomicAnalysis(totalCost, monthlySavings, paybackMonths, solarCost, batteryCost, inverterCost))
  }

  /** The battery cost follows the temperature, not the recommendation: a
      mild site with short grid hours is recommended lithium yet costed at
      the lead-acid rate. */
  lemma LithiumCostedAtLeadAcidRate()
    ensures var req := SystemRequirements(10.0, 2.0, 30.0, 6.0, false, 12.0, false, false, None);
      && RecommendBatteryTechnology(req).technology == Lithium
      && BatteryRate(req) == LeadAcidCostPerKwh
  {
  }

  // ---------------------------------------------------------------------
  // Modular design

  /** The share of the load that is critical. */
  const CriticalLoadFactor: real := 0.6

  /** The requirements of the critical loads: 60% of the daily energy and
      of the peak load, every other requirement as given. */
  function CriticalLoadRequirements(req: SystemRequirements): (m: SystemRequirements)
    ensures m.dailyEnergyKwh == 0.6 * req.dailyEnergyKwh && m.peakLoadKw == 0.6 * req.peakLoadKw
    ensures m.(dailyEnergyKwh := req.dailyEnergyKwh, peakLoadKw := req.peakLoadKw) == req
  {
    req.(dailyEnergyKwh := req.dailyEnergyKwh * CriticalLoadFactor,
         peakLoadKw := req.peakLoadKw * CriticalLoadFactor)
  }

  datatype SystemDesign = SystemDesign(solar: SolarSizing, battery: BatterySizing, inverter: InverterSpec)

  /** The array, battery and inverter the rules give for some requirements,
      the battery sized for the technology they recommend. */
  function SystemFor(req: SystemRequirements): (d: SystemDesign)
    ensures d.solar == GetSystemSize(req)
    ensures GetBatterySize(req, RecommendBatteryTechnology(req)) == Ok(d.battery)
    ensures d.inverter == InverterFor(req)
  {
    SystemDesign(GetSystemSize(req), GetBatterySize(req, RecommendBatteryTechnology(req)).value, InverterFor(req))
  }

  datatype Stage = Stage(stage: int, description: string, capacity: SystemDesign)

  datatype ModularDesign = ModularDesign(initialSystem: SystemDesign, finalSystem: SystemDesign, expansionStages: seq<Stage>)

  /** `design_modular_system`: a first stage for the critical loads and a
      second for the full requirements. */
  function DesignModularSystem(req: SystemRequirements): (d: ModularDesign)
    ensures d.initialSystem == SystemFor(CriticalLoadRequirements(req))
    ensures d.finalSystem == SystemFor(req)
    ensures |d.expansionStages| == 2
    ensures d.expansionStages[0].stage == 1 && d.expansionStages[0].capacity == d.initialSystem
    ensures d.expansionStages[1].stage == 2 && d.expansionStages[1].capacity == d.finalSystem
  {
    var minimalSystem := SystemFor(CriticalLoadRequirements(req));
    var fullSystem := SystemFor(req);
    ModularDesign(minimalSystem, fullSystem, [
      Stage(1, "Critical loads only", minimalSystem),
      Stage(2, "Full system implementation", fullSystem)
    ])
  }

  /** Both stages use the same battery technology, since scaling the loads
      leaves temperature, grid hours and budget alone. */
  lemma StagesShareTechnology(req: SystemRequirements)
    ensures RecommendBatteryTechnology(CriticalLoadRequirements(req)) == RecommendBatteryTechnology(req)
  {
  }

  /** For non-negative loads and backup hours, the first stage is never
      larger than the final one in any of its three parts. */
  lemma ModularStagesGrow(req: SystemRequirements)
    requires req.dailyEnergyKwh >= 0.0 && req.peakLoadKw >= 0.0 && req.backupHours >= 0.0
    ensures var d := DesignModularSystem(req);
      && d.initialSystem.solar.capacityKw <= d.finalSystem.solar.capacityKw
      && d.initialSystem.battery.capacityKwh <= d.finalSystem.battery.capacityKwh
      && d.initialSystem.inverter.sizeKw <= d.finalSystem.inverter.sizeKw
  {
    var m := CriticalLoadRequirements(req);
    SolarGrowsWithEnergy(m, req);
    StagesShareTechnology(req);
    BatteryGrowsWithEnergy(m, req, RecommendBatteryTechnology(req));
    InverterGrowsWithPeak(m, req);
  }

  /** More daily energy at the same temperature never gets a smaller array. */
  lemma SolarGrowsWithEnergy(small: SystemRequirements, large: SystemRequirements)
    requires small.locationTemperature == large.locationTemperature
    requires 0.0 <= small.dailyEnergyKwh <= large.dailyEnergyKwh
    ensures GetSystemSize(small).capacityKw <= GetSystemSize(large).capacityKw
  {
    var tempDerating := DeratingAbove(small.locationTemperature, 25.0, 0.005);
    var a := small.dailyEnergyKwh * 1.2;
    var b := large.dailyEnergyKwh * 1.2;
    assert GetSystemSize(small) == SizeForEnergy(a, tempDerating);
    assert GetSystemSize(large) == SizeForEnergy(b, tempDerating);
    CapacityGrows(a, b, 1.1 + tempDerating);
  }

  /** The sizing rule is monotone in the energy for a fixed, non-negative
      derating. */
  lemma CapacityGrows(a: real, b: real, t: real)
    requires 0.0 <= a <= b && t >= 0.0
    ensures Max(0.2, Ceil(Derated(a, t)) as real / 4.0) <= Max(0.2, Ceil(Derated(b, t)) as real / 4.0)
  {
    MulMonotone(a, b, t);
    CeilMonotone(a * t, b * t);
  }

  /** More daily energy at the same temperature and backup hours never gets
      a smaller battery of the same technology. */
  lemma BatteryGrowsWithEnergy(small: SystemRequirements, large: SystemRequirements, tech: BatteryTech)
    requires small.locationTemperature == large.locationTemperature
    requires small.backupHours == large.backupHours && small.backupHours >= 0.0
    requires 0.0 <= small.dailyEnergyKwh <= large.dailyEnergyKwh && tech.depthOfDischarge > 0.0
    ensures GetBatterySize(small, tech).value.capacityKwh <= GetBatterySize(large, tech).value.capacityKwh
  {
    var share := small.backupHours / 24.0;
    var k := 1.0 + DeratingAbove(small.locationTemperature, 30.0, 0.01);
    MulMonotone(small.dailyEnergyKwh, large.dailyEnergyKwh, share);
    var a := Divide(small.dailyEnergyKwh * share, tech.depthOfDischarge);
    var b := Divide(large.dailyEnergyKwh * share, tech.depthOfDischarge);
    MulMonotone(a, b, tech.depthOfDischarge);
    MulMonotone(a, b, k);
    assert StorageNeedKwh(small, tech.depthOfDischarge) <= StorageNeedKwh(large, tech.depthOfDischarge);
  }
}
