/** The local, rule-based quote: array size from daily energy and the
    location's sun hours, battery size from the backup period and the user
    type, an inverter band, a panel count, an additive cost model with a
    location installation factor, and the request wrapper that turns every
    exception into an error result. Display formatting is not modelled. */
module SystemCalculator {
  import opened Common

  datatype LocationCosts = LocationCosts(costPerWatt: int, installationFactor: real)

  /** `PANEL_COSTS`, with the fallback under "default". */
  const PanelCosts: map<string, LocationCosts> := map[
    "Lagos" := LocationCosts(350, 1.1),
    "Abuja" := LocationCosts(370, 1.0),
    "Kano" := LocationCosts(390, 1.2),
    "Port Harcourt" := LocationCosts(360, 1.15),
    "Ibadan" := LocationCosts(355, 1.05),
    "Enugu" := LocationCosts(380, 1.1),
    "default" := LocationCosts(365, 1.1)
  ]

  datatype BatteryCost = BatteryCost(costPerKwh: int, cycles: int, efficiency: real)

  /** `BATTERY_COSTS`. */
  const BatteryCosts: map<string, BatteryCost> := map[
    "lithium-ion" := BatteryCost(180000, 3000, 0.95),
    "gel" := BatteryCost(120000, 1500, 0.85),
    "lead-acid" := BatteryCost(80000, 800, 0.75)
  ]

  /** `INVERTER_COSTS`, by size band. */
  const InverterCosts: map<string, int> := map[
    "1-3kW" := 150000,
    "3-5kW" := 250000,
    "5-10kW" := 400000,
    "10-15kW" := 600000,
    "15-20kW" := 800000
  ]

  /** `SUN_HOURS`: average daily sun hours, with the fallback under "default". */
  const SunHours: map<string, real> := map[
    "Lagos" := 5.5,
    "Abuja" := 6.0,
    "Kano" := 6.5,
    "Port Harcourt" := 5.0,
    "Ibadan" := 5.8,
    "Enugu" := 5.6,
    "default" := 5.5
  ]

  const ListedLocations: set<string> := {"Lagos", "Abuja", "Kano", "Port Harcourt", "Ibadan", "Enugu"}

  /** `SUN_HOURS.get(location, SUN_HOURS["default"])`. */
  function SunHoursAt(location: string): (h: real)
    ensures 5.0 <= h <= 6.5
    ensures location in SunHours ==> h == SunHours[location]
    ensures location !in SunHours ==> h == SunHours["default"]
  {
    if location in SunHours then SunHours[location] else SunHours["default"]
  }

  /** `PANEL_COSTS.get(location, PANEL_COSTS["default"])`. */
  function CostsAt(location: string): (c: LocationCosts)
    ensures 350 <= c.costPerWatt <= 390 && 1.0 <= c.installationFactor <= 1.2
    ensures location in PanelCosts ==> c == PanelCosts[location]
    ensures location !in PanelCosts ==> c == PanelCosts["default"]
  {
    if location in PanelCosts then PanelCosts[location] else PanelCosts["default"]
  }

  /** A location the tables do not list gets 5.5 sun hours, 365 NGN per watt
      and an installation factor of 1.1. */
  lemma UnlistedLocationUsesDefaults(location: string)
    requires location !in ListedLocations
    ensures SunHoursAt(location) == 5.5
    ensures CostsAt(location) == LocationCosts(365, 1.1)
  {
  }

  // ---------------------------------------------------------------------
  // Array size

  /** The array size before rounding: daily energy over sun hours, plus 20%. */
  function RequiredKw(dailyEnergyKwh: real, location: string): real {
    (dailyEnergyKwh / SunHoursAt(location)) * 1.2
  }

  /** A whole number of half kilowatts. */
  predicate IsHalfKw(x: real) {
    (x * 2.0).Floor as real == x * 2.0
  }

  /** `get_system_size`: the requirement rounded up to a half kilowatt, and
      never below 1 kW. It never undersizes, and above the floor it is less
      than half a kilowatt over the requirement. */
  function GetSystemSize(dailyEnergyKwh: real, location: string): (kw: real)
    ensures kw >= 1.0 && IsHalfKw(kw)
    ensures kw >= RequiredKw(dailyEnergyKwh, location)
    ensures kw == 1.0 || kw < RequiredKw(dailyEnergyKwh, location) + 0.5
  {
    var requiredKw := RequiredKw(dailyEnergyKwh, location);
    var rounded := Ceil(requiredKw * 2.0) as real / 2.0;
    Max(1.0, rounded)
  }

  /** No smaller whole number of half kilowatts of at least 1 kW would cover
      the requirement. */
  lemma GetSystemSizeIsLeast(dailyEnergyKwh: real, location: string, m: real)
    requires IsHalfKw(m) && m >= 1.0 && m >= RequiredKw(dailyEnergyKwh, location)
    ensures GetSystemSize(dailyEnergyKwh, location) <= m
  {
    var requiredKw := RequiredKw(dailyEnergyKwh, location);
    CeilLeast(requiredKw * 2.0, (m * 2.0).Floor);
  }

  // ---------------------------------------------------------------------
  // Battery size

  /** Share of daily energy used at night: half for a household, 30% for
      any other user type. */
  function NightUsageFactor(userType: string): (f: real)
    ensures userType == "household" ==> f == 0.5
    ensures userType != "household" ==> f == 0.3
  {
    if userType == "household" then 0.5 else 0.3
  }

  /** The energy to store: every backup day after the first in full, plus
      the night share of one day. */
  function BackupEnergyKwh(dailyEnergyKwh: real, backupDays: real, userType: string): real {
    var nightEnergyKwh := dailyEnergyKwh * NightUsageFactor(userType);
    dailyEnergyKwh * (backupDays - 1.0) + nightEnergyKwh
  }

  /** `get_battery_size`: the backup energy plus 30%, rounded up to a whole
      kWh. */
  function GetBatterySize(dailyEnergyKwh: real, backupDays: real, userType: string): (kwh: int)
    ensures kwh as real >= BackupEnergyKwh(dailyEnergyKwh, backupDays, userType) * 1.3
    ensures (kwh - 1) as real < BackupEnergyKwh(dailyEnergyKwh, backupDays, userType) * 1.3
  {
    var requiredCapacity := BackupEnergyKwh(dailyEnergyKwh, backupDays, userType) * 1.3;
    Ceil(requiredCapacity)
  }

  /** With one backup day a household stores 65% of a day's energy and any
      other user 39%, each rounded up; a household never needs less. */
  lemma OneDayBatteryByUserType(dailyEnergyKwh: real, userType: string)
    requires dailyEnergyKwh >= 0.0
    ensures userType == "household" ==> GetBatterySize(dailyEnergyKwh, 1.0, userType) == Ceil(dailyEnergyKwh * 0.65)
    ensures userType != "household" ==> GetBatterySize(dailyEnergyKwh, 1.0, userType) == Ceil(dailyEnergyKwh * 0.39)
    ensures GetBatterySize(dailyEnergyKwh, 1.0, "business") <= GetBatterySize(dailyEnergyKwh, 1.0, "household")
  {
    assert BackupEnergyKwh(dailyEnergyKwh, 1.0, userType) * 1.3 == dailyEnergyKwh * NightUsageFactor(userType) * 1.3;
    CeilMonotone(dailyEnergyKwh * 0.39, dailyEnergyKwh * 0.65);
  }

  // ---------------------------------------------------------------------
  // Inverter band and panels

  /** `get_inverter_size`: the band whose upper bound (inclusive) first
      covers the array size. */
  function GetInverterSize(systemSizeKw: real): (band: string)
    ensures band in InverterCosts
    ensures band == "1-3kW" <==> systemSizeKw <= 3.0
    ensures band == "3-5kW" <==> 3.0 < systemSizeKw <= 5.0
    ensures band == "5-10kW" <==> 5.0 < systemSizeKw <= 10.0
    ensures band == "10-15kW" <==> 10.0 < systemSizeKw <= 15.0
    ensures band == "15-20kW" <==> 15.0 < systemSizeKw
  {
    if systemSizeKw <= 3.0 then "1-3kW"
    else if systemSizeKw <= 5.0 then "3-5kW"
    else if systemSizeKw <= 10.0 then "5-10kW"
    else if systemSizeKw <= 15.0 then "10-15kW"
    else "15-20kW"
  }

  /** Position of a band in the ascending order of sizes. */
  function BandRank(band: string): int {
    if band == "1-3kW" then 0
    else if band == "3-5kW" then 1
    else if band == "5-10kW" then 2
    else if band == "10-15kW" then 3
    else 4
  }

  /** A larger array never gets a smaller inverter band, nor a cheaper one. */
  lemma InverterSizeMonotone(a: real, b: real)
    requires a <= b
    ensures BandRank(GetInverterSize(a)) <= BandRank(GetInverterSize(b))
    ensures InverterCosts[GetInverterSize(a)] <= InverterCosts[GetInverterSize(b)]
  {
  }

  /** `calculate_panel_count`: the fewest panels of `panelWatts` watts that
      reach the array size. A zero panel rating divides by zero. */
  function CalculatePanelCount(systemSizeKw: real, panelWatts: real): (r: Result<int>)
    ensures r.Err? <==> panelWatts == 0.0
    ensures r.Err? ==> r.error == ZeroDivisionError
    ensures r.Ok? && panelWatts > 0.0 ==>
      && r.value as real * panelWatts >= systemSizeKw * 1000.0
      && (r.value - 1) as real * panelWatts < systemSizeKw * 1000.0
  {
    var systemWatts := systemSizeKw * 1000.0;
    if panelWatts == 0.0 then Err(ZeroDivisionError)
    else
      var panelCount := Ceil(systemWatts / panelWatts);
      assert panelWatts > 0.0 ==> panelCount as real * panelWatts >= systemWatts > (panelCount - 1) as real * panelWatts by {
        if panelWatts > 0.0 {
          CeilScales(systemWatts, panelWatts);
        }
      }
      Ok(panelCount)
  }

  /** Scaling the ceiling's bounds back by a positive divisor. */
  lemma CeilScales(x: real, d: real)
    requires d > 0.0
    ensures Ceil(x / d) as real * d >= x
    ensures (Ceil(x / d) - 1) as real * d < x
  {
    var q := x / d;
    assert q * d == x;
    MulMonotone(q, Ceil(q) as real, d);
    ScaleBelow(q, d, x, (Ceil(q) - 1) as real);
  }

  lemma ScaleBelow(q: real, d: real, x: real, m: real)
    requires d > 0.0 && q * d == x && m < q
    ensures m * d < x
  {
    MulStrictMonotone(m, q, d);
  }

  /** The component sum plus the installation share, the sum times the
      factor's excess over 1, is the sum scaled by the installation factor. */
  function InstalledTotal(sum: real, factor: real, installation: real): (t: real)
    requires installation == sum * (factor - 1.0)
    ensures t == sum * factor
  {
    sum + installation
  }

  /** Batteries come in 5 kWh units: the fewest units that hold the size. */
  function BatteryUnits(kwh: int): (n: int)
    ensures n * 5 >= kwh && (n - 1) * 5 < kwh
  {
    CeilScales(kwh as real, 5.0);
    Ceil(kwh as real / 5.0)
  }

  // ---------------------------------------------------------------------
  // Cost

  /** The numeric content of the quote `calculate_system_cost` returns. */
  datatype SystemCost = SystemCost(
    systemSizeKw: real,
    panelCount: int,
    batterySizeKwh: int,
    batteryType: string,
    batteryCount: int,
    inverterSize: string,
    panelCost: real,
    batteryCost: real,
    inverterCost: real,
    installationCost: real,
    totalCost: real,
    monthlySavings: real,
    paybackYears: real,
    areaM2: int)

  const PanelWatts: real := 400.0

  /** `calculate_system_cost`. An unknown battery type fails with KeyError
      and zero daily energy divides by zero in the payback period. */
  function CalculateSystemCost(dailyEnergyKwh: real, location: string, backupDays: real,
                               userType: string, batteryType: string): (r: Result<SystemCost>)
    ensures r.Err? <==> batteryType !in BatteryCosts || dailyEnergyKwh == 0.0
    ensures batteryType !in BatteryCosts ==> r == Err(KeyError(batteryType))
    ensures batteryType in BatteryCosts && dailyEnergyKwh == 0.0 ==> r == Err(ZeroDivisionError)
    ensures r.Ok? ==> QuoteHolds(r.value, dailyEnergyKwh, location, backupDays, userType, batteryType)
  {
    if batteryType !in BatteryCosts then Err(KeyError(batteryType))
    else if dailyEnergyKwh * 30.0 * 0.5 * 350.0 * 12.0 == 0.0 then Err(ZeroDivisionError)
    else Ok(Quote(dailyEnergyKwh, location, backupDays, userType, batteryType))
  }

  /** The quote itself, once the battery type is known and the daily energy
      is not zero: the sizes, then their prices. */
  function Quote(dailyEnergyKwh: real, location: string, backupDays: real,
                 userType: string, batteryType: string): (c: SystemCost)
    requires batteryType in BatteryCosts && dailyEnergyKwh != 0.0
    ensures QuoteHolds(c, dailyEnergyKwh, location, backupDays, userType, batteryType)
  {
    var systemSizeKw := GetSystemSize(dailyEnergyKwh, location);
    var batterySizeKwh := GetBatterySize(dailyEnergyKwh, backupDays, userType);
    var inverterSize := GetInverterSize(systemSizeKw);
    var panelCount := CalculatePanelCount(systemSizeKw, PanelWatts).value;
    Priced(systemSizeKw, panelCount, batterySizeKwh, batteryType, inverterSize,
           CostsAt(location), dailyEnergyKwh)
  }

  /** The priced quote for given sizes at a location's costs. */
  function Priced(systemSizeKw: real, panelCount: int, batterySizeKwh: int, batteryType: string,
                  inverterSize: string, locationCosts: LocationCosts, dailyEnergyKwh: real): (c: SystemCost)
    requires batteryType in BatteryCosts && inverterSize in InverterCosts && dailyEnergyKwh != 0.0
    ensures c.systemSizeKw == systemSizeKw && c.panelCount == panelCount
    ensures c.batterySizeKwh == batterySizeKwh && c.batteryType == batteryType && c.inverterSize == inverterSize
    ensures PricesHold(c, locationCosts, dailyEnergyKwh)
  {
    var panelCostPerWatt := locationCosts.costPerWatt;
    var installationFactor := locationCosts.installationFactor;

    var panelCost := systemSizeKw * 1000.0 * panelCostPerWatt as real;
    var batteryCost := (batterySizeKwh * BatteryCosts[batteryType].costPerKwh) as real;
    var inverterCost := InverterCosts[inverterSize] as real;

    var componentCost := panelCost + batteryCost + inverterCost;
    var installationCost := componentCost * (installationFactor - 1.0);
    var totalCost := InstalledTotal(componentCost, installationFactor, installationCost);

    var monthlyGeneratorCost := dailyEnergyKwh * 30.0 * 0.5 * 350.0;
    var monthlySavings := monthlyGeneratorCost;
    var paybackYears := Divide(totalCost, monthlySavings * 12.0);
    var batteryCount := BatteryUnits(batterySizeKwh);
    SystemCost(systemSizeKw, panelCount, batterySizeKwh, batteryType, batteryCount,
               inverterSize, panelCost, batteryCost, inverterCost, installationCost,
               totalCost, monthlySavings, paybackYears, panelCount * 2)
  }

  /** What a quote promises: the requested battery type, sizes from the
      sizing rules, panels that cover the array, and prices that follow the
      location's costs. */
  ghost predicate QuoteHolds(c: SystemCost, dailyEnergyKwh: real, location: string, backupDays: real,
                             userType: string, batteryType: string) {
    && c.batteryType == batteryType
    && c.systemSizeKw == GetSystemSize(dailyEnergyKwh, location)
    && c.batterySizeKwh == GetBatterySize(dailyEnergyKwh, backupDays, userType)
    && c.inverterSize == GetInverterSize(c.systemSizeKw)
    && c.panelCount as real * PanelWatts >= c.systemSizeKw * 1000.0
    && (c.panelCount - 1) as real * PanelWatts < c.systemSizeKw * 1000.0
    && PricesHold(c, CostsAt(location), dailyEnergyKwh)
  }

  /** The prices of a quote: the batteries come in 5 kWh units, the area is
      2 m² per panel, installation adds the factor's excess over 1 to the
      component sum, the total is that sum scaled by the factor, the savings are the generator's fuel bill (half a
      litre per kWh at 350 NGN, 30 days) and the payback period repays the
      total. */
  ghost predicate PricesHold(c: SystemCost, locationCosts: LocationCosts, dailyEnergyKwh: real) {
    && c.batteryType in BatteryCosts && c.inverterSize in InverterCosts
    && c.batteryCount * 5 >= c.batterySizeKwh && (c.batteryCount - 1) * 5 < c.batterySizeKwh
    && c.areaM2 == 2 * c.panelCount
    && c.panelCost == c.systemSizeKw * 1000.0 * locationCosts.costPerWatt as real
    && c.batteryCost == (c.batterySizeKwh * BatteryCosts[c.batteryType].costPerKwh) as real
    && c.inverterCost == InverterCosts[c.inverterSize] as real
    && c.installationCost == (c.panelCost + c.batteryCost + c.inverterCost) * (locationCosts.installationFactor - 1.0)
    && c.totalCost == (c.panelCost + c.batteryCost + c.inverterCost) * locationCosts.installationFactor
    && c.monthlySavings == dailyEnergyKwh * 5250.0
    && c.paybackYears * (c.monthlySavings * 12.0) == c.totalCost
  }

  // ---------------------------------------------------------------------
  // The request wrapper

  /** A value of the request's JSON body, as Python sees it. */
  datatype PyValue =
    | PyFloat(f: real) | PyInt(i: int) | PyBool(b: bool) | PyStr(s: string) | PyNone
    | PyList(items: seq<PyValue>) | PyDict(entries: map<string, PyValue>)

  /** Lists and dicts cannot be dictionary keys. */
  predicate Hashable(v: PyValue) {
    !v.PyList? && !v.PyDict?
  }

  predicate AllAsciiSpace(s: string) {
    forall i :: 0 <= i < |s| ==> IsAsciiSpace(s[i])
  }

  predicate IsAsciiSpace(c: char) {
    c == ' ' || c == '\t' || c == '\n' || c == '\r' || c == '\U{000B}' || c == '\U{000C}'
  }

  function StripSpaces(s: string): (t: string)
    ensures |t| <= |s|
  {
    if s != [] && IsAsciiSpace(s[0]) then StripSpaces(s[1..])
    else if s != [] && IsAsciiSpace(s[|s| - 1]) then StripSpaces(s[..|s| - 1])
    else s
  }

  predicate AllDigits(s: string) {
    forall i :: 0 <= i < |s| ==> IsDigit(s[i])
  }

  /** The number a string of decimal digits spells. */
  function DigitsValue(s: string): (v: nat)
    requires AllDigits(s)
  {
    if s == [] then 0
    else DigitsValue(s[..|s| - 1]) * 10 + (s[|s| - 1] as int - '0' as int)
  }

  function Pow10(n: nat): (p: nat)
    ensures p >= 1
  {
    if n == 0 then 1 else 10 * Pow10(n - 1)
  }

  /** A decimal numeral without sign: digits, or digits and a point with
      digits on at least one side. */
  function ParseUnsigned(s: string): Option<real> {
    if '.' !in s then
      if s != [] && AllDigits(s) then Some(DigitsValue(s) as real) else None
    else
      var k := PointIndex(s);
      var whole, fraction := s[..k], s[k + 1..];
      if (whole != [] || fraction != []) && AllDigits(whole) && AllDigits(fraction) then
        Some(DecimalValue(whole, fraction))
      else None
  }

  /** The value of `whole.fraction`: the fraction's digits count in units of
      ten to the minus their number. */
  function DecimalValue(whole: string, fraction: string): real
    requires AllDigits(whole) && AllDigits(fraction)
  {
    DigitsValue(whole) as real + DigitsValue(fraction) as real / Pow10(|fraction|) as real
  }

  function PointIndex(s: string): (k: nat)
    requires '.' in s
    ensures k < |s| && s[k] == '.'
    ensures forall i :: 0 <= i < k ==> s[i] != '.'
  {
    if s[0] == '.' then 0
    else
      assert '.' in s[1..] by {
        var m :| 0 <= m < |s| && s[m] == '.';
        assert s[1..][m - 1] == '.';
      }
      1 + PointIndex(s[1..])
  }

  /** `float(text)` on the decimal numerals the page sends: surrounding white
      space allowed, an optional sign, digits with an optional fraction. */
  function ParseFloatText(text: string): Option<real> {
    ParseSigned(StripSpaces(text))
  }

  /** An optional sign, then an unsigned numeral. */
  function ParseSigned(t: string): Option<real> {
    if t != [] && t[0] == '-' then
      match ParseUnsigned(t[1..])
      case Some(v) => Some(-v)
      case None => None
    else if t != [] && t[0] == '+' then ParseUnsigned(t[1..])
    else ParseUnsigned(t)
  }

  /** A sign in front of a number: only "-" negates. */
  function Signed(sign: string, v: real): real {
    if sign == "-" then -v else v
  }

  /** Stripping removes exactly the white space around a core that neither
      starts nor ends with white space. */
  lemma {:induction false} StripPadding(lead: string, core: string, trail: string)
    requires AllAsciiSpace(lead) && AllAsciiSpace(trail)
    requires core != [] && !IsAsciiSpace(core[0]) && !IsAsciiSpace(core[|core| - 1])
    ensures StripSpaces(lead + core + trail) == core
    decreases |lead| + |trail|
  {
    var s := lead + core + trail;
    if lead != [] {
      assert s[0] == lead[0];
      assert s[1..] == lead[1..] + core + trail;
      StripPadding(lead[1..], core, trail);
    } else if trail != [] {
      assert s == core + trail;
      assert s[0] == core[0] && s[|s| - 1] == trail[|trail| - 1];
      assert s[..|s| - 1] == lead + core + trail[..|trail| - 1];
      StripPadding(lead, core, trail[..|trail| - 1]);
    } else {
      assert s == core;
    }
  }

  /** A sign in front of an unsigned numeral applies to its value. */
  lemma SignApplies(sign: string, u: string)
    requires sign in {"", "+", "-"} && u != [] && u[0] != '-' && u[0] != '+'
    requires ParseUnsigned(u).Some?
    ensures ParseSigned(sign + u) == Some(Signed(sign, ParseUnsigned(u).value))
  {
    if sign != "" {
      assert (sign + u)[0] == sign[0] && (sign + u)[1..] == u;
    } else {
      assert sign + u == u;
    }
  }

  /** Padding, a sign and a numeral: `float()` strips the padding and signs
      the numeral's value. */
  lemma ParsePadded(lead: string, sign: string, u: string, trail: string)
    requires AllAsciiSpace(lead) && AllAsciiSpace(trail) && sign in {"", "+", "-"}
    requires u != [] && u[0] != '-' && u[0] != '+' && !IsAsciiSpace(u[0]) && !IsAsciiSpace(u[|u| - 1])
    requires ParseUnsigned(u).Some?
    ensures ParseFloatText(lead + sign + u + trail) == Some(Signed(sign, ParseUnsigned(u).value))
  {
    var core := sign + u;
    assert lead + sign + u + trail == lead + core + trail;
    assert core[|core| - 1] == u[|u| - 1];
    assert core[0] == if sign == "" then u[0] else sign[0];
    StripPadding(lead, core, trail);
    SignApplies(sign, u);
  }

  /** A string of digits is the number it spells. */
  lemma UnsignedDigits(digits: string)
    requires digits != [] && AllDigits(digits)
    ensures ParseUnsigned(digits) == Some(DigitsValue(digits) as real)
  {
  }

  /** Digits, a point and digits: the whole part plus the fraction's digits
      over their power of ten. */
  lemma UnsignedDecimal(whole: string, fraction: string)
    requires (whole != [] || fraction != []) && AllDigits(whole) && AllDigits(fraction)
    ensures ParseUnsigned(whole + "." + fraction) == Some(DecimalValue(whole, fraction))
  {
    var u := whole + "." + fraction;
    assert u[|whole|] == '.';
    var k := PointIndex(u);
    assert k == |whole|;
    assert u[..k] == whole && u[k + 1..] == fraction;
  }

  /** `float()` reads a padded, optionally signed string of digits as the
      number the digits spell. */
  lemma ParseDigitString(lead: string, sign: string, digits: string, trail: string)
    requires AllAsciiSpace(lead) && AllAsciiSpace(trail) && sign in {"", "+", "-"}
    requires digits != [] && AllDigits(digits)
    ensures ParseFloatText(lead + sign + digits + trail) == Some(Signed(sign, DigitsValue(digits) as real))
  {
    assert IsDigit(digits[0]) && IsDigit(digits[|digits| - 1]);
    UnsignedDigits(digits);
    ParsePadded(lead, sign, digits, trail);
  }

  /** `float()` reads a padded, optionally signed decimal with a point as
      the whole part plus the fraction's digits over their power of ten. */
  lemma ParseDecimalString(lead: string, sign: string, whole: string, fraction: string, trail: string)
    requires AllAsciiSpace(lead) && AllAsciiSpace(trail) && sign in {"", "+", "-"}
    requires (whole != [] || fraction != []) && AllDigits(whole) && AllDigits(fraction)
    ensures ParseFloatText(lead + sign + whole + "." + fraction + trail) == Some(Signed(sign, DecimalValue(whole, fraction)))
  {
    var u := whole + "." + fraction;
    assert u[0] == (if whole != [] then whole[0] else '.');
    assert u[|u| - 1] == (if fraction != [] then fraction[|fraction| - 1] else '.');
    if whole != [] {
      assert IsDigit(whole[0]);
    }
    if fraction != [] {
      assert IsDigit(fraction[|fraction| - 1]);
    }
    UnsignedDecimal(whole, fraction);
    assert lead + sign + whole + "." + fraction + trail == lead + sign + u + trail;
    ParsePadded(lead, sign, u, trail);
  }

  /** `float(value)`. */
  function PyFloatOf(v: PyValue): (r: Result<real>)
    ensures v.PyFloat? ==> r == Ok(v.f)
    ensures v.PyInt? ==> r == Ok(v.i as real)
    ensures v.PyBool? ==> r == Ok(if v.b then 1.0 else 0.0)
    ensures v.PyStr? && ParseFloatText(v.s).Some? ==> r == Ok(ParseFloatText(v.s).value)
    ensures v.PyStr? && ParseFloatText(v.s).None? ==> r == Err(ValueError(v.s))
    ensures v.PyNone? || v.PyList? || v.PyDict? ==> r == Err(TypeError)
  {
    match v
    case PyFloat(f) => Ok(f)
    case PyInt(i) => Ok(i as real)
    case PyBool(b) => Ok(if b then 1.0 else 0.0)
    case PyStr(s) => (match ParseFloatText(s) case Some(x) => Ok(x) case None => Err(ValueError(s)))
    case _ => Err(TypeError)
  }

  /** A location or user type that is not a string matches no table key and
      is not "household", exactly as the empty string does. */
  function KeyText(v: PyValue): string {
    if v.PyStr? then v.s else ""
  }

  /** The daily energy is present and `float()` accepts it. */
  ghost predicate DailyParses(userData: map<string, PyValue>) {
    "daily_energy" in userData && PyFloatOf(userData["daily_energy"]).Ok?
  }

  /** A request the wrapper answers with a quote: all three keys present, a
      daily energy `float()` accepts and that is not zero, and a location
      that can be looked up in the tables. */
  ghost predicate Answerable(userData: map<string, PyValue>) {
    && DailyParses(userData) && PyFloatOf(userData["daily_energy"]).value != 0.0
    && "location" in userData && "user_type" in userData
    && Hashable(userData["location"])
  }

  /** `get_system_recommendations`: a one-day backup with lithium-ion
      batteries for the posted daily energy, location and user type, with
      every exception returned as an error, in the order Python meets them. */
  function GetSystemRecommendations(userData: map<string, PyValue>): (r: Result<SystemCost>)
    ensures r.Ok? <==> Answerable(userData)
    ensures r.Ok? ==>
      QuoteHolds(r.value, PyFloatOf(userData["daily_energy"]).value, KeyText(userData["location"]), 1.0,
                 KeyText(userData["user_type"]), "lithium-ion")
    ensures "daily_energy" !in userData ==> r == Err(KeyError("daily_energy"))
    ensures "daily_energy" in userData && PyFloatOf(userData["daily_energy"]).Err? ==>
      r == Err(PyFloatOf(userData["daily_energy"]).error)
    ensures DailyParses(userData) && "location" !in userData ==> r == Err(KeyError("location"))
    ensures DailyParses(userData) && "location" in userData && "user_type" !in userData ==>
      r == Err(KeyError("user_type"))
    ensures DailyParses(userData) && "location" in userData && "user_type" in userData ==>
      (!Hashable(userData["location"]) ==> r == Err(TypeError))
    ensures DailyParses(userData) && "location" in userData && "user_type" in userData ==>
      (Hashable(userData["location"]) && PyFloatOf(userData["daily_energy"]).value == 0.0 ==> r == Err(ZeroDivisionError))
  {
    var backupDays := 1.0;
    if "daily_energy" !in userData then Err(KeyError("daily_energy"))
    else
      var daily := PyFloatOf(userData["daily_energy"]);
      if daily.Err? then Err(daily.error)
      else if "location" !in userData then Err(KeyError("location"))
      else if "user_type" !in userData then Err(KeyError("user_type"))
      else if !Hashable(userData["location"]) then Err(TypeError)
      else
        CalculateSystemCost(daily.value, KeyText(userData["location"]), backupDays,
                            KeyText(userData["user_type"]), "lithium-ion")
  }

  /** A request for zero daily energy comes back as the division by zero
      of the payback period. */
  lemma ZeroEnergyRequestFails()
    ensures GetSystemRecommendations(map["daily_energy" := PyStr("0"), "location" := PyStr("Lagos"),
                                         "user_type" := PyStr("household")]) == Err(ZeroDivisionError)
  {
    assert ParseFloatText("0") == Some(0.0) by {
      assert StripSpaces("0") == "0";
      assert AllDigits("0");
      assert DigitsValue("0") == 0;
    }
  }

  /** A daily energy that is not a number comes back as the ValueError of
      `float()`. */
  lemma NonNumericEnergyRequestFails()
    ensures GetSystemRecommendations(map["daily_energy" := PyStr("abc"), "location" := PyStr("Lagos"),
                                         "user_type" := PyStr("household")]) == Err(ValueError("abc"))
  {
    assert ParseFloatText("abc") == None by {
      assert StripSpaces("abc") == "abc";
      assert !AllDigits("abc");
    }
  }
}
