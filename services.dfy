/**
 * The backend's business logic (CarbMine/backend/app/services.py): the
 * IPCC-style estimate, the Indian regional factor lookup and emission bands,
 * the legacy per-activity calculator and neutralisation chain, the
 * recommendation fallback ranking and the heuristic year-by-year forecast.
 */
module Services {
  import opened Wrappers
  import opened Text
  import opened Numbers
  import opened Sorting

  // ---------------------------------------------------------------- estimate

  /** India's grid emission factor, tCO2 per MWh. */
  const INDIAN_GRID_FACTOR: real := 0.82

  /** Production (t) x factor (kg CO2/t) / 1000, plus electricity, methane and other gases, in tCO2e. */
  function EstimateIpcc(production: real, energy: real, factor: real, methane: real, other: real): (total: real)
    ensures 0.0 <= production && 0.0 <= energy && 0.0 <= factor && 0.0 <= methane && 0.0 <= other
            ==> total >= 0.0
    ensures production == 0.0 && energy == 0.0 ==> total == methane + other
  {
    production * factor / 1000.0 + energy * INDIAN_GRID_FACTOR + methane + other
  }

  /** The estimate grows with each quantity when the factor is non-negative. */
  lemma EstimateIpccMonotone(production: real, energy: real, factor: real, methane: real, other: real,
                             production': real, energy': real, methane': real, other': real)
    requires 0.0 <= factor
    requires production <= production' && energy <= energy' && methane <= methane' && other <= other'
    ensures EstimateIpcc(production, energy, factor, methane, other)
         <= EstimateIpcc(production', energy', factor, methane', other')
  {
    assert production * factor <= production' * factor;
  }

  /** The estimate is the sum of its production share and its electricity share, plus the two gases. */
  lemma EstimateIpccSplits(production: real, energy: real, factor: real, methane: real, other: real)
    ensures EstimateIpcc(production, energy, factor, methane, other)
         == EstimateIpcc(production, 0.0, factor, 0.0, 0.0) + EstimateIpcc(0.0, energy, factor, 0.0, 0.0)
            + methane + other
  {
  }

  // ------------------------------------------------------- regional factor

  /** kg CO2 per tonne of coal for the Indian mining regions, keyed by lower-case name. */
  const REGIONAL_FACTORS: map<string, real> :=
    map["jharkhand" := 2000.0, "chhattisgarh" := 1950.0, "odisha" := 2100.0,
        "west_bengal" := 2050.0, "default" := 2000.0]

  /** `get_indian_regional_emission_factor`: a missing or empty region, or an unknown one, falls back to "default". */
  function RegionalFactor(region: Option<string>): (factor: real)
    ensures factor in REGIONAL_FACTORS.Values && 1950.0 <= factor <= 2100.0
    ensures region.None? || region == Some("") ==> factor == 2000.0
  {
    if region.Some? && region.value != "" && Lower(region.value) in REGIONAL_FACTORS
    then REGIONAL_FACTORS[Lower(region.value)]
    else REGIONAL_FACTORS["default"]
  }

  /** Names that differ only in letter case get the same factor. */
  lemma RegionalFactorIgnoresCase(a: string, b: string)
    requires Lower(a) == Lower(b)
    ensures RegionalFactor(Some(a)) == RegionalFactor(Some(b))
  {
    if a == "" {
      assert |b| == 0;
    }
    if b == "" {
      assert |a| == 0;
    }
  }

  /** A region outside the table gets the default 2000 kg CO2/t. */
  lemma RegionalFactorUnknown(region: string)
    requires Lower(region) !in REGIONAL_FACTORS
    ensures RegionalFactor(Some(region)) == 2000.0
  {
  }

  /** A region that lower-cases to one of the four named ones gets that region's factor. */
  lemma RegionalFactorNamed(region: string)
    requires Lower(region) in {"jharkhand", "chhattisgarh", "odisha", "west_bengal"}
    ensures RegionalFactor(Some(region)) == REGIONAL_FACTORS[Lower(region)]
  {
    assert region != "";
  }

  // ----------------------------------------------------------- emission band

  /** The Indian coal-mining emission scale. */
  datatype Level = Low | Medium | High

  /** The string `classify_indian_emission_level` returns. */
  function LevelName(level: Level): string {
    match level
    case Low => "low"
    case Medium => "medium"
    case High => "high"
  }

  /** `classify_indian_emission_level`: high from 500 000 tCO2e, medium from 50 000, low below. */
  function Classify(value: real): (level: Level)
    ensures level == High <==> value >= 500000.0
    ensures level == Medium <==> 50000.0 <= value < 500000.0
    ensures level == Low <==> value < 50000.0
  {
    if value >= 500000.0 then High else if value >= 50000.0 then Medium else Low
  }

  function LevelRank(level: Level): nat {
    match level
    case Low => 0
    case Medium => 1
    case High => 2
  }

  /** More emissions never give a lower band. */
  lemma ClassifyMonotone(v: real, w: real)
    requires v <= w
    ensures LevelRank(Classify(v)) <= LevelRank(Classify(w))
  {
  }

  // ------------------------------------------------------- legacy calculator

  const EXCAVATION_FACTOR: real := 94.6
  const TRANSPORTATION_FACTOR: real := 74.1
  const EQUIPMENT_FACTOR: real := 73.3
  const COAL_CO2_EMISSION_FACTOR_TON_PER_TON: real := 2.2
  const CREDIT_PRICE: real := 42.0

  /** kg CO2 per unit of fuel, keyed by the `fuelType` the form sends. */
  const FUEL_FACTORS: map<string, real> :=
    map["coal" := 2.42, "oil" := 3.17, "naturalGas" := 2.75, "biomass" := 0.0]

  /** A JSON request body as the Python handler receives it. */
  type Payload = map<string, Json>

  /** `payload.get(key, default)`. */
  function Get(payload: Payload, key: string, default: Json): (v: Json)
    ensures key in payload ==> v == payload[key]
    ensures key !in payload ==> v == default
  {
    if key in payload then payload[key] else default
  }

  type AtLeastOneInt = n: int | n >= 1 witness 1
  type AtLeastOneReal = x: real | x >= 1.0 witness 1.0

  /** The legacy inputs after conversion; workers and output are already clamped to at least 1. */
  datatype LegacyInputs = LegacyInputs(
    excavation: real, transportation: real, fuel: real, equipment: real,
    workers: AtLeastOneInt, output: AtLeastOneReal, fuelType: Json, reduced: real)

  /** Reads the legacy payload in the order the handler converts it; the first conversion that raises is reported. */
  function ReadLegacyPayload(payload: Payload): (r: Result<LegacyInputs, string>)
    ensures r.Success? ==>
      && PyFloat(Get(payload, "excavation", JNum(0.0))) == Success(r.value.excavation)
      && PyFloat(Get(payload, "transportation", JNum(0.0))) == Success(r.value.transportation)
      && PyFloat(Get(payload, "fuel", JNum(0.0))) == Success(r.value.fuel)
      && PyFloat(Get(payload, "equipment", JNum(0.0))) == Success(r.value.equipment)
      && PyFloat(Get(payload, "reduction", JNum(0.0))) == Success(r.value.reduced)
      && r.value.fuelType == Get(payload, "fuelType", JStr("coal"))
    ensures r.Success? <==>
      && PyFloat(Get(payload, "excavation", JNum(0.0))).Success?
      && PyFloat(Get(payload, "transportation", JNum(0.0))).Success?
      && PyFloat(Get(payload, "fuel", JNum(0.0))).Success?
      && PyFloat(Get(payload, "equipment", JNum(0.0))).Success?
      && PyInt(Get(payload, "workers", JNum(1.0))).Success?
      && PyFloat(Get(payload, "output", JNum(1.0))).Success?
      && PyFloat(Get(payload, "reduction", JNum(0.0))).Success?
    ensures r.Success? ==>
      var workers := PyInt(Get(payload, "workers", JNum(1.0))).value;
      var output := PyFloat(Get(payload, "output", JNum(1.0))).value;
      && r.value.workers == (if workers >= 1 then workers else 1)
      && r.value.output == (if output >= 1.0 then output else 1.0)
  {
    var excavation := PyFloat(Get(payload, "excavation", JNum(0.0)));
    var transportation := PyFloat(Get(payload, "transportation", JNum(0.0)));
    var fuel := PyFloat(Get(payload, "fuel", JNum(0.0)));
    var equipment := PyFloat(Get(payload, "equipment", JNum(0.0)));
    var workers := PyInt(Get(payload, "workers", JNum(1.0)));
    var output := PyFloat(Get(payload, "output", JNum(1.0)));
    var reduced := PyFloat(Get(payload, "reduction", JNum(0.0)));
    if excavation.Failure? then Failure(excavation.error)
    else if transportation.Failure? then Failure(transportation.error)
    else if fuel.Failure? then Failure(fuel.error)
    else if equipment.Failure? then Failure(equipment.error)
    else if workers.Failure? then Failure(workers.error)
    else if output.Failure? then Failure(output.error)
    else if reduced.Failure? then Failure(reduced.error)
    else
      var w: AtLeastOneInt := if workers.value >= 1 then workers.value else 1;
      var o: AtLeastOneReal := if output.value >= 1.0 then output.value else 1.0;
      Success(LegacyInputs(excavation.value, transportation.value, fuel.value, equipment.value,
                           w, o, Get(payload, "fuelType", JStr("coal")), reduced.value))
  }

  /** The clamps: at least one worker and one unit of output, so the divisions are defined. */
  lemma ReadLegacyPayloadClamps(payload: Payload)
    requires ReadLegacyPayload(payload).Success?
    ensures ReadLegacyPayload(payload).value.workers >= 1
    ensures ReadLegacyPayload(payload).value.output >= 1.0
    ensures PyInt(Get(payload, "workers", JNum(1.0))).value >= 1 ==>
              ReadLegacyPayload(payload).value.workers == PyInt(Get(payload, "workers", JNum(1.0))).value
    ensures PyFloat(Get(payload, "output", JNum(1.0))).value >= 1.0 ==>
              ReadLegacyPayload(payload).value.output == PyFloat(Get(payload, "output", JNum(1.0))).value
  {
  }

  /**
   * `EMISSION_FACTORS.get(fueltype, 2.2)`: a known fuel name gets its factor, any
   * other hashable value 2.2; an array or object cannot be a key and raises.
   */
  function FuelFactor(fuelType: Json): (r: Result<real, string>)
    ensures fuelType.JStr? && fuelType.s in FUEL_FACTORS ==> r == Success(FUEL_FACTORS[fuelType.s])
    ensures fuelType.JStr? && fuelType.s !in FUEL_FACTORS ==> r == Success(COAL_CO2_EMISSION_FACTOR_TON_PER_TON)
    ensures r.Failure? <==> fuelType.JOther?
  {
    match fuelType
    case JStr(s) => Success(if s in FUEL_FACTORS then FUEL_FACTORS[s] else COAL_CO2_EMISSION_FACTOR_TON_PER_TON)
    case JOther => Failure("unhashable type")
    case _ => Success(COAL_CO2_EMISSION_FACTOR_TON_PER_TON)
  }

  /** The response of `/calculate`. */
  datatype LegacyReport = LegacyReport(
    totalEmissions: real,
    excavationEmissions: real, transportationEmissions: real, equipmentEmissions: real,
    excavationPerCapita: real, transportationPerCapita: real, equipmentPerCapita: real,
    excavationPerOutput: real, transportationPerOutput: real, equipmentPerOutput: real,
    perCapitaEmissions: real, perOutputEmissions: real,
    baseline: real, carboncredits: real, reduced: real, worth: real, total: real)

  /** The arithmetic of `legacy_calculate_emissions` once the inputs are read and the fuel factor is known. */
  function LegacyFigures(inputs: LegacyInputs, fuelFactor: real): (r: LegacyReport)
    ensures r.excavationEmissions == inputs.excavation * EXCAVATION_FACTOR
    ensures r.transportationEmissions == inputs.transportation * TRANSPORTATION_FACTOR * 0.5
    ensures r.equipmentEmissions == inputs.equipment * EQUIPMENT_FACTOR
    ensures r.excavationPerCapita == r.excavationEmissions / inputs.workers as real
    ensures r.transportationPerCapita == r.transportationEmissions / inputs.workers as real
    ensures r.equipmentPerCapita == r.equipmentEmissions / inputs.workers as real
    ensures r.excavationPerOutput == r.excavationEmissions / inputs.output
    ensures r.transportationPerOutput == r.transportationEmissions / inputs.output
    ensures r.equipmentPerOutput == r.equipmentEmissions / inputs.output
    ensures r.totalEmissions == r.excavationEmissions + r.transportationEmissions + r.equipmentEmissions
    ensures r.perCapitaEmissions == r.excavationPerCapita + r.transportationPerCapita + r.equipmentPerCapita
    ensures r.perOutputEmissions == r.excavationPerOutput + r.transportationPerOutput + r.equipmentPerOutput
    ensures r.perCapitaEmissions * inputs.workers as real == r.totalEmissions
    ensures r.perOutputEmissions * inputs.output == r.totalEmissions
    ensures r.baseline == r.total == inputs.output * COAL_CO2_EMISSION_FACTOR_TON_PER_TON + inputs.fuel * fuelFactor
    ensures r.carboncredits == r.baseline - inputs.reduced && r.reduced == inputs.reduced
    ensures r.worth == r.carboncredits * CREDIT_PRICE
    ensures 0.0 <= inputs.excavation && 0.0 <= inputs.transportation && 0.0 <= inputs.equipment ==>
              0.0 <= r.perCapitaEmissions <= r.totalEmissions && 0.0 <= r.perOutputEmissions <= r.totalEmissions
  {
    var workers := inputs.workers as real;
    var output := inputs.output;
    var excavationEmissions := inputs.excavation * EXCAVATION_FACTOR;
    var transportationEmissions := inputs.transportation * TRANSPORTATION_FACTOR * 0.5;
    var equipmentEmissions := inputs.equipment * EQUIPMENT_FACTOR;
    var totalEmissions := excavationEmissions + transportationEmissions + equipmentEmissions;
    var baseline := output * COAL_CO2_EMISSION_FACTOR_TON_PER_TON + inputs.fuel * fuelFactor;
    var carboncredits := baseline - inputs.reduced;
    DivisionSplits(excavationEmissions, transportationEmissions, equipmentEmissions, workers);
    DivisionSplits(excavationEmissions, transportationEmissions, equipmentEmissions, output);
    ShareAtMostWhole(totalEmissions, workers);
    ShareAtMostWhole(totalEmissions, output);
    LegacyReport(
      totalEmissions,
      excavationEmissions, transportationEmissions, equipmentEmissions,
      excavationEmissions / workers, transportationEmissions / workers, equipmentEmissions / workers,
      excavationEmissions / output, transportationEmissions / output, equipmentEmissions / output,
      totalEmissions / workers, totalEmissions / output,
      baseline, carboncredits, inputs.reduced, carboncredits * CREDIT_PRICE, baseline)
  }

  lemma DivisionSplits(a: real, b: real, c: real, d: real)
    requires d != 0.0
    ensures (a + b + c) / d == a / d + b / d + c / d
    ensures ((a + b + c) / d) * d == a + b + c
  {
  }

  lemma ShareAtMostWhole(x: real, d: real)
    requires d >= 1.0
    ensures x >= 0.0 ==> 0.0 <= x / d <= x
  {
    if x >= 0.0 {
      assert x / d * d == x;
      assert x / d <= x / d * d;
    }
  }

  /** `legacy_calculate_emissions`: a conversion that raises surfaces as the handler's error. */
  function LegacyCalculate(payload: Payload): (r: Result<LegacyReport, string>)
    ensures r.Success? <==> ReadLegacyPayload(payload).Success? && FuelFactor(ReadLegacyPayload(payload).value.fuelType).Success?
    ensures r.Success? ==> r.value == LegacyFigures(ReadLegacyPayload(payload).value,
                                                    FuelFactor(ReadLegacyPayload(payload).value.fuelType).value)
  {
    match ReadLegacyPayload(payload)
    case Failure(e) => Failure(e)
    case Success(inputs) =>
      match FuelFactor(inputs.fuelType)
      case Failure(e) => Failure(e)
      case Success(f) => Success(LegacyFigures(inputs, f))
  }

  // ---------------------------------------------------------- neutralisation

  const EV_CONSTANT: real := 0.20
  const GREEN_FUEL_CONSTANT: real := 0.50
  const SEQUESTRATION_RATE: real := 2.2
  const ELECTRICITY_REDUCTION_RATE: real := 0.3

  /** The neutralisation inputs; the three percentages are still in percent. */
  datatype NeutraliseInputs = NeutraliseInputs(
    emissions: real, transportation: real, fuel: real,
    greenFuelPercentage: real, neutralisePercentage: real, evTransportationPercentage: real)

  function ReadNeutralisePayload(payload: Payload): (r: Result<NeutraliseInputs, string>)
    ensures r.Success? <==>
      && PyFloat(Get(payload, "emissions", JNum(0.0))).Success?
      && PyFloat(Get(payload, "transportation", JNum(0.0))).Success?
      && PyFloat(Get(payload, "fuel", JNum(0.0))).Success?
      && PyFloat(Get(payload, "green_fuel_percentage", JNum(0.0))).Success?
      && PyFloat(Get(payload, "neutralise_percentage", JNum(0.0))).Success?
      && PyFloat(Get(payload, "ev_transportation_percentage", JNum(0.0))).Success?
    ensures r.Success? ==>
      && Success(r.value.emissions) == PyFloat(Get(payload, "emissions", JNum(0.0)))
      && Success(r.value.transportation) == PyFloat(Get(payload, "transportation", JNum(0.0)))
      && Success(r.value.fuel) == PyFloat(Get(payload, "fuel", JNum(0.0)))
      && Success(r.value.greenFuelPercentage) == PyFloat(Get(payload, "green_fuel_percentage", JNum(0.0)))
      && Success(r.value.neutralisePercentage) == PyFloat(Get(payload, "neutralise_percentage", JNum(0.0)))
      && Success(r.value.evTransportationPercentage)
         == PyFloat(Get(payload, "ev_transportation_percentage", JNum(0.0)))
  {
    var emissions := PyFloat(Get(payload, "emissions", JNum(0.0)));
    var transportation := PyFloat(Get(payload, "transportation", JNum(0.0)));
    var fuel := PyFloat(Get(payload, "fuel", JNum(0.0)));
    var green := PyFloat(Get(payload, "green_fuel_percentage", JNum(0.0)));
    var neutralise := PyFloat(Get(payload, "neutralise_percentage", JNum(0.0)));
    var ev := PyFloat(Get(payload, "ev_transportation_percentage", JNum(0.0)));
    if emissions.Failure? then Failure(emissions.error)
    else if transportation.Failure? then Failure(transportation.error)
    else if fuel.Failure? then Failure(fuel.error)
    else if green.Failure? then Failure(green.error)
    else if neutralise.Failure? then Failure(neutralise.error)
    else if ev.Failure? then Failure(ev.error)
    else Success(NeutraliseInputs(emissions.value, transportation.value, fuel.value,
                                  green.value, neutralise.value, ev.value))
  }

  /** The response of `/neutralise` (without its constant message). */
  datatype NeutralisationReport = NeutralisationReport(
    emissions: real, emissionsToBeNeutralised: real,
    transportationFootprintReduction: real, fuelFootprintReduction: real,
    remainingFootprintAfterReduction: real, landRequiredHectares: real,
    electricitySavingsMwh: real, overallRemainingFootprint: real)

  /** The chain of `legacy_neutralise`: adoption percentages applied to the emissions, transport and fuel. */
  function NeutraliseFigures(inputs: NeutraliseInputs): (r: NeutralisationReport)
    ensures r.emissions == inputs.emissions
    ensures r.emissionsToBeNeutralised == inputs.emissions * (inputs.neutralisePercentage / 100.0)
    ensures r.transportationFootprintReduction
         == inputs.transportation * EV_CONSTANT * (inputs.evTransportationPercentage / 100.0)
    ensures r.fuelFootprintReduction == inputs.fuel * GREEN_FUEL_CONSTANT * (inputs.greenFuelPercentage / 100.0)
    ensures r.emissionsToBeNeutralised + r.overallRemainingFootprint == inputs.emissions
    ensures r.remainingFootprintAfterReduction
         == r.emissionsToBeNeutralised - (r.transportationFootprintReduction + r.fuelFootprintReduction)
    ensures r.landRequiredHectares * SEQUESTRATION_RATE == r.remainingFootprintAfterReduction
    ensures r.electricitySavingsMwh == r.emissionsToBeNeutralised * ELECTRICITY_REDUCTION_RATE
  {
    var green := inputs.greenFuelPercentage / 100.0;
    var neutralise := inputs.neutralisePercentage / 100.0;
    var ev := inputs.evTransportationPercentage / 100.0;
    var toNeutralise := inputs.emissions * neutralise;
    var transportReduction := inputs.transportation * EV_CONSTANT * ev;
    var fuelReduction := inputs.fuel * GREEN_FUEL_CONSTANT * green;
    var remaining := toNeutralise - (transportReduction + fuelReduction);
    NeutralisationReport(
      inputs.emissions, toNeutralise, transportReduction, fuelReduction, remaining,
      remaining / SEQUESTRATION_RATE, toNeutralise * ELECTRICITY_REDUCTION_RATE,
      inputs.emissions - toNeutralise)
  }

  /** With a percentage in [0, 100] and non-negative emissions, the share to neutralise is a part of the emissions. */
  lemma NeutraliseBounds(inputs: NeutraliseInputs)
    requires 0.0 <= inputs.emissions
    requires 0.0 <= inputs.neutralisePercentage <= 100.0
    ensures 0.0 <= NeutraliseFigures(inputs).emissionsToBeNeutralised <= inputs.emissions
    ensures 0.0 <= NeutraliseFigures(inputs).overallRemainingFootprint <= inputs.emissions
  {
    var p := inputs.neutralisePercentage / 100.0;
    assert 0.0 <= p <= 1.0;
    var share := inputs.emissions * p;
    assert 0.0 <= share by { assert 0.0 * p <= inputs.emissions * p; }
    assert share <= inputs.emissions * 1.0;
    assert NeutraliseFigures(inputs).emissionsToBeNeutralised == share;
  }

  /** `legacy_neutralise` on a request body. */
  function LegacyNeutralise(payload: Payload): (r: Result<NeutralisationReport, string>)
    ensures r.Success? <==> ReadNeutralisePayload(payload).Success?
    ensures r.Success? ==> r.value == NeutraliseFigures(ReadNeutralisePayload(payload).value)
  {
    match ReadNeutralisePayload(payload)
    case Failure(e) => Failure(e)
    case Success(inputs) => Success(NeutraliseFigures(inputs))
  }

  // ---------------------------------------------------------- recommendations

  /** A strategy row as loaded from the strategies table; an empty sector cell is no sector. */
  datatype Strategy = Strategy(
    strategy: string, category: string, impactLevel: string,
    estimatedReduction: real, description: string, sector: Option<string>)

  /** A recommendation as the API returns it. */
  datatype Recommendation = Recommendation(
    strategy: string, category: string, impactLevel: string,
    estimatedReduction: real, description: string, sector: string, region: Option<string>)

  /** Category words that earn the +3 band bonus in the fallback ranking. */
  function FallbackKeywords(level: Level): seq<string> {
    match level
    case High => ["renewable", "efficiency", "offset"]
    case Medium => ["efficiency", "renewable"]
    case Low => ["policy", "behavior", "offset", "maintenance"]
  }

  /** +3 when the lower-cased category contains one of the band's words. */
  function BandBonus(category: string, keywords: seq<string>): (b: real)
    ensures b == 3.0 <==> exists w :: w in keywords && Contains(Lower(category), w)
    ensures b == 0.0 || b == 3.0
  {
    if ContainsAny(Lower(category), keywords) then 3.0 else 0.0
  }

  /** +2 for a "high" impact, +1 for "medium"; an empty impact counts as "Medium"; case is ignored. */
  function ImpactBonus(impactLevel: string): (b: real)
    ensures impactLevel == "" ==> b == 1.0
    ensures impactLevel != "" ==> (b == 2.0 <==> Lower(impactLevel) == "high")
    ensures impactLevel != "" ==> (b == 1.0 <==> Lower(impactLevel) == "medium")
    ensures b == 0.0 || b == 1.0 || b == 2.0
  {
    var impact := Lower(if impactLevel == "" then "Medium" else impactLevel);
    if impact == "high" then 2.0 else if impact == "medium" then 1.0 else 0.0
  }

  /** +0.5 when the row names a sector that occurs, ignoring case, inside the requested sector. */
  function SectorBonus(rowSector: Option<string>, sector: string): (b: real)
    ensures b == 0.5 <==> rowSector.Some? && rowSector.value != "" && Contains(Lower(sector), Lower(rowSector.value))
    ensures b == 0.0 || b == 0.5
  {
    var r := Lower(rowSector.GetOr(""));
    if r != "" && Contains(Lower(sector), r) then 0.5 else 0.0
  }

  /** The score of a row against a band's keyword list. */
  function ScoreWith(row: Strategy, keywords: seq<string>, sector: string): (score: real)
    ensures 0.0 <= score <= 5.5
  {
    BandBonus(row.category, keywords) + ImpactBonus(row.impactLevel) + SectorBonus(row.sector, sector)
  }

  /** The fallback ranking's `score`, for the band of `emissionValue`. */
  function FallbackScore(row: Strategy, sector: string, emissionValue: real): (score: real)
    ensures 0.0 <= score <= 5.5
    ensures score >= 3.0 <==> BandBonus(row.category, FallbackKeywords(Classify(emissionValue))) == 3.0
  {
    ScoreWith(row, FallbackKeywords(Classify(emissionValue)), sector)
  }

  /**
   * An estimate of at most 1 is a fraction of the emissions, a larger one an
   * absolute tonnage; the result is never negative.
   */
  function CalibratedReduction(estimate: real, emissionValue: real): (r: real)
    ensures r >= 0.0
    ensures estimate > 1.0 ==> r == estimate
    ensures estimate <= 1.0 && estimate * emissionValue >= 0.0 ==> r == estimate * emissionValue
    ensures estimate <= 1.0 && estimate * emissionValue < 0.0 ==> r == 0.0
  {
    var estimated := if estimate <= 1.0 then estimate * emissionValue else estimate;
    if estimated >= 0.0 then estimated else 0.0
  }

  /** A fractional estimate of non-negative emissions never exceeds the emissions. */
  lemma CalibratedFractionBounded(estimate: real, emissionValue: real)
    requires 0.0 <= estimate <= 1.0 && 0.0 <= emissionValue
    ensures CalibratedReduction(estimate, emissionValue) <= emissionValue
  {
    assert estimate * emissionValue <= 1.0 * emissionValue;
  }

  /** The output record for a ranked row: calibrated estimate, and the request's sector and region. */
  function ToRecommendation(row: Strategy, sector: string, emissionValue: real, region: Option<string>): (r: Recommendation)
    ensures r.strategy == row.strategy && r.category == row.category && r.impactLevel == row.impactLevel
    ensures r.description == row.description && r.sector == sector && r.region == region
    ensures r.estimatedReduction == CalibratedReduction(row.estimatedReduction, emissionValue)
  {
    Recommendation(row.strategy, row.category, row.impactLevel,
                   CalibratedReduction(row.estimatedReduction, emissionValue),
                   row.description, sector, region)
  }

  /** The three rows used when the strategies table is missing or empty; their estimates are already tonnages. */
  function DefaultStrategies(emissionValue: real): seq<Strategy> {
    [ Strategy("Solar Power Integration", "Renewable Energy", "High", 0.2 * emissionValue,
               "Install on-site or PPA-based solar to reduce grid emissions.", None),
      Strategy("Energy Efficiency Audits", "Energy Efficiency", "Medium", 0.1 * emissionValue,
               "Conduct audits and retrofit motors, VFDs, and lighting.", None),
      Strategy("Carbon Offsetting via Forestry", "Offset Projects", "Medium", 0.15 * emissionValue,
               "Invest in verified afforestation projects to balance residual emissions.", None) ]
  }

  function StaticRows(tableRows: seq<Strategy>, emissionValue: real): (rows: seq<Strategy>)
    ensures tableRows != [] ==> rows == tableRows
    ensures tableRows == [] ==> rows == DefaultStrategies(emissionValue) && |rows| == 3
    ensures |rows| > 0
  {
    if tableRows == [] then DefaultStrategies(emissionValue) else tableRows
  }

  /** `sorted(static_rows, key=score, reverse=True)`. */
  function RankFallback(rows: seq<Strategy>, sector: string, emissionValue: real): (ranked: seq<Strategy>)
    ensures |ranked| == |rows| && multiset(ranked) == multiset(rows)
  {
    SortByKey(rows, row => FallbackScore(row, sector, emissionValue), true)
  }

  /** The ranking is a reordering of the rows, best score first, and keeps the table order among equal scores. */
  lemma RankFallbackProperties(rows: seq<Strategy>, sector: string, emissionValue: real, score: real)
    ensures multiset(RankFallback(rows, sector, emissionValue)) == multiset(rows)
    ensures forall i, j :: 0 <= i < j < |rows| ==>
      FallbackScore(RankFallback(rows, sector, emissionValue)[i], sector, emissionValue)
        >= FallbackScore(RankFallback(rows, sector, emissionValue)[j], sector, emissionValue)
    ensures WithKey(RankFallback(rows, sector, emissionValue), row => FallbackScore(row, sector, emissionValue), score)
         == WithKey(rows, row => FallbackScore(row, sector, emissionValue), score)
  {
    var key := row => FallbackScore(row, sector, emissionValue);
    SortByKeySorted(rows, key, true);
    SortByKeyStable(rows, key, true, score);
  }

  /**
   * The default rows already hold tonnages (a share of the emissions), yet the
   * calibration treats any estimate of at most 1 as a fraction: for emissions of
   * at most 5 t the solar row is scaled twice, to 0.2 x emissions squared.
   */
  lemma DefaultRowsScaledTwice(emissionValue: real)
    requires 0.0 <= emissionValue <= 5.0
    ensures CalibratedReduction(DefaultStrategies(emissionValue)[0].estimatedReduction, emissionValue)
         == 0.2 * emissionValue * emissionValue
  {
  }

  /** The first ten rows of a ranking turned into recommendations, in ranking order. */
  function TopTen(ranked: seq<Strategy>, sector: string, emissionValue: real, region: Option<string>)
    : (r: seq<Recommendation>)
    ensures |r| == if |ranked| < 10 then |ranked| else 10
    ensures forall i :: 0 <= i < |r| ==> r[i] == ToRecommendation(ranked[i], sector, emissionValue, region)
  {
    seq(if |ranked| < 10 then |ranked| else 10, i requires 0 <= i < |ranked| && i < 10 =>
      ToRecommendation(ranked[i], sector, emissionValue, region))
  }

  /** The fallback output: the first ten rows of the fallback ranking. */
  function FallbackRecommendations(rows: seq<Strategy>, sector: string, emissionValue: real, region: Option<string>)
    : (r: seq<Recommendation>)
    ensures |r| == if |rows| < 10 then |rows| else 10
    ensures forall i :: 0 <= i < |r| ==>
              r[i] == ToRecommendation(RankFallback(rows, sector, emissionValue)[i], sector, emissionValue, region)
  {
    TopTen(RankFallback(rows, sector, emissionValue), sector, emissionValue, region)
  }

  /** The fallback output is never empty when there are rows, holds at most ten, and carries sector and region. */
  lemma FallbackRecommendationsShape(rows: seq<Strategy>, sector: string, emissionValue: real, region: Option<string>)
    requires |rows| > 0
    ensures var r := FallbackRecommendations(rows, sector, emissionValue, region);
      && 0 < |r| <= 10
      && forall i :: 0 <= i < |r| ==>
           r[i].sector == sector && r[i].region == region && r[i].estimatedReduction >= 0.0
  {
    assert |RankFallback(rows, sector, emissionValue)| == |rows|;
  }

  /** The model ranking's output, with the request's sector and region written over each record. */
  function Relabel(ranked: seq<Recommendation>, sector: string, region: Option<string>): (r: seq<Recommendation>)
    ensures |r| == |ranked|
    ensures forall i :: 0 <= i < |r| ==> r[i] == ranked[i].(sector := sector, region := region)
  {
    seq(|ranked|, i requires 0 <= i < |ranked| => ranked[i].(sector := sector, region := region))
  }

  /** The coercion loop over the learned recommender's rows. */
  method RelabelRanked(ranked: seq<Recommendation>, sector: string, region: Option<string>)
    returns (output: seq<Recommendation>)
    ensures output == Relabel(ranked, sector, region)
  {
    output := [];
    var i := 0;
    while i < |ranked|
      invariant 0 <= i <= |ranked|
      invariant output == Relabel(ranked[..i], sector, region)
    {
      output := output + [ranked[i].(sector := sector, region := region)];
      i := i + 1;
    }
    assert ranked[..i] == ranked;
  }

  /** The loop over `ranked[:10]` that calibrates each row and appends it to the output. */
  method CalibrateTopTen(ranked: seq<Strategy>, sector: string, emissionValue: real, region: Option<string>)
    returns (output: seq<Recommendation>)
    ensures output == TopTen(ranked, sector, emissionValue, region)
  {
    var n := if |ranked| < 10 then |ranked| else 10;
    output := [];
    var i := 0;
    while i < n
      invariant 0 <= i <= n
      invariant |output| == i
      invariant forall k :: 0 <= k < i ==> output[k] == ToRecommendation(ranked[k], sector, emissionValue, region)
    {
      output := output + [ToRecommendation(ranked[i], sector, emissionValue, region)];
      i := i + 1;
    }
  }

  /**
   * What `generate_recommendations` returns: `mlRanked` is the learned
   * recommender's answer (None when it could not be loaded or raised); an
   * empty answer falls back to the static ranking of `tableRows`, or of the
   * three default rows when the table is empty.
   */
  function Recommendations(sector: string, emissionValue: real, region: Option<string>,
                           mlRanked: Option<seq<Recommendation>>, tableRows: seq<Strategy>)
    : (r: seq<Recommendation>)
    ensures mlRanked.Some? && mlRanked.value != [] ==> r == Relabel(mlRanked.value, sector, region)
    ensures !(mlRanked.Some? && mlRanked.value != []) ==>
              r == FallbackRecommendations(StaticRows(tableRows, emissionValue), sector, emissionValue, region)
    ensures forall i :: 0 <= i < |r| ==> r[i].sector == sector && r[i].region == region
    ensures !(mlRanked.Some? && mlRanked.value != []) ==>
              0 < |r| <= 10 && forall i :: 0 <= i < |r| ==> r[i].estimatedReduction >= 0.0
  {
    if mlRanked.Some? && mlRanked.value != [] then Relabel(mlRanked.value, sector, region)
    else
      FallbackRecommendationsShape(StaticRows(tableRows, emissionValue), sector, emissionValue, region);
      FallbackRecommendations(StaticRows(tableRows, emissionValue), sector, emissionValue, region)
  }

  /** `generate_recommendations`: the coercion loop on the learned answer, else the calibration loop on the fallback. */
  method GenerateRecommendations(sector: string, emissionValue: real, region: Option<string>,
                                 mlRanked: Option<seq<Recommendation>>, tableRows: seq<Strategy>)
    returns (output: seq<Recommendation>)
    ensures output == Recommendations(sector, emissionValue, region, mlRanked, tableRows)
  {
    if mlRanked.Some? && mlRanked.value != [] {
      output := RelabelRanked(mlRanked.value, sector, region);
    } else {
      var staticRows := StaticRows(tableRows, emissionValue);
      output := CalibrateTopTen(RankFallback(staticRows, sector, emissionValue), sector, emissionValue, region);
    }
  }

  // --------------------------------------------------------- heuristic forecast

  /** The historical baseline the forecast starts from and its growth rates. */
  datatype Baseline = Baseline(
    production: real, energy: real, factor: real, methane: real, other: real,
    productionCagr: real, energyCagr: real)

  /** The baseline when no historical series can be read. */
  const DEFAULT_BASELINE: Baseline := Baseline(650000000.0, 800000.0, 2000.0, 10000.0, 6000.0, 0.0, 0.0)

  /** Floating-point exponentiation `x ** y`, left abstract. */
  type Power = (real, real) -> real

  const TINY: real := 0.000000001

  function AtLeastTiny(x: real): (r: real)
    ensures r >= TINY && (x >= TINY ==> r == x)
  {
    if x >= TINY then x else TINY
  }

  /**
   * The quantity in year `idx` of a horizon of `numYears`: with an override, the
   * geometric path from the baseline to the override; without, the baseline
   * compounded at its historical rate.
   */
  function Trajectory(base: real, target: Option<real>, cagr: real, numYears: int, idx: nat, pow: Power): (v: real)
    requires numYears >= 1
    ensures target.None? ==> v == base * pow(1.0 + cagr, idx as real)
    ensures target.Some? ==>
              v == AtLeastTiny(base) * pow(pow(AtLeastTiny(target.value) / AtLeastTiny(base), 1.0 / numYears as real), idx as real)
  {
    match target
    case Some(t) =>
      var b := AtLeastTiny(base);
      var g := pow(AtLeastTiny(t) / b, 1.0 / numYears as real) - 1.0;
      b * pow(1.0 + g, idx as real)
    case None => base * pow(1.0 + cagr, idx as real)
  }

  /** One year's total: production x factor / 1000, grid electricity at 0.8 tCO2/MWh, methane and other gases. */
  function YearTotal(production: real, energy: real, b: Baseline): (total: real)
    ensures production == 0.0 && energy == 0.0 ==> total == b.methane + b.other
  {
    production * b.factor / 1000.0 + energy * 0.8 + b.methane + b.other
  }

  /**
   * The forecast's yearly total is the IPCC estimate with the baseline's factor,
   * except that electricity is counted at 0.8 rather than the 0.82 grid factor:
   * it falls short by 0.02 tCO2 per MWh.
   */
  lemma YearTotalAgainstIpcc(production: real, energy: real, b: Baseline)
    ensures YearTotal(production, energy, b)
         == EstimateIpcc(production, energy, b.factor, b.methane, b.other) - 0.02 * energy
    ensures energy > 0.0 ==> YearTotal(production, energy, b) < EstimateIpcc(production, energy, b.factor, b.methane, b.other)
  {
  }

  datatype YearPrediction = YearPrediction(year: int, total: real)

  function Horizon(startYear: int, endYear: int): (n: int)
    ensures n >= 1 && (endYear > startYear ==> n == endYear - startYear)
  {
    if endYear - startYear >= 1 then endYear - startYear else 1
  }

  /** The prediction for the `idx`-th year of the range. */
  function PredictionAt(startYear: int, endYear: int, b: Baseline, production: Option<real>, energy: Option<real>,
                        idx: nat, pow: Power): (p: YearPrediction)
    ensures p.year == startYear + idx
    ensures p.total == YearTotal(Trajectory(b.production, production, b.productionCagr, Horizon(startYear, endYear), idx, pow),
                                 Trajectory(b.energy, energy, b.energyCagr, Horizon(startYear, endYear), idx, pow), b)
  {
    var n := Horizon(startYear, endYear);
    YearPrediction(startYear + idx,
      YearTotal(Trajectory(b.production, production, b.productionCagr, n, idx, pow),
                Trajectory(b.energy, energy, b.energyCagr, n, idx, pow), b))
  }

  /** Every year of `startYear..endYear` once, in order (none when the range is empty). */
  function HeuristicForecast(startYear: int, endYear: int, b: Baseline, production: Option<real>,
                             energy: Option<real>, pow: Power): (preds: seq<YearPrediction>)
    ensures |preds| == if endYear >= startYear then endYear - startYear + 1 else 0
    ensures forall i :: 0 <= i < |preds| ==> preds[i].year == startYear + i
  {
    seq(if endYear >= startYear then endYear - startYear + 1 else 0,
        i requires 0 <= i => PredictionAt(startYear, endYear, b, production, energy, i, pow))
  }

  /** `heuristic_predict_years`, one appended prediction per year. */
  method HeuristicPredictYears(startYear: int, endYear: int, b: Baseline, production: Option<real>,
                               energy: Option<real>, pow: Power)
    returns (preds: seq<YearPrediction>)
    ensures preds == HeuristicForecast(startYear, endYear, b, production, energy, pow)
    ensures endYear >= startYear ==>
              (|preds| == endYear - startYear + 1 && preds[0].year == startYear && preds[|preds| - 1].year == endYear)
  {
    preds := [];
    var year := startYear;
    while year <= endYear
      invariant startYear <= year || endYear < startYear
      invariant year <= endYear + 1 || endYear < startYear
      invariant year == startYear || startYear <= endYear
      invariant |preds| == year - startYear
      invariant forall i :: 0 <= i < |preds| ==>
        preds[i] == PredictionAt(startYear, endYear, b, production, energy, i, pow)
      decreases endYear + 1 - year
    {
      preds := preds + [PredictionAt(startYear, endYear, b, production, energy, year - startYear, pow)];
      year := year + 1;
    }
  }

  /**
   * With an exponentiation that satisfies x ** 0 == 1 and (r ** (1/n)) ** n == r
   * for the ratio r of override to baseline,
   * an overridden quantity starts at the (clamped) baseline and reaches the
   * (clamped) override in the last year of the horizon.
   */
  lemma TrajectoryEndpoints(base: real, target: real, cagr: real, numYears: int, pow: Power)
    requires numYears >= 1
    requires forall x: real :: pow(x, 0.0) == 1.0
    requires var ratio := AtLeastTiny(target) / AtLeastTiny(base);
             pow(pow(ratio, 1.0 / numYears as real), numYears as real) == ratio
    ensures Trajectory(base, Some(target), cagr, numYears, 0, pow) == AtLeastTiny(base)
    ensures Trajectory(base, Some(target), cagr, numYears, numYears, pow) == AtLeastTiny(target)
  {
    var b := AtLeastTiny(base);
    var ratio := AtLeastTiny(target) / b;
    var g := pow(ratio, 1.0 / numYears as real) - 1.0;
    assert 1.0 + g == pow(ratio, 1.0 / numYears as real);
    assert pow(1.0 + g, numYears as real) == ratio;
    assert b * ratio == AtLeastTiny(target);
  }

  /** Without overrides and with zero growth, every year repeats the baseline total. */
  lemma FlatForecast(startYear: int, endYear: int, b: Baseline, pow: Power, i: nat)
    requires b.productionCagr == 0.0 && b.energyCagr == 0.0
    requires forall y: real :: pow(1.0, y) == 1.0
    requires i < |HeuristicForecast(startYear, endYear, b, None, None, pow)|
    ensures HeuristicForecast(startYear, endYear, b, None, None, pow)[i].total
         == YearTotal(b.production, b.energy, b)
  {
    assert pow(1.0 + b.productionCagr, i as real) == 1.0;
  }
}
