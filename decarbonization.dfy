/**
 * The decarbonisation brief (CarbMine/frontend/src/components/DecarbonizationBrief.js):
 * which solution band the neutrality target selects, and the tonnes,
 * target reduction and in-operations coverage it shows.
 */
module Brief {
  import opened Wrappers
  import opened Numbers

  /** The part of the analysis results the brief reads; the total is in kilograms and may be absent. */
  datatype Results = Results(totalEmissions: Option<JsNum>)

  /** The four solution bands, by target: up to 25, up to 50, up to 75, above 75. */
  datatype Band = Efficiency | Renewables | CleanTech | DeepDecarbonisation

  datatype BriefFigures = BriefFigures(tonnes: real, band: Option<Band>, targetReduction: JsNum, coverage: JsNum)

  /** `results.totalEmissions || 0`. */
  function TotalOrZero(r: Results): (kg: real)
    ensures r.totalEmissions.None? ==> kg == 0.0
    ensures r.totalEmissions.Some? ==> kg == OrZero(r.totalEmissions.value)
  {
    match r.totalEmissions
    case None => 0.0
    case Some(x) => OrZero(x)
  }

  /** The band whose guard holds; every comparison with NaN is false, so NaN selects none. */
  function BandFor(target: JsNum): (b: Option<Band>)
    ensures b.None? <==> target.NaN?
    ensures b == Some(Efficiency) <==> target.Fin? && target.v <= 25.0
    ensures b == Some(Renewables) <==> target.Fin? && 25.0 < target.v <= 50.0
    ensures b == Some(CleanTech) <==> target.Fin? && 50.0 < target.v <= 75.0
    ensures b == Some(DeepDecarbonisation) <==> target.Fin? && 75.0 < target.v
  {
    match target
    case NaN => None
    case Fin(t) =>
      if t <= 25.0 then Some(Efficiency)
      else if t <= 50.0 then Some(Renewables)
      else if t <= 75.0 then Some(CleanTech)
      else Some(DeepDecarbonisation)
  }

  /** Ordering of the bands. */
  function BandRank(b: Band): nat {
    match b
    case Efficiency => 0
    case Renewables => 1
    case CleanTech => 2
    case DeepDecarbonisation => 3
  }

  /** A higher target never selects a lower band. */
  lemma BandMonotone(t: real, t': real)
    requires t <= t'
    ensures BandRank(BandFor(Fin(t)).value) <= BandRank(BandFor(Fin(t')).value)
  {
  }

  /** `Math.min(75, target)`; NaN stays NaN. */
  function Coverage(target: JsNum): (c: JsNum)
    ensures c.NaN? <==> target.NaN?
    ensures target.Fin? ==> c.v <= 75.0 && c.v <= target.v && (c.v == 75.0 || c.v == target.v)
  {
    match target
    case NaN => NaN
    case Fin(t) => Fin(if t < 75.0 then t else 75.0)
  }

  /** The brief's figures, or nothing when there are no results. */
  function DecarbonizationBrief(results: Option<Results>, target: JsNum): (brief: Option<BriefFigures>)
    ensures brief.None? <==> results.None?
    ensures brief.Some? ==> var kg := TotalOrZero(results.value);
      && brief.value.tonnes * 1000.0 == kg
      && brief.value.band == BandFor(target)
      && brief.value.coverage == Coverage(target)
      && (brief.value.targetReduction.NaN? <==> target.NaN?)
      && (target.Fin? ==> brief.value.targetReduction.v * 100000.0 == kg * target.v)
  {
    match results
    case None => None
    case Some(r) =>
      var tonnes := TotalOrZero(r) / 1000.0;
      var reduction := match target
        case NaN => NaN
        case Fin(t) => Fin(tonnes * (t / 100.0));
      Some(BriefFigures(tonnes, BandFor(target), reduction, Coverage(target)))
  }

  /** For a target between 0 and 100 and a non-negative total, the reduction lies between 0 and the whole tonnage. */
  lemma TargetReductionBounded(r: Results, t: real)
    requires 0.0 <= t <= 100.0 && TotalOrZero(r) >= 0.0
    ensures var b := DecarbonizationBrief(Some(r), Fin(t)).value;
      0.0 <= b.targetReduction.v <= b.tonnes
  {
    var b := DecarbonizationBrief(Some(r), Fin(t)).value;
    var tonnes := TotalOrZero(r) / 1000.0;
    assert b.tonnes == tonnes && tonnes >= 0.0;
    assert b.targetReduction.v == tonnes * (t / 100.0);
    assert tonnes * (t / 100.0) <= tonnes * 1.0;
  }

  /** A brief without a recorded total shows zero tonnes and a zero reduction. */
  lemma MissingTotalIsZero(target: real)
    ensures var b := DecarbonizationBrief(Some(Results(None)), Fin(target)).value;
      b.tonnes == 0.0 && b.targetReduction == Fin(0.0)
  {
  }
}
