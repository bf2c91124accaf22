/**
 * The forecast page (CarbMine/frontend/src/pages/Predict.js): the year checks
 * and payload of `handlePredict`, the page state it updates, the summary
 * statistics of `computeStats`, and `pinForecast`.
 */
module Predict {
  import opened Wrappers
  import opened Text
  import opened Numbers
  import opened Series
  import opened Pins
  import opened Services

  /** The form's inputs as typed. */
  datatype PredictForm = PredictForm(startYear: string, endYear: string, production: string, energy: string)

  /** The body posted to `/predict_emissions`; an override is left out when its field is empty. */
  datatype PredictPayload = PredictPayload(
    startYear: real, endYear: real, coalProduction: Option<JsNum>, energyConsumption: Option<JsNum>)

  const NOT_NUMERIC := "Please enter valid numeric years."
  const OUT_OF_RANGE := "Years must be between 2000 and 2100."
  const WRONG_ORDER := "End year must be greater than or equal to start year."

  predicate InYearRange(y: real) { 2000.0 <= y <= 2100.0 }

  /** The guards of `handlePredict` in order, and the payload when they pass. */
  function ValidatePredict(form: PredictForm): (r: Result<PredictPayload, string>)
    ensures r.Success? <==>
      JsNumber(form.startYear).Fin? && JsNumber(form.endYear).Fin?
      && InYearRange(JsNumber(form.startYear).v) && InYearRange(JsNumber(form.endYear).v)
      && JsNumber(form.startYear).v <= JsNumber(form.endYear).v
    ensures r == Failure(NOT_NUMERIC) <==> JsNumber(form.startYear).NaN? || JsNumber(form.endYear).NaN?
    ensures r == Failure(OUT_OF_RANGE) <==>
      JsNumber(form.startYear).Fin? && JsNumber(form.endYear).Fin?
      && !(InYearRange(JsNumber(form.startYear).v) && InYearRange(JsNumber(form.endYear).v))
    ensures r == Failure(WRONG_ORDER) <==>
      JsNumber(form.startYear).Fin? && JsNumber(form.endYear).Fin?
      && InYearRange(JsNumber(form.startYear).v) && InYearRange(JsNumber(form.endYear).v)
      && JsNumber(form.endYear).v < JsNumber(form.startYear).v
    ensures r.Success? ==>
      && r.value.startYear == JsNumber(form.startYear).v && r.value.endYear == JsNumber(form.endYear).v
      && (r.value.coalProduction.Some? <==> form.production != "")
      && (r.value.energyConsumption.Some? <==> form.energy != "")
      && (form.production != "" ==> r.value.coalProduction == Some(JsNumber(form.production)))
      && (form.energy != "" ==> r.value.energyConsumption == Some(JsNumber(form.energy)))
  {
    var start := JsNumber(form.startYear);
    var end := JsNumber(form.endYear);
    if start.NaN? || end.NaN? then Failure(NOT_NUMERIC)
    else if start.v < 2000.0 || start.v > 2100.0 || end.v < 2000.0 || end.v > 2100.0 then Failure(OUT_OF_RANGE)
    else if end.v < start.v then Failure(WRONG_ORDER)
    else Success(PredictPayload(start.v, end.v,
      if form.production != "" then Some(JsNumber(form.production)) else None,
      if form.energy != "" then Some(JsNumber(form.energy)) else None))
  }

  /** The forecast page's state. */
  class PredictPage {
    var predictions: seq<Point>
    var loading: bool
    var error: string

    constructor()
      ensures predictions == [] && !loading && error == ""
    {
      predictions := [];
      loading := false;
      error := "";
    }

    /**
     * `handlePredict`: `reply` is the backend's answer, the predictions or the
     * error detail; it is only consulted when the form passes the guards, and
     * `sent` is the payload that was posted.
     */
    method HandlePredict(form: PredictForm, reply: Result<seq<Point>, string>) returns (sent: Option<PredictPayload>)
      modifies this
      ensures !loading
      ensures ValidatePredict(form).Failure? ==>
                sent.None? && error == ValidatePredict(form).error && predictions == old(predictions)
      ensures ValidatePredict(form).Success? ==> sent == Some(ValidatePredict(form).value)
      ensures ValidatePredict(form).Success? && reply.Success? ==> predictions == reply.value && error == ""
      ensures ValidatePredict(form).Success? && reply.Failure? ==>
                predictions == old(predictions) && error == "Failed to fetch predictions: " + reply.error
    {
      loading := true;
      error := "";
      var checked := ValidatePredict(form);
      if checked.Failure? {
        error := checked.error;
        loading := false;
        return None;
      }
      sent := Some(checked.value);
      match reply {
        case Success(points) => predictions := points;
        case Failure(detail) => error := "Failed to fetch predictions: " + detail;
      }
      loading := false;
    }
  }

  /** The summary `computeStats` returns. */
  datatype Stats = Stats(
    min: real, max: real, avg: real, pctChange: real, cagr: real,
    firstYear: JsNum, lastYear: JsNum, first: real, last: real)

  /** JavaScript subtraction, where NaN absorbs. */
  function JsSub(a: JsNum, b: JsNum): (r: JsNum)
    ensures r.Fin? <==> a.Fin? && b.Fin?
    ensures r.Fin? ==> r.v == a.v - b.v
  {
    if a.Fin? && b.Fin? then Fin(a.v - b.v) else NaN
  }

  /** The compound annual growth rate in percent; 0 unless both totals and the span are positive. */
  function Cagr(first: real, last: real, nYears: JsNum, pow: Power): (c: real)
    ensures first > 0.0 && last > 0.0 && nYears.Fin? && nYears.v > 0.0 ==>
              c == (pow(last / first, 1.0 / nYears.v) - 1.0) * 100.0
    ensures !(first > 0.0 && last > 0.0 && nYears.Fin? && nYears.v > 0.0) ==> c == 0.0
  {
    if first > 0.0 && last > 0.0 && nYears.Fin? && nYears.v > 0.0
    then (pow(last / first, 1.0 / nYears.v) - 1.0) * 100.0 else 0.0
  }

  /** `computeStats`; `pow` is `Math.pow`, left abstract. */
  function ComputeStats(predictions: seq<Point>, pow: Power): (s: Option<Stats>)
    ensures s.None? <==> predictions == []
    ensures s.Some? ==>
              && s.value.min == Min(Totals(predictions))
              && s.value.max == Max(Totals(predictions))
              && s.value.avg == Mean(Totals(predictions))
    ensures s.Some? ==> s.value.min <= s.value.avg <= s.value.max
    ensures s.Some? ==>
              s.value.firstYear == predictions[0].year && s.value.lastYear == predictions[|predictions| - 1].year
    ensures s.Some? ==>
              s.value.first == OrZero(predictions[0].total) && s.value.last == OrZero(predictions[|predictions| - 1].total)
    ensures s.Some? ==> forall i :: 0 <= i < |predictions| ==>
              s.value.min <= OrZero(predictions[i].total) <= s.value.max
    ensures s.Some? ==> s.value.pctChange == PctChange(s.value.first, s.value.last)
    ensures s.Some? && s.value.first == 0.0 ==> s.value.pctChange == 0.0
    ensures s.Some? && s.value.cagr != 0.0 ==>
              s.value.first > 0.0 && s.value.last > 0.0 && |predictions| > 1
              && JsSub(s.value.lastYear, s.value.firstYear).Fin? && JsSub(s.value.lastYear, s.value.firstYear).v > 0.0
    ensures s.Some? && s.value.first > 0.0 && s.value.last > 0.0 && |predictions| > 1
            && JsSub(s.value.lastYear, s.value.firstYear).Fin? && JsSub(s.value.lastYear, s.value.firstYear).v > 0.0 ==>
              s.value.cagr == (pow(s.value.last / s.value.first, 1.0 / JsSub(s.value.lastYear, s.value.firstYear).v) - 1.0) * 100.0
    ensures s.Some? ==>
              s.value.cagr == Cagr(s.value.first, s.value.last,
                                   if |predictions| > 1 then JsSub(s.value.lastYear, s.value.firstYear) else Fin(0.0), pow)
  {
    if predictions == [] then None
    else
      var values := Totals(predictions);
      var first := values[0];
      var last := values[|values| - 1];
      var nYears := if |predictions| > 1 then JsSub(predictions[|predictions| - 1].year, predictions[0].year) else Fin(0.0);
      var cagr := Cagr(first, last, nYears, pow);
      MinMeanMax(values);
      Some(Stats(Min(values), Max(values), Mean(values), PctChange(first, last), cagr,
                 predictions[0].year, predictions[|predictions| - 1].year, first, last))
  }

  /**
   * With an exponentiation for which (r ** (1/n)) ** n == r on the ratio r of
   * last to first total, compounding the first total at the CAGR over the
   * year span n gives the last total.
   */
  lemma CagrCompoundsToLast(first: real, last: real, n: real, pow: Power)
    requires first > 0.0 && last > 0.0 && n > 0.0
    requires pow(pow(last / first, 1.0 / n), n) == last / first
    ensures first * pow(1.0 + Cagr(first, last, Fin(n), pow) / 100.0, n) == last
  {
    var cagr := Cagr(first, last, Fin(n), pow);
    var root := pow(last / first, 1.0 / n);
    GrowthFactor(first, last, root, cagr);
    var grown := pow(1.0 + cagr / 100.0, n);
    assert grown == last / first;
  }

  /** The arithmetic of a percentage growth rate read back as a factor. */
  lemma GrowthFactor(first: real, last: real, root: real, cagr: real)
    requires first > 0.0 && cagr == (root - 1.0) * 100.0
    ensures 1.0 + cagr / 100.0 == root
    ensures first * (last / first) == last
  {
  }

  /** `[item, ...existing].slice(0, 10)`. */
  function NextPinned(item: Pin, existing: seq<Pin>): (next: seq<Pin>)
    ensures |next| == if |existing| < 10 then |existing| + 1 else 10
    ensures next[0] == item
    ensures next[1..] == existing[..|next| - 1]
    ensures |existing| < 10 ==> next == [item] + existing
  {
    var all := [item] + existing;
    if |all| <= 10 then all else all[..10]
  }

  /**
   * The item `pinForecast` builds. The clock is read separately for the id
   * (`idNow`), the label (`nowText`, a locale rendering) and `createdAt`
   * (`createdNow`), so the readings may differ.
   */
  function NewPin(predictions: seq<Point>, form: PredictForm, idNow: nat, nowText: string, createdNow: nat): (p: Pin)
    ensures p.id == ShowNat(idNow) && p.createdAt == createdNow && p.predictions == predictions
    ensures p.title == "Forecast " + nowText
    ensures p.startYear == form.startYear && p.endYear == form.endYear
    ensures p.productionOverride == (if form.production != "" then Some(form.production) else None)
    ensures p.energyOverride == (if form.energy != "" then Some(form.energy) else None)
    ensures p.productionOverride.Some? <==> form.production != ""
    ensures p.energyOverride.Some? <==> form.energy != ""
  {
    Pin(ShowNat(idNow), "Forecast " + nowText, createdNow, predictions, form.startYear, form.endYear,
        if form.production != "" then Some(form.production) else None,
        if form.energy != "" then Some(form.energy) else None)
  }

  /**
   * `pinForecast`: nothing happens without predictions; an unreadable entry
   * counts as an empty list; a stored value that is not an array makes the
   * spread throw, so nothing is written.
   */
  method PinForecast(store: LocalStore, predictions: seq<Point>, form: PredictForm,
                     idNow: nat, nowText: string, createdNow: nat)
    returns (pinned: bool)
    modifies store
    ensures pinned <==> predictions != [] && !old(store.slot).NotAnArray?
    ensures !pinned ==> store.slot == old(store.slot)
    ensures pinned ==> store.slot == Pinned(NextPinned(NewPin(predictions, form, idNow, nowText, createdNow),
                                                       if old(store.slot).Pinned? then old(store.slot).items else []))
  {
    if predictions == [] {
      return false;
    }
    var existing: seq<Pin>;
    match store.slot {
      case Empty => existing := [];
      case Malformed => existing := [];
      case NotAnArray => return false;
      case Pinned(items) => existing := items;
    }
    var item := NewPin(predictions, form, idNow, nowText, createdNow);
    store.Save(NextPinned(item, existing));
    return true;
  }

  /** Pinning never loses the newest items: the old list's first nine stay, in order, after the new pin. */
  lemma PinKeepsNewest(item: Pin, existing: seq<Pin>, i: nat)
    requires i < |existing| && i < 9
    ensures NextPinned(item, existing)[i + 1] == existing[i]
  {
    var next := NextPinned(item, existing);
    assert next[1..][i] == existing[i];
  }
}
