/**
 * The estimation page (CarbMine/frontend/src/pages/Analysis.js): what the
 * submit and neutralise handlers send, the loop that spreads the page capture
 * over PDF pages, the chart scaling, and the distribution and scenario splits.
 */
module Analysis {
  import opened Wrappers
  import opened Text
  import opened Numbers
  import opened Services
  import opened Api

  // ------------------------------------------------------------------ submit

  /** The Indian-mode form; every field holds the text of its input. */
  datatype IndianForm = IndianForm(
    year: string, coalProduction: string, energyConsumption: string, methane: string, otherGhg: string)

  /** The legacy form; the page posts these strings unchanged. */
  datatype LegacyForm = LegacyForm(
    excavation: string, transportation: string, fuel: string, equipment: string, workers: string,
    output: string, annualcoal: string, fuelType: string, reduction: string)

  /** What a submit sends: nothing (after an alert), the Indian estimate, or the legacy calculation. */
  datatype Submission = NoRequest | EstimateIndianCall(request: IndianEstimateRequest) | CalculateCall(payload: Payload)

  /** `parseFloat(x) || 0`: NaN (a blank or non-numeric field) and 0 both give 0. */
  function FloatOrZero(s: string): (r: real)
    ensures !ScanDecimal(TrimStart(s)).ok ==> r == 0.0
    ensures ScanDecimal(TrimStart(s)).ok ==> r == ScanDecimal(TrimStart(s)).value
  {
    OrZero(JsParseFloat(s))
  }

  /** `parseInt(year) || currentYear`: a year that is NaN or 0 becomes the current year. */
  function YearOrCurrent(year: string, currentYear: int): (r: int)
    ensures JsParseInt(year).None? || JsParseInt(year) == Some(0) ==> r == currentYear
    ensures JsParseInt(year).Some? && JsParseInt(year).value != 0 ==> r == JsParseInt(year).value
  {
    match JsParseInt(year)
    case Some(y) => if y != 0 then y else currentYear
    case None => currentYear
  }

  /** The legacy form as the JSON body the backend decodes: every field a string. */
  function FormPayload(f: LegacyForm): (p: Payload)
    ensures forall k :: k in p ==> p[k].JStr?
    ensures Get(p, "excavation", JNull) == JStr(f.excavation)
    ensures Get(p, "transportation", JNull) == JStr(f.transportation) && Get(p, "fuel", JNull) == JStr(f.fuel)
    ensures Get(p, "fuelType", JNull) == JStr(f.fuelType) && Get(p, "workers", JNull) == JStr(f.workers)
    ensures Get(p, "equipment", JNull) == JStr(f.equipment) && Get(p, "output", JNull) == JStr(f.output)
    ensures Get(p, "annualcoal", JNull) == JStr(f.annualcoal) && Get(p, "reduction", JNull) == JStr(f.reduction)
    ensures p.Keys == {"excavation", "transportation", "fuel", "equipment", "workers",
                       "output", "annualcoal", "fuelType", "reduction"}
  {
    map["excavation" := JStr(f.excavation), "transportation" := JStr(f.transportation),
        "fuel" := JStr(f.fuel), "equipment" := JStr(f.equipment), "workers" := JStr(f.workers),
        "output" := JStr(f.output), "annualcoal" := JStr(f.annualcoal),
        "fuelType" := JStr(f.fuelType), "reduction" := JStr(f.reduction)]
  }

  /** `handleSubmit`. */
  function HandleSubmit(indianMode: bool, indian: IndianForm, region: string, legacy: LegacyForm, currentYear: int)
    : (s: Submission)
    ensures indianMode ==> (s == NoRequest <==> indian.coalProduction == "" || indian.energyConsumption == "")
    ensures indianMode && s != NoRequest ==>
      && s.EstimateIndianCall?
      && s.request.year == YearOrCurrent(indian.year, currentYear)
      && s.request.coalProduction == FloatOrZero(indian.coalProduction)
      && s.request.energyConsumption == FloatOrZero(indian.energyConsumption)
      && s.request.methane == FloatOrZero(indian.methane)
      && s.request.otherGhg == FloatOrZero(indian.otherGhg)
      && s.request.region == region
    ensures !indianMode ==> s == CalculateCall(FormPayload(legacy))
  {
    if indianMode then
      if indian.coalProduction == "" || indian.energyConsumption == "" then NoRequest
      else EstimateIndianCall(IndianEstimateRequest(
        YearOrCurrent(indian.year, currentYear),
        FloatOrZero(indian.coalProduction), FloatOrZero(indian.energyConsumption),
        FloatOrZero(indian.methane), FloatOrZero(indian.otherGhg), region))
    else CalculateCall(FormPayload(legacy))
  }

  /** Blank optional fields of the Indian form are sent as 0. */
  lemma BlankOptionalFieldsSendZero(indian: IndianForm, region: string, legacy: LegacyForm, currentYear: int)
    requires indian.coalProduction != "" && indian.energyConsumption != ""
    requires TrimStart(indian.methane) == [] && TrimStart(indian.otherGhg) == []
    ensures HandleSubmit(true, indian, region, legacy, currentYear).request.methane == 0.0
    ensures HandleSubmit(true, indian, region, legacy, currentYear).request.otherGhg == 0.0
  {
    BlankParsesToNaN(indian.methane);
    BlankParsesToNaN(indian.otherGhg);
  }

  /**
   * The legacy form posts its strings as they are, so a blank numeric field
   * reaches `float('')` on the backend and the calculation is refused with 400.
   */
  lemma LegacyBlankFieldRejected(legacy: LegacyForm, currentYear: int, indian: IndianForm, region: string)
    requires Trim(legacy.excavation) == []
    ensures HandleSubmit(false, indian, region, legacy, currentYear).CalculateCall?
    ensures CalculateLegacy(HandleSubmit(false, indian, region, legacy, currentYear).payload).HttpError?
    ensures CalculateLegacy(HandleSubmit(false, indian, region, legacy, currentYear).payload).status == BAD_REQUEST
  {
    var p := FormPayload(legacy);
    assert Get(p, "excavation", JNum(0.0)) == JStr(legacy.excavation);
    assert !ScanDecimal([]).ok;
    assert PyFloat(JStr(legacy.excavation)).Failure?;
  }

  // -------------------------------------------------------------- neutralise

  /** The three slider positions, in percent. */
  datatype Sliders = Sliders(greenFuel: real, neutralise: real, evConversion: real)

  /** `handleNeutralise`: nothing is sent before a calculation; otherwise the sliders, the total and two form fields. */
  function HandleNeutralise(results: Option<LegacyReport>, sliders: Sliders, legacy: LegacyForm): (r: Option<Payload>)
    ensures r.None? <==> results.None?
    ensures r.Some? ==>
      && Get(r.value, "emissions", JNull) == JNum(results.value.totalEmissions)
      && Get(r.value, "neutralise_percentage", JNull) == JNum(sliders.neutralise)
      && Get(r.value, "green_fuel_percentage", JNull) == JNum(sliders.greenFuel)
      && Get(r.value, "ev_transportation_percentage", JNull) == JNum(sliders.evConversion)
      && Get(r.value, "transportation", JNull) == JStr(legacy.transportation)
      && Get(r.value, "fuel", JNull) == JStr(legacy.fuel)
  {
    match results
    case None => None
    case Some(report) => Some(map[
      "green_fuel_percentage" := JNum(sliders.greenFuel),
      "neutralise_percentage" := JNum(sliders.neutralise),
      "ev_transportation_percentage" := JNum(sliders.evConversion),
      // `results?.totalEmissions || 0`: a total of 0 is sent as 0 either way
      "emissions" := JNum(report.totalEmissions),
      "transportation" := JStr(legacy.transportation),
      "fuel" := JStr(legacy.fuel)])
  }

  /**
   * Once the legacy calculation of a form has succeeded, the neutralisation
   * request built from its result and the same form is accepted: the two form
   * fields it resends were already converted successfully.
   */
  lemma NeutraliseAfterCalculate(legacy: LegacyForm, sliders: Sliders)
    requires CalculateLegacy(FormPayload(legacy)).Ok?
    ensures NeutraliseLegacy(HandleNeutralise(Some(CalculateLegacy(FormPayload(legacy)).body), sliders, legacy).value).Ok?
  {
    var p := FormPayload(legacy);
    assert ReadLegacyPayload(p).Success?;
    assert PyFloat(JStr(legacy.transportation)).Success? && PyFloat(JStr(legacy.fuel)).Success? by {
      assert Get(p, "transportation", JNum(0.0)) == JStr(legacy.transportation);
      assert Get(p, "fuel", JNum(0.0)) == JStr(legacy.fuel);
    }
    NeutraliseRequestAccepted(CalculateLegacy(p).body, sliders, legacy);
  }

  /** A neutralisation request is accepted when its two resent form fields convert. */
  lemma NeutraliseRequestAccepted(report: LegacyReport, sliders: Sliders, legacy: LegacyForm)
    requires PyFloat(JStr(legacy.transportation)).Success? && PyFloat(JStr(legacy.fuel)).Success?
    ensures ReadNeutralisePayload(HandleNeutralise(Some(report), sliders, legacy).value).Success?
  {
    var q := HandleNeutralise(Some(report), sliders, legacy).value;
    assert Get(q, "transportation", JNum(0.0)) == JStr(legacy.transportation);
    assert Get(q, "fuel", JNum(0.0)) == JStr(legacy.fuel);
    assert Get(q, "emissions", JNum(0.0)) == JNum(report.totalEmissions);
  }

  // ------------------------------------------------------------ PDF paging

  /** A call on the PDF document: draw the capture at vertical offset y on the current page, or start a new page. */
  datatype PdfCall = AddImage(y: real) | AddPage

  /** The calls for a capture spread over `n` pages: its i-th copy drawn at -i x pageHeight, a new page between copies. */
  function Strip(n: nat, pageHeight: real): (calls: seq<PdfCall>)
    ensures |calls| == if n == 0 then 0 else 2 * n - 1
  {
    if n == 0 then []
    else if n == 1 then [AddImage(0.0)]
    else Strip(n - 1, pageHeight) + [AddPage, AddImage(-((n - 1) as real) * pageHeight)]
  }

  /** The number of pages a capture of height h needs: h / pageHeight rounded up, and none when h <= 0. */
  function PageCount(h: real, pageHeight: real): (n: nat)
    requires pageHeight > 0.0
    ensures h <= 0.0 ==> n == 0
    ensures h > 0.0 ==> n >= 1 && (n - 1) as real * pageHeight < h <= n as real * pageHeight
  {
    if h <= 0.0 then 0
    else
      var q := (h / pageHeight).Floor;
      assert q as real <= h / pageHeight < q as real + 1.0;
      QuotientBounds(h, pageHeight, q);
      if q as real * pageHeight == h then q else q + 1
  }

  lemma QuotientBounds(h: real, pageHeight: real, q: int)
    requires pageHeight > 0.0 && h > 0.0
    requires q as real <= h / pageHeight < q as real + 1.0
    ensures q >= 0 && q as real * pageHeight <= h < (q as real + 1.0) * pageHeight
  {
    assert h / pageHeight * pageHeight == h;
    ScaleLe(q as real, h / pageHeight, pageHeight);
    ScaleLt(h / pageHeight, q as real + 1.0, pageHeight);
  }

  lemma ScaleLe(a: real, b: real, c: real)
    requires a <= b && c > 0.0
    ensures a * c <= b * c
  {
  }

  lemma ScaleLt(a: real, b: real, c: real)
    requires a < b && c > 0.0
    ensures a * c < b * c
  {
  }

  /** Cancelling a positive factor from a strict inequality between whole multiples. */
  lemma CancelLt(a: int, b: int, c: real)
    requires c > 0.0 && a as real * c < b as real * c
    ensures a < b
  {
    if a >= b {
      ScaleLe(b as real, a as real, c);
    }
  }

  /** Every page but the first is one AddPage call: a strip of n pages has n - 1 of them. */
  function CountAddPage(calls: seq<PdfCall>): nat {
    if calls == [] then 0 else (if calls[|calls| - 1] == AddPage then 1 else 0) + CountAddPage(calls[..|calls| - 1])
  }

  lemma {:induction false} StripAddsPages(n: nat, pageHeight: real)
    requires n >= 1
    ensures CountAddPage(Strip(n, pageHeight)) == n - 1
  {
    if n > 1 {
      StripAddsPages(n - 1, pageHeight);
      var s := Strip(n - 1, pageHeight);
      var c := Strip(n, pageHeight);
      assert c[..|c| - 1] == s + [AddPage];
      assert (s + [AddPage])[..|s|] == s;
    } else {
      assert Strip(1, pageHeight)[..0] == [];
    }
  }

  /**
   * The export loop: while part of the capture is left, draw it at positionY,
   * and either start a new page and move up one page height, or reset positionY.
   */
  method SplitAcrossPages(imgHeight: real, pageHeight: real) returns (calls: seq<PdfCall>, positionY: real)
    requires pageHeight > 0.0
    ensures calls == Strip(PageCount(imgHeight, pageHeight), pageHeight)
    ensures positionY == 0.0
  {
    positionY := 0.0;
    var remainingHeight := imgHeight;
    calls := [];
    ghost var k: nat := 0;
    ghost var n := PageCount(imgHeight, pageHeight);
    while remainingHeight > 0.0
      invariant remainingHeight == imgHeight - k as real * pageHeight
      invariant k <= n
      invariant remainingHeight > 0.0 ==>
                  k < n && calls == (if k == 0 then [] else Strip(k, pageHeight) + [AddPage])
                  && positionY == -(k as real) * pageHeight
      invariant remainingHeight <= 0.0 ==> calls == Strip(k, pageHeight) && positionY == 0.0 && k == n
      decreases n - k
    {
      calls := calls + [AddImage(positionY)];
      assert calls == Strip(k + 1, pageHeight);
      remainingHeight := remainingHeight - pageHeight;
      k := k + 1;
      if remainingHeight > 0.0 {
        calls := calls + [AddPage];
        positionY := positionY - pageHeight;
        PagesLeft(imgHeight, pageHeight, k, n);
      } else {
        positionY := 0.0;
        PagesDone(imgHeight, pageHeight, k, n);
      }
    }
  }

  lemma PagesLeft(imgHeight: real, pageHeight: real, k: nat, n: nat)
    requires pageHeight > 0.0 && n == PageCount(imgHeight, pageHeight)
    requires imgHeight - k as real * pageHeight > 0.0
    ensures k < n
  {
    CancelLt(k, n, pageHeight);
  }

  lemma PagesDone(imgHeight: real, pageHeight: real, k: nat, n: nat)
    requires pageHeight > 0.0 && n == PageCount(imgHeight, pageHeight) && k >= 1
    requires imgHeight - (k - 1) as real * pageHeight > 0.0
    requires imgHeight - k as real * pageHeight <= 0.0
    ensures k == n
  {
    ScaleLe(0.0, (k - 1) as real, pageHeight);
    assert imgHeight > 0.0;
    SameCeiling(imgHeight, pageHeight, k, n);
  }

  /** Two whole numbers that both bound h from above by one page and from below by the previous one are equal. */
  lemma SameCeiling(h: real, pageHeight: real, k: int, n: int)
    requires pageHeight > 0.0
    requires (k - 1) as real * pageHeight < h <= k as real * pageHeight
    requires (n - 1) as real * pageHeight < h <= n as real * pageHeight
    ensures k == n
  {
    var kBelow := (k - 1) as real * pageHeight;
    var kAbove := k as real * pageHeight;
    var nBelow := (n - 1) as real * pageHeight;
    var nAbove := n as real * pageHeight;
    assert kBelow < nAbove;
    assert nBelow < kAbove;
    CancelLt(k - 1, n, pageHeight);
    CancelLt(n - 1, k, pageHeight);
  }

  /** A capture that fits on one page is drawn once at the top; a taller one adds PageCount - 1 pages. */
  lemma SplitAddsPages(imgHeight: real, pageHeight: real)
    requires pageHeight > 0.0 && imgHeight > 0.0
    ensures CountAddPage(Strip(PageCount(imgHeight, pageHeight), pageHeight)) == PageCount(imgHeight, pageHeight) - 1
    ensures imgHeight <= pageHeight ==> Strip(PageCount(imgHeight, pageHeight), pageHeight) == [AddImage(0.0)]
  {
    StripAddsPages(PageCount(imgHeight, pageHeight), pageHeight);
    if imgHeight <= pageHeight {
      var n := PageCount(imgHeight, pageHeight);
      assert (n - 1) as real * pageHeight < pageHeight;
    }
  }

  // --------------------------------------------------------- chart pages

  /**
   * A chart image drawn page-wide, scaled down uniformly when it is taller
   * than the page; the result is its drawn (width, height).
   */
  function ChartSize(imgWidth: real, imgHeight: real, pageWidth: real, pageHeight: real): (size: (real, real))
    requires imgWidth > 0.0 && pageHeight > 0.0
    ensures size.1 <= pageHeight
    ensures imgHeight * pageWidth / imgWidth > pageHeight ==> size.1 == pageHeight
    ensures imgHeight * pageWidth / imgWidth <= pageHeight ==> size == (pageWidth, imgHeight * pageWidth / imgWidth)
    ensures size.0 * imgHeight == size.1 * imgWidth
  {
    var w := pageWidth;
    var h := (imgHeight * w) / imgWidth;
    if h > pageHeight then
      var scale := pageHeight / h;
      (w * scale, h * scale)
    else (w, h)
  }

  // ---------------------------------------------------- distribution, scenarios

  datatype Distribution = Distribution(coalProduction: real, energyConsumption: real, methane: real, otherGhg: real, total: real)

  /** The doughnut's split of the Indian total; no chart when the total is 0 or missing. */
  function SourceDistribution(total: Option<real>): (d: Option<Distribution>)
    ensures d.Some? <==> total.Some? && total.value != 0.0
    ensures d.Some? ==> d.value.coalProduction + d.value.energyConsumption + d.value.methane + d.value.otherGhg
                        == d.value.total == total.value
    ensures d.Some? && total.value > 0.0 ==>
      d.value.coalProduction > d.value.energyConsumption > d.value.methane > d.value.otherGhg > 0.0
  {
    match total
    case Some(t) => if t != 0.0 then Some(Distribution(t * 0.6, t * 0.25, t * 0.1, t * 0.05, t)) else None
    case None => None
  }

  datatype Scenarios = Scenarios(current: real, withAi: real, fullImplementation: real)

  /** Current emissions and the two reduction scenarios, with a missing total as 0. */
  function ScenarioValues(total: Option<real>): (s: Scenarios)
    ensures s.current == total.GetOr(0.0)
    ensures s.current >= 0.0 ==> 0.0 <= s.fullImplementation <= s.withAi <= s.current
    ensures s.withAi == 0.75 * s.current && s.fullImplementation == 0.45 * s.current
  {
    var t := total.GetOr(0.0);
    Scenarios(t, t * 0.75, t * 0.45)
  }
}
