/**
 * The HTTP handlers of the backend (CarbMine/backend/app/main.py): request
 * field bounds (rejected with 422 before a handler runs), the handlers' own
 * guards, and how each composes the service functions into its response.
 */
module Api {
  import opened Wrappers
  import opened Text
  import opened Numbers
  import opened Services

  /** A handler's outcome: a body, or an HTTP error status with its detail text. */
  datatype Response<+T> = Ok(body: T) | HttpError(status: nat, detail: string)

  const UNPROCESSABLE: nat := 422
  const BAD_REQUEST: nat := 400

  predicate YearInRange(year: int) { 2000 <= year <= 2100 }

  predicate OptionalNonNegative(x: Option<real>) { x.Some? ==> x.value >= 0.0 }

  datatype EstimateRequest = EstimateRequest(
    year: int, coalProduction: real, energyConsumption: real, emissionFactor: real,
    methane: real, otherGhg: real, region: Option<string>)

  datatype IndianEstimateRequest = IndianEstimateRequest(
    year: int, coalProduction: real, energyConsumption: real, methane: real, otherGhg: real, region: string)

  datatype PredictRequest = PredictRequest(
    startYear: int, endYear: int, coalProduction: Option<real>, energyConsumption: Option<real>)

  datatype RecommendationRequest = RecommendationRequest(
    sector: string, emissionValue: real, year: int, region: Option<string>)

  /** The field constraints of `EstimateRequest`. */
  predicate ValidEstimateRequest(r: EstimateRequest) {
    YearInRange(r.year) && r.coalProduction >= 0.0 && r.energyConsumption >= 0.0
    && r.emissionFactor >= 0.0 && r.methane >= 0.0 && r.otherGhg >= 0.0
  }

  /** The field constraints of `IndianEstimateRequest`. */
  predicate ValidIndianEstimateRequest(r: IndianEstimateRequest) {
    YearInRange(r.year) && r.coalProduction >= 0.0 && r.energyConsumption >= 0.0
    && r.methane >= 0.0 && r.otherGhg >= 0.0
  }

  /** The field constraints of `PredictRequest`. */
  predicate ValidPredictRequest(r: PredictRequest) {
    YearInRange(r.startYear) && YearInRange(r.endYear)
    && OptionalNonNegative(r.coalProduction) && OptionalNonNegative(r.energyConsumption)
  }

  datatype Estimate = Estimate(year: int, estimatedTotal: real)

  /** `/estimate_emissions`: the IPCC estimate with the caller's own factor. */
  function EstimateEmissions(r: EstimateRequest): (resp: Response<Estimate>)
    ensures resp.HttpError? <==> !ValidEstimateRequest(r)
    ensures resp.HttpError? ==> resp.status == UNPROCESSABLE
    ensures resp.Ok? ==> resp.body.year == r.year && resp.body.estimatedTotal >= 0.0
    ensures resp.Ok? ==>
              resp.body.estimatedTotal
              == EstimateIpcc(r.coalProduction, r.energyConsumption, r.emissionFactor, r.methane, r.otherGhg)
  {
    if !ValidEstimateRequest(r) then HttpError(UNPROCESSABLE, "validation error")
    else Ok(Estimate(r.year, EstimateIpcc(r.coalProduction, r.energyConsumption, r.emissionFactor,
                                           r.methane, r.otherGhg)))
  }

  /** `/calculate`: any conversion error becomes a 400. */
  function CalculateLegacy(payload: Payload): (resp: Response<LegacyReport>)
    ensures resp.Ok? <==> LegacyCalculate(payload).Success?
    ensures resp.HttpError? ==> resp.status == BAD_REQUEST
    ensures resp.Ok? ==> resp.body == LegacyCalculate(payload).value
  {
    match LegacyCalculate(payload)
    case Success(report) => Ok(report)
    case Failure(e) => HttpError(BAD_REQUEST, e)
  }

  /** `/neutralise`: any conversion error becomes a 400. */
  function NeutraliseLegacy(payload: Payload): (resp: Response<NeutralisationReport>)
    ensures resp.Ok? <==> LegacyNeutralise(payload).Success?
    ensures resp.HttpError? ==> resp.status == BAD_REQUEST
    ensures resp.Ok? ==> resp.body == LegacyNeutralise(payload).value
  {
    match LegacyNeutralise(payload)
    case Success(report) => Ok(report)
    case Failure(e) => HttpError(BAD_REQUEST, e)
  }

  /**
   * `/predict_emissions`: `learned` is the trained model's forecast, or None
   * when loading or predicting raised; then the heuristic forecast from the
   * baseline `b` is returned.
   */
  function PredictEmissions(r: PredictRequest, learned: Option<seq<YearPrediction>>, b: Baseline, pow: Power)
    : (resp: Response<seq<YearPrediction>>)
    ensures !ValidPredictRequest(r) ==> resp == HttpError(UNPROCESSABLE, "validation error")
    ensures ValidPredictRequest(r) ==> (resp.HttpError? <==> r.endYear < r.startYear)
    ensures resp.HttpError? && resp.status == BAD_REQUEST ==> r.endYear < r.startYear
    ensures ValidPredictRequest(r) && r.endYear < r.startYear ==>
              resp == HttpError(BAD_REQUEST, "end_year must be >= start_year")
    ensures resp.Ok? && learned.None? ==>
              resp.body == HeuristicForecast(r.startYear, r.endYear, b, r.coalProduction, r.energyConsumption, pow)
    ensures resp.Ok? && learned.Some? ==> resp.body == learned.value
  {
    if !ValidPredictRequest(r) then HttpError(UNPROCESSABLE, "validation error")
    else if r.endYear < r.startYear then HttpError(BAD_REQUEST, "end_year must be >= start_year")
    else match learned
      case Some(preds) => Ok(preds)
      case None => Ok(HeuristicForecast(r.startYear, r.endYear, b, r.coalProduction, r.energyConsumption, pow))
  }

  /** Without the trained model, a valid range yields one prediction per year, first year first. */
  lemma PredictEmissionsFallbackCoversRange(r: PredictRequest, b: Baseline, pow: Power)
    requires ValidPredictRequest(r) && r.startYear <= r.endYear
    ensures PredictEmissions(r, None, b, pow).Ok?
    ensures |PredictEmissions(r, None, b, pow).body| == r.endYear - r.startYear + 1
    ensures forall i :: 0 <= i < |PredictEmissions(r, None, b, pow).body| ==>
              PredictEmissions(r, None, b, pow).body[i].year == r.startYear + i
  {
  }

  /** The endpoint test's request: 2025 to 2026 gives two predictions, for 2025 and 2026. */
  lemma PredictTwoYears(b: Baseline, pow: Power)
    ensures var resp := PredictEmissions(PredictRequest(2025, 2026, None, None), None, b, pow);
            resp.Ok? && |resp.body| == 2 && resp.body[0].year == 2025 && resp.body[1].year == 2026
  {
    PredictEmissionsFallbackCoversRange(PredictRequest(2025, 2026, None, None), b, pow);
  }

  /**
   * `/recommend_strategies`: a negative emission value is refused with 400;
   * otherwise the recommendations of `generate_recommendations`.
   */
  function RecommendStrategies(r: RecommendationRequest, mlRanked: Option<seq<Recommendation>>,
                               tableRows: seq<Strategy>): (resp: Response<seq<Recommendation>>)
    ensures resp.HttpError? <==> r.emissionValue < 0.0
    ensures resp.HttpError? ==> resp.status == BAD_REQUEST
    ensures resp.Ok? ==> resp.body == Recommendations(r.sector, r.emissionValue, r.region, mlRanked, tableRows)
    ensures resp.Ok? ==> forall i :: 0 <= i < |resp.body| ==>
              resp.body[i].sector == r.sector && resp.body[i].region == r.region
    ensures resp.Ok? && !(mlRanked.Some? && mlRanked.value != []) ==>
              0 < |resp.body| <= 10
              && forall i :: 0 <= i < |resp.body| ==> resp.body[i].estimatedReduction >= 0.0
  {
    if r.emissionValue < 0.0 then HttpError(BAD_REQUEST, "emission_value must be >= 0")
    else Ok(Recommendations(r.sector, r.emissionValue, r.region, mlRanked, tableRows))
  }

  datatype IndianEstimate = IndianEstimate(
    totalEmissions: real, emissionLevel: string, region: string,
    regionalEmissionFactor: real, gridFactor: real, year: int)

  /** `/estimate_indian`: the regional factor feeds the estimate, whose total is then classified. */
  function EstimateIndian(r: IndianEstimateRequest): (resp: Response<IndianEstimate>)
    ensures resp.HttpError? <==> !ValidIndianEstimateRequest(r)
    ensures resp.HttpError? ==> resp.status == UNPROCESSABLE
    ensures resp.Ok? ==>
      && resp.body.regionalEmissionFactor == RegionalFactor(Some(r.region))
      && resp.body.totalEmissions
         == EstimateIpcc(r.coalProduction, r.energyConsumption, resp.body.regionalEmissionFactor, r.methane, r.otherGhg)
      && resp.body.emissionLevel == LevelName(Classify(resp.body.totalEmissions))
      && resp.body.gridFactor == INDIAN_GRID_FACTOR
      && resp.body.year == r.year && resp.body.region == r.region
      && resp.body.totalEmissions >= 0.0
  {
    if !ValidIndianEstimateRequest(r) then HttpError(UNPROCESSABLE, "validation error")
    else
      var factor := RegionalFactor(Some(r.region));
      var total := EstimateIpcc(r.coalProduction, r.energyConsumption, factor, r.methane, r.otherGhg);
      Ok(IndianEstimate(total, LevelName(Classify(total)), r.region, factor, INDIAN_GRID_FACTOR, r.year))
  }

  /** The reported level is "high" exactly when the reported total reaches 500 000 tCO2e. */
  lemma EstimateIndianLevel(r: IndianEstimateRequest)
    requires ValidIndianEstimateRequest(r)
    ensures EstimateIndian(r).body.emissionLevel == "high" <==> EstimateIndian(r).body.totalEmissions >= 500000.0
    ensures EstimateIndian(r).body.emissionLevel == "low" <==> EstimateIndian(r).body.totalEmissions < 50000.0
  {
    var t := EstimateIndian(r).body.totalEmissions;
    assert LevelName(Classify(t)) == "high" <==> Classify(t) == High;
    assert LevelName(Classify(t)) == "low" <==> Classify(t) == Low;
  }

  /** `str.rstrip("/")`. */
  function StripTrailingSlashes(s: string): (r: string)
    ensures |r| <= |s| && r == s[..|r|]
    ensures r == [] || r[|r| - 1] != '/'
    ensures forall k :: |r| <= k < |s| ==> s[k] == '/'
  {
    if s != [] && s[|s| - 1] == '/' then StripTrailingSlashes(s[..|s| - 1]) else s
  }

  /** `/upload_pdf`: an empty uid is refused with 422, a name not ending in ".pdf" (any case) with 400. */
  function UploadPdf(uid: string, filename: string, baseUrl: string): (resp: Response<string>)
    ensures resp.Ok? <==> uid != "" && EndsWith(Lower(filename), ".pdf")
    ensures resp.HttpError? && resp.status == BAD_REQUEST <==> uid != "" && !EndsWith(Lower(filename), ".pdf")
    ensures resp.Ok? ==> EndsWith(resp.body, "/uploads/" + filename)
    ensures resp.Ok? ==> resp.body == StripTrailingSlashes(baseUrl) + "/uploads/" + filename
    ensures resp.HttpError? && resp.status != BAD_REQUEST ==> uid == "" && resp.status == UNPROCESSABLE
  {
    if uid == "" then HttpError(UNPROCESSABLE, "validation error")
    else if !EndsWith(Lower(filename), ".pdf") then HttpError(BAD_REQUEST, "Only PDF files are allowed")
    else
      var url := StripTrailingSlashes(baseUrl) + "/uploads/" + filename;
      assert url[|url| - |"/uploads/" + filename|..] == "/uploads/" + filename;
      Ok(url)
  }

  /** The suffix check ignores letter case: names equal up to case are accepted or refused together. */
  lemma UploadPdfIgnoresCase(uid: string, a: string, b: string, baseUrl: string)
    requires Lower(a) == Lower(b)
    ensures UploadPdf(uid, a, baseUrl).Ok? <==> UploadPdf(uid, b, baseUrl).Ok?
  {
  }
}
