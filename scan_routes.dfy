/**
 * The scan endpoint's deterministic part: the per-scan risk score on a 0-100 scale for each
 * kind of scan, and the dispatch on the scan type that assembles the result record or
 * reports an unsupported type.
 *
 * The classifiers are outside this module: what `predict` and `explain_prediction` return
 * for the content are inputs, and so is the SHA-1 digest of a password.
 */
module ScanRoutes {
  import opened Wrappers
  import Prediction
  import opened BreachService
  import RiskService

  // ---------------------------------------------------------------------------------------
  // Risk scores

  /** `_calculate_message_risk_score` */
  function MessageRiskScore(prediction: string, confidence: real): real {
    if prediction == "scam" then confidence * 100.0
    else if prediction == "suspicious" then confidence * 50.0
    else confidence * 10.0
  }

  /** `_calculate_url_risk_score` */
  function UrlRiskScore(prediction: string, confidence: real): real {
    if prediction == "malicious" then confidence * 100.0
    else if prediction == "suspicious" then confidence * 50.0
    else confidence * 10.0
  }

  /**
   * For a confidence in [0, 1] a message score lies in [0, 100], and at the same confidence
   * `scam` scores at least as high as `suspicious`, which scores at least as high as any
   * other label; only `scam` can score above 50, and any other label scores at most 10.
   */
  lemma MessageRiskScoreBands(prediction: string, confidence: real)
    requires 0.0 <= confidence <= 1.0
    ensures 0.0 <= MessageRiskScore(prediction, confidence) <= 100.0
    ensures MessageRiskScore("scam", confidence) >= MessageRiskScore("suspicious", confidence)
    ensures MessageRiskScore("suspicious", confidence) >= MessageRiskScore(prediction, confidence)
      || prediction == "scam"
    ensures MessageRiskScore(prediction, confidence) > 50.0 ==> prediction == "scam"
    ensures prediction != "scam" && prediction != "suspicious" ==> MessageRiskScore(prediction, confidence) <= 10.0
  {
  }

  /** The URL score follows the same bands, with `malicious` as the top label. */
  lemma UrlRiskScoreBands(prediction: string, confidence: real)
    requires 0.0 <= confidence <= 1.0
    ensures 0.0 <= UrlRiskScore(prediction, confidence) <= 100.0
    ensures UrlRiskScore("malicious", confidence) >= UrlRiskScore("suspicious", confidence)
    ensures UrlRiskScore("suspicious", confidence) >= UrlRiskScore(prediction, confidence)
      || prediction == "malicious"
    ensures UrlRiskScore(prediction, confidence) > 50.0 ==> prediction == "malicious"
    ensures prediction != "malicious" && prediction != "suspicious" ==> UrlRiskScore(prediction, confidence) <= 10.0
  {
  }

  /** For a fixed label a score never decreases as the confidence grows. */
  lemma RiskScoresMonotone(prediction: string, low: real, high: real)
    requires 0.0 <= low <= high
    ensures MessageRiskScore(prediction, low) <= MessageRiskScore(prediction, high)
    ensures UrlRiskScore(prediction, low) <= UrlRiskScore(prediction, high)
  {
  }

  /** `_calculate_breach_risk_score`: `min(breach_count * 10, 100)`. */
  function BreachRiskScore(breachCount: nat): real {
    var scaled := (breachCount * 10) as real;
    if scaled <= 100.0 then scaled else 100.0
  }

  /** The breach score lies in [0, 100], is 10 per breach below ten, and is 100 from ten breaches on. */
  lemma BreachRiskScoreBands(breachCount: nat)
    ensures 0.0 <= BreachRiskScore(breachCount) <= 100.0
    ensures BreachRiskScore(breachCount) == 100.0 <==> breachCount >= 10
    ensures breachCount < 10 ==> BreachRiskScore(breachCount) == (10 * breachCount) as real
  {
  }

  /** More breaches never give a lower score. */
  lemma BreachRiskScoreMonotone(smaller: nat, larger: nat)
    requires smaller <= larger
    ensures BreachRiskScore(smaller) <= BreachRiskScore(larger)
  {
  }

  /** `_calculate_password_risk_score` */
  function PasswordRiskScore(status: SafetyStatus): (r: real)
    ensures r == 100.0 <==> status == Compromised
    ensures r == 0.0 <==> status == Safe
  {
    if status.Name() == "compromised" then 100.0 else 0.0
  }

  // ---------------------------------------------------------------------------------------
  // Dispatch

  /** The `details` of a result: the classifier's explanation, or the breach service's report. */
  datatype Details<E> = Explanation(explanation: E) | EmailDetails(email: EmailReport) | PasswordDetails(password: PasswordReport)

  /** `ScanResult` without `scan_id`, which only the database assigns. */
  datatype ScanResult<E> = ScanResult(prediction: string, confidence: real, details: Details<E>, riskScore: real)

  /** An `HTTPException`: its three-digit status code and its detail message. */
  datatype HttpError = HttpError(statusCode: StatusCode, detail: string)

  type StatusCode = c: nat | 100 <= c < 1000 witness 200

  /** What the content's classifier said about it: `predict`'s record and `explain_prediction`'s report. */
  datatype Analysis<E> = Analysis(prediction: Prediction.ClassifierOutput, explanation: E)

  /**
   * `analyze_content` once the scan type is known: a message or a URL gets its classifier's
   * prediction, an e-mail address its breach report, a password the report for its digest.
   * An unsupported type raises a 400, and the handler around the dispatch turns every error
   * into a 500 whose detail is `Analysis failed: ` followed by the error's text
   * (`<status>: <detail>` for an `HTTPException`).
   */
  function AnalyzeContent<E>(scanType: string, content: string, message: Analysis<E>, url: Analysis<E>, sha1Hex: string)
    : (r: Result<ScanResult<E>, HttpError>)
    ensures r.Success? <==> scanType in {"message", "url", "email", "password"}
  {
    if scanType == "message" then
      Success(ScanResult(message.prediction.prediction, message.prediction.confidence, Explanation(message.explanation),
        MessageRiskScore(message.prediction.prediction, message.prediction.confidence)))
    else if scanType == "url" then
      Success(ScanResult(url.prediction.prediction, url.prediction.confidence, Explanation(url.explanation),
        UrlRiskScore(url.prediction.prediction, url.prediction.confidence)))
    else if scanType == "email" then
      var breachResult := CheckEmailBreaches(content);
      Success(ScanResult(
        if breachResult.breachCount > 0 then "breach_detected" else "safe",
        RiskService.Factor(breachResult.breachCount, 10),
        EmailDetails(breachResult),
        BreachRiskScore(breachResult.breachCount)))
    else if scanType == "password" then
      var passwordResult := CheckPasswordSafety(sha1Hex);
      Success(ScanResult(
        passwordResult.safetyStatus.Name(),
        if passwordResult.safetyStatus.Name() == "compromised" then 0.9 else 0.1,
        PasswordDetails(passwordResult),
        PasswordRiskScore(passwordResult.safetyStatus)))
    else
      Failure(Rewrapped(HttpError(400, "Unsupported scan type: " + scanType)))
  }

  /** The handler's 500 for an error raised during the analysis. */
  function Rewrapped(e: HttpError): HttpError {
    HttpError(500, "Analysis failed: " + ErrorText(e))
  }

  /** `str()` of an `HTTPException`: its status code in decimal, a colon and its detail. */
  function ErrorText(e: HttpError): string {
    var digits := "0123456789";
    [digits[e.statusCode / 100], digits[e.statusCode / 10 % 10], digits[e.statusCode % 10]] + ": " + e.detail
  }

  /** An unsupported scan type never gives a result: it ends in a 500 naming the type. */
  lemma UnsupportedTypeFails<E>(scanType: string, content: string, message: Analysis<E>, url: Analysis<E>, sha1Hex: string)
    requires scanType !in {"message", "url", "email", "password"}
    ensures AnalyzeContent(scanType, content, message, url, sha1Hex)
      == Failure(HttpError(500, "Analysis failed: " + "400: " + "Unsupported scan type: " + scanType))
  {
    RewrappedUnsupported(scanType);
  }

  /** The 500 that rewraps the dispatch's 400 for a scan type. */
  lemma RewrappedUnsupported(scanType: string)
    ensures Rewrapped(HttpError(400, "Unsupported scan type: " + scanType))
      == HttpError(500, "Analysis failed: " + "400: " + "Unsupported scan type: " + scanType)
  {
    var digits := "0123456789";
    assert [digits[4], digits[0], digits[0]] == "400";
  }

  /**
   * An e-mail scan predicts `breach_detected` exactly when the address has a breach, with
   * confidence `min(count / 10, 1)`, and scores `min(10 * count, 100)`.
   */
  lemma EmailScanResult<E>(content: string, message: Analysis<E>, url: Analysis<E>, sha1Hex: string)
    ensures var r := AnalyzeContent("email", content, message, url, sha1Hex);
      && r.Success?
      && (r.value.prediction == "breach_detected" <==> CheckEmailBreaches(content).breachCount > 0)
      && (r.value.prediction == "safe" <==> CheckEmailBreaches(content).breachCount == 0)
      && 0.0 <= r.value.confidence <= 1.0
      && (r.value.confidence == 1.0 <==> CheckEmailBreaches(content).breachCount >= 10)
      && r.value.details == EmailDetails(CheckEmailBreaches(content))
      && r.value.riskScore == BreachRiskScore(CheckEmailBreaches(content).breachCount)
  {
  }

  /**
   * A password scan predicts its safety status, with confidence 0.9 exactly when it is
   * compromised and 0.1 otherwise, and scores 100 or 0 accordingly.
   */
  lemma PasswordScanResult<E>(content: string, message: Analysis<E>, url: Analysis<E>, sha1Hex: string)
    ensures var r := AnalyzeContent("password", content, message, url, sha1Hex);
      && r.Success?
      && r.value.prediction == CheckPasswordSafety(sha1Hex).safetyStatus.Name()
      && (r.value.confidence == 0.9 <==> CheckPasswordSafety(sha1Hex).safetyStatus == Compromised)
      && (r.value.confidence == 0.1 <==> CheckPasswordSafety(sha1Hex).safetyStatus == Safe)
      && (r.value.riskScore == 100.0 <==> CheckPasswordSafety(sha1Hex).compromisedCount > 0)
      && (r.value.riskScore == 0.0 <==> CheckPasswordSafety(sha1Hex).compromisedCount == 0)
  {
  }

  /** A message or URL scan passes its classifier's label and confidence on unchanged. */
  lemma ClassifierScanResult<E>(content: string, message: Analysis<E>, url: Analysis<E>, sha1Hex: string)
    ensures var r := AnalyzeContent("message", content, message, url, sha1Hex);
      r.Success? && r.value.prediction == message.prediction.prediction
      && r.value.confidence == message.prediction.confidence
      && r.value.details == Explanation(message.explanation)
    ensures var r := AnalyzeContent("url", content, message, url, sha1Hex);
      r.Success? && r.value.prediction == url.prediction.prediction
      && r.value.confidence == url.prediction.confidence
      && r.value.details == Explanation(url.explanation)
  {
  }

  /** With the classifiers' confidences in [0, 1], every result's confidence and score are in range. */
  lemma ScanResultInRange<E>(scanType: string, content: string, message: Analysis<E>, url: Analysis<E>, sha1Hex: string)
    requires 0.0 <= message.prediction.confidence <= 1.0
    requires 0.0 <= url.prediction.confidence <= 1.0
    ensures var r := AnalyzeContent(scanType, content, message, url, sha1Hex);
      r.Success? ==> 0.0 <= r.value.confidence <= 1.0 && 0.0 <= r.value.riskScore <= 100.0
  {
    MessageRiskScoreBands(message.prediction.prediction, message.prediction.confidence);
    UrlRiskScoreBands(url.prediction.prediction, url.prediction.confidence);
    BreachRiskScoreBands(CheckEmailBreaches(content).breachCount);
  }

  // ---------------------------------------------------------------------------------------
  // Saved results and the password factor

  /**
   * A result as `save_scan_result` stores it and the risk service reads it back, with its
   * string-valued top-level entries: only `prediction`, since `confidence` and `risk_score`
   * are numbers and `details` is a dictionary, none of which equals a flagged string.
   */
  function Saved<E>(r: ScanResult<E>): (stored: RiskService.ScanResult)
    ensures stored.Fields? && stored.fields.Keys == {"prediction"}
    ensures stored.fields["prediction"] == r.prediction
  {
    RiskService.Fields(map["prediction" := r.prediction])
  }

  /** The history row of a password scan saved by `analyze_content`. */
  function SavedPasswordScan<E>(content: string, message: Analysis<E>, url: Analysis<E>, sha1Hex: string): RiskService.ScanRecord {
    var r := AnalyzeContent("password", content, message, url, sha1Hex);
    RiskService.ScanRecord("password", if r.Success? then Saved(r.value) else RiskService.NotADict)
  }

  /**
   * As written, a saved password scan never moves the password factor, even when the report
   * says `compromised`: the factor reads `safety_status` from the top level of the result,
   * where `analyze_content` does not put it.
   */
  lemma SavedPasswordScanNeverCounts<E>(history: seq<RiskService.ScanRecord>, content: string,
                                        message: Analysis<E>, url: Analysis<E>, sha1Hex: string)
    ensures RiskService.PasswordRisk(history + [SavedPasswordScan(content, message, url, sha1Hex)])
      == RiskService.PasswordRisk(history)
  {
    var s := SavedPasswordScan(content, message, url, sha1Hex);
    assert !RiskService.Flags(s.result, "safety_status", RiskService.PasswordFlags);
    RiskService.TallyOfNewScan(history, s, "password", "safety_status", RiskService.PasswordFlags);
  }

  /** A listed digest makes a password scan `compromised`, and as written its factor still does not move. */
  lemma CompromisedPasswordScanIgnored<E>(history: seq<RiskService.ScanRecord>, content: string,
                                          message: Analysis<E>, url: Analysis<E>, rest: string)
    ensures AnalyzeContent("password", content, message, url, "CBFDAC" + rest).value.prediction == "compromised"
    ensures RiskService.PasswordRisk(history + [SavedPasswordScan(content, message, url, "CBFDAC" + rest)])
      == RiskService.PasswordRisk(history)
  {
    ListedDigestIsCompromised(rest);
    SavedPasswordScanNeverCounts(history, content, message, url, "CBFDAC" + rest);
  }

  /**
   * The intended password factor counts a saved password scan exactly when its report is
   * `compromised`, so a listed digest raises the tally by one.
   */
  lemma SavedPasswordScanCounts<E>(history: seq<RiskService.ScanRecord>, content: string,
                                   message: Analysis<E>, url: Analysis<E>, sha1Hex: string)
    ensures var s := SavedPasswordScan(content, message, url, sha1Hex);
      RiskService.Tally(history + [s], "password", "prediction", RiskService.PasswordFlags)
      == RiskService.Tally(history, "password", "prediction", RiskService.PasswordFlags)
         + (if CheckPasswordSafety(sha1Hex).safetyStatus == Compromised then 1 else 0)
    ensures CheckPasswordSafety(sha1Hex).safetyStatus == Safe ==>
      RiskService.IntendedPasswordRisk(history + [SavedPasswordScan(content, message, url, sha1Hex)])
      == RiskService.IntendedPasswordRisk(history)
  {
    var s := SavedPasswordScan(content, message, url, sha1Hex);
    assert RiskService.Flags(s.result, "prediction", RiskService.PasswordFlags)
      <==> CheckPasswordSafety(sha1Hex).safetyStatus == Compromised;
    RiskService.TallyOfNewScan(history, s, "password", "prediction", RiskService.PasswordFlags);
  }
}
