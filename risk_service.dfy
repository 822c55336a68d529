/**
 * The account risk score: four factors in [0, 1] from the user's scan history, their fixed
 * weighted sum on a 0-100 scale, the green/yellow/red status bands, the even split of the
 * scans over the three platforms, and the recommendations the factors trigger.
 *
 * The database is outside this module: the scan history is an input, and so is the number
 * of `email` scans the breach factor's query counts.
 */
module RiskService {
  import opened Checklist

  // ---------------------------------------------------------------------------------------
  // Scan history

  /** A stored scan result: a dictionary of string entries, or a value that is not a dictionary. */
  datatype ScanResult = Fields(fields: map<string, string>) | NotADict

  /** A row of the scan history; a row without a result reads as an empty dictionary. */
  datatype ScanRecord = ScanRecord(scanType: string, result: ScanResult)

  /** `isinstance(result, dict) and result.get(key) in values` */
  predicate Flags(result: ScanResult, key: string, values: set<string>) {
    result.Fields? && key in result.fields && result.fields[key] in values
  }

  /** `[scan for scan in scan_history if scan['scan_type'] == scanType]` */
  function OfType(history: seq<ScanRecord>, scanType: string): (r: seq<ScanRecord>)
    ensures |r| <= |history|
  {
    if history == [] then []
    else
      var n := |history| - 1;
      OfType(history[..n], scanType) + (if history[n].scanType == scanType then [history[n]] else [])
  }

  /** The counter of the loop: how many of `scans` have a flagged result. */
  function Flagged(scans: seq<ScanRecord>, key: string, values: set<string>): (n: nat)
    ensures n <= |scans|
  {
    if scans == [] then 0
    else
      var n := |scans| - 1;
      Flagged(scans[..n], key, values) + (if Flags(scans[n].result, key, values) then 1 else 0)
  }

  /** How many scans of the history are of type `scanType` and have a flagged result. */
  function Tally(history: seq<ScanRecord>, scanType: string, key: string, values: set<string>): (n: nat)
    ensures n <= |history|
  {
    if history == [] then 0
    else
      var n := |history| - 1;
      var last := history[n];
      Tally(history[..n], scanType, key, values)
      + (if last.scanType == scanType && Flags(last.result, key, values) then 1 else 0)
  }

  /** Counting the flagged results among the scans of one type is the tally of that type. */
  lemma {:induction false} TallyIsFlaggedOfType(history: seq<ScanRecord>, scanType: string, key: string, values: set<string>)
    ensures Tally(history, scanType, key, values) == Flagged(OfType(history, scanType), key, values)
  {
    if history != [] {
      var n := |history| - 1;
      var front := OfType(history[..n], scanType);
      var last := history[n];
      TallyIsFlaggedOfType(history[..n], scanType, key, values);
      if last.scanType == scanType {
        var all := front + [last];
        assert OfType(history, scanType) == all;
        assert all[..|front|] == front;
        assert Flagged(all, key, values) == Flagged(front, key, values) + (if Flags(last.result, key, values) then 1 else 0);
      } else {
        assert OfType(history, scanType) == front + [] == front;
      }
    }
  }

  /** A history without scans of the type has a zero tally for it. */
  lemma {:induction false} NoScansOfTypeTallyZero(history: seq<ScanRecord>, scanType: string, key: string, values: set<string>)
    requires OfType(history, scanType) == []
    ensures Tally(history, scanType, key, values) == 0
  {
    TallyIsFlaggedOfType(history, scanType, key, values);
  }

  /** A new scan raises the tally by one exactly when it has the type and a flagged result. */
  lemma TallyOfNewScan(history: seq<ScanRecord>, s: ScanRecord, scanType: string, key: string, values: set<string>)
    ensures Tally(history + [s], scanType, key, values)
      == Tally(history, scanType, key, values) + (if s.scanType == scanType && Flags(s.result, key, values) then 1 else 0)
  {
    assert (history + [s])[..|history|] == history;
  }

  // ---------------------------------------------------------------------------------------
  // Factors

  /** `min(count / cap, 1.0)` */
  function Factor(count: nat, cap: nat): (r: real)
    requires cap > 0
    ensures 0.0 <= r <= 1.0
    ensures r == 1.0 <==> count >= cap
    ensures count < cap ==> r == count as real / cap as real
  {
    var ratio := count as real / cap as real;
    RatioReachesOne(count, cap);
    if 1.0 < ratio then 1.0 else ratio
  }

  /** Against a positive scale `d`, a real `x` and its product `x * d` have the same sign. */
  lemma ProductSign(x: real, d: real)
    requires d > 0.0
    ensures x >= 0.0 <==> x * d >= 0.0
  {
    if x >= 0.0 {
      assert x * d >= 0.0;
    } else {
      assert x * d < 0.0;
    }
  }

  /** `count / cap` is non-negative and reaches 1 exactly when `count` reaches `cap`. */
  lemma RatioReachesOne(count: nat, cap: nat)
    requires cap > 0
    ensures 0.0 <= count as real / cap as real
    ensures count as real / cap as real >= 1.0 <==> count >= cap
  {
    var c, d := count as real, cap as real;
    var q := c / d;
    assert q * d == c;
    ProductSign(q, d);
    assert (q - 1.0) * d == c - d;
    ProductSign(q - 1.0, d);
  }

  /** A factor never decreases as its count grows. */
  lemma FactorMonotone(smaller: nat, larger: nat, cap: nat)
    requires cap > 0
    requires smaller <= larger
    ensures Factor(smaller, cap) <= Factor(larger, cap)
  {
    var d := cap as real;
    var a, b := smaller as real / d, larger as real / d;
    assert a * d == smaller as real && b * d == larger as real;
    assert (b - a) * d == larger as real - smaller as real;
    ProductSign(b - a, d);
  }

  const UrlFlags: set<string> := {"malicious", "scam"}
  const MessageFlags: set<string> := {"suspicious", "scam"}
  const PasswordFlags: set<string> := {"compromised"}

  /** `_calculate_breach_risk`: the number of `email` scans over 10, capped at 1. */
  function BreachRisk(emailScanCount: nat): real {
    Factor(emailScanCount, 10)
  }

  /** `_calculate_url_risk`: `url` scans predicted `malicious` or `scam`, over 5, capped at 1. */
  function UrlRisk(history: seq<ScanRecord>): real {
    Factor(Tally(history, "url", "prediction", UrlFlags), 5)
  }

  /** `_calculate_message_risk`: `message` scans predicted `suspicious` or `scam`, over 10, capped at 1. */
  function MessageRisk(history: seq<ScanRecord>): real {
    Factor(Tally(history, "message", "prediction", MessageFlags), 10)
  }

  /** `_calculate_password_risk`: `password` scans found `compromised`, over 3, capped at 1. */
  function PasswordRisk(history: seq<ScanRecord>): real {
    Factor(Tally(history, "password", "safety_status", PasswordFlags), 3)
  }

  /**
   * The password factor as evidently intended: `password` scans whose saved `prediction` is
   * `compromised`, over 3, capped at 1. A saved password scan's `prediction` is its report's
   * safety status; the report itself, `safety_status` included, sits under `details`.
   */
  function IntendedPasswordRisk(history: seq<ScanRecord>): real {
    Factor(Tally(history, "password", "prediction", PasswordFlags), 3)
  }

  /**
   * The loop the three history factors share: keep the scans of one type, return 0 when there
   * are none, and otherwise count those whose result is flagged and cap the ratio at 1.
   */
  method CountingRisk(scanHistory: seq<ScanRecord>, scanType: string, key: string, values: set<string>, cap: nat)
    returns (risk: real)
    requires cap > 0
    ensures risk == Factor(Tally(scanHistory, scanType, key, values), cap)
  {
    var scans := OfType(scanHistory, scanType);
    if |scans| == 0 {
      NoScansOfTypeTallyZero(scanHistory, scanType, key, values);
      return 0.0;
    }
    var count := 0;
    var i := 0;
    while i < |scans|
      invariant 0 <= i <= |scans|
      invariant count == Flagged(scans[..i], key, values)
    {
      var result := scans[i].result;
      if result.Fields? && key in result.fields && result.fields[key] in values {
        count := count + 1;
      }
      assert scans[..i + 1][..i] == scans[..i];
      i := i + 1;
    }
    assert scans[..i] == scans;
    TallyIsFlaggedOfType(scanHistory, scanType, key, values);
    risk := Factor(count, cap);
  }

  method CalculateUrlRisk(scanHistory: seq<ScanRecord>) returns (risk: real)
    ensures risk == UrlRisk(scanHistory)
  {
    risk := CountingRisk(scanHistory, "url", "prediction", UrlFlags, 5);
  }

  method CalculateMessageRisk(scanHistory: seq<ScanRecord>) returns (risk: real)
    ensures risk == MessageRisk(scanHistory)
  {
    risk := CountingRisk(scanHistory, "message", "prediction", MessageFlags, 10);
  }

  method CalculatePasswordRisk(scanHistory: seq<ScanRecord>) returns (risk: real)
    ensures risk == PasswordRisk(scanHistory)
  {
    risk := CountingRisk(scanHistory, "password", "safety_status", PasswordFlags, 3);
  }

  /** Every factor lies in [0, 1], and reaches 1 exactly at its cap of 10, 5, 10 and 3 counted scans. */
  lemma FactorsInUnitRange(emailScanCount: nat, history: seq<ScanRecord>)
    ensures 0.0 <= BreachRisk(emailScanCount) <= 1.0
    ensures 0.0 <= UrlRisk(history) <= 1.0
    ensures 0.0 <= MessageRisk(history) <= 1.0
    ensures 0.0 <= PasswordRisk(history) <= 1.0
    ensures BreachRisk(emailScanCount) == 1.0 <==> emailScanCount >= 10
    ensures UrlRisk(history) == 1.0 <==> Tally(history, "url", "prediction", UrlFlags) >= 5
    ensures MessageRisk(history) == 1.0 <==> Tally(history, "message", "prediction", MessageFlags) >= 10
    ensures PasswordRisk(history) == 1.0 <==> Tally(history, "password", "safety_status", PasswordFlags) >= 3
  {
  }

  /**
   * A new scan changes a history factor only when it has that factor's type and a flagged
   * result: a `url` scan predicted `suspicious`, a scan of another type, or a result that is
   * not a dictionary leaves the factor as it was.
   */
  lemma NewScanCounts(history: seq<ScanRecord>, s: ScanRecord)
    ensures UrlRisk(history + [s]) == UrlRisk(history)
      || (s.scanType == "url" && Flags(s.result, "prediction", UrlFlags))
    ensures MessageRisk(history + [s]) == MessageRisk(history)
      || (s.scanType == "message" && Flags(s.result, "prediction", MessageFlags))
    ensures PasswordRisk(history + [s]) == PasswordRisk(history)
      || (s.scanType == "password" && Flags(s.result, "safety_status", PasswordFlags))
    ensures s.scanType == "url" && Flags(s.result, "prediction", UrlFlags) ==>
      Tally(history + [s], "url", "prediction", UrlFlags) == Tally(history, "url", "prediction", UrlFlags) + 1
    ensures s.scanType == "message" && Flags(s.result, "prediction", MessageFlags) ==>
      Tally(history + [s], "message", "prediction", MessageFlags) == Tally(history, "message", "prediction", MessageFlags) + 1
    ensures s.scanType == "password" && Flags(s.result, "safety_status", PasswordFlags) ==>
      Tally(history + [s], "password", "safety_status", PasswordFlags)
      == Tally(history, "password", "safety_status", PasswordFlags) + 1
  {
    TallyOfNewScan(history, s, "url", "prediction", UrlFlags);
    TallyOfNewScan(history, s, "message", "prediction", MessageFlags);
    TallyOfNewScan(history, s, "password", "safety_status", PasswordFlags);
  }

  /** A `url` scan predicted `suspicious` does not count toward the URL factor. */
  lemma SuspiciousUrlNotCounted(history: seq<ScanRecord>)
    ensures UrlRisk(history + [ScanRecord("url", Fields(map["prediction" := "suspicious"]))]) == UrlRisk(history)
  {
    var s := ScanRecord("url", Fields(map["prediction" := "suspicious"]));
    assert !Flags(s.result, "prediction", UrlFlags);
    TallyOfNewScan(history, s, "url", "prediction", UrlFlags);
  }

  // ---------------------------------------------------------------------------------------
  // Weighted score and status

  const BreachWeight: real := 0.3
  const UrlWeight: real := 0.25
  const MessageWeight: real := 0.25
  const PasswordWeight: real := 0.2

  /** The weights of `self.weights` add up to 1. */
  lemma WeightsSumToOne()
    ensures BreachWeight + UrlWeight + MessageWeight + PasswordWeight == 1.0
  {
  }

  /** The weighted sum of the four factors, on a 0-100 scale. */
  function WeightedScore(breach: real, url: real, message: real, password: real): real {
    (breach * BreachWeight + url * UrlWeight + message * MessageWeight + password * PasswordWeight) * 100.0
  }

  /**
   * With every factor in [0, 1] the score lies in [0, 100]; it is 0 when every factor is 0,
   * 100 when every factor is 1, and it never decreases when a factor grows.
   */
  lemma ScoreBounds(breach: real, url: real, message: real, password: real)
    requires 0.0 <= breach <= 1.0 && 0.0 <= url <= 1.0 && 0.0 <= message <= 1.0 && 0.0 <= password <= 1.0
    ensures 0.0 <= WeightedScore(breach, url, message, password) <= 100.0
    ensures WeightedScore(0.0, 0.0, 0.0, 0.0) == 0.0
    ensures WeightedScore(1.0, 1.0, 1.0, 1.0) == 100.0
  {
  }

  /** Raising any one factor never lowers the score. */
  lemma ScoreMonotone(b: real, u: real, m: real, p: real, b': real, u': real, m': real, p': real)
    requires b <= b' && u <= u' && m <= m' && p <= p'
    ensures WeightedScore(b, u, m, p) <= WeightedScore(b', u', m', p')
  {
  }

  datatype Status = Green | Yellow | Red {
    function Name(): string {
      match this
      case Green => "green"
      case Yellow => "yellow"
      case Red => "red"
    }

    function Level(): nat {
      match this
      case Green => 0
      case Yellow => 1
      case Red => 2
    }
  }

  /** `_determine_status` */
  function DetermineStatus(score: real): (s: Status)
    ensures s == Green <==> score < 30.0
    ensures s == Yellow <==> 30.0 <= score < 70.0
    ensures s == Red <==> 70.0 <= score
  {
    if score < 30.0 then Green
    else if score < 70.0 then Yellow
    else Red
  }

  /** A higher score never gives a milder status. */
  lemma StatusMonotone(score: real, higher: real)
    requires score <= higher
    ensures DetermineStatus(score).Level() <= DetermineStatus(higher).Level()
  {
  }

  // ---------------------------------------------------------------------------------------
  // Platform insights

  datatype PlatformStats = PlatformStats(scans: nat, risks: real)

  /**
   * The scans of the history shared out over android, web and the browser extension in
   * integer arithmetic, the first platforms taking the remainder; each platform's `risks`
   * is a third when there is a scan at all.
   */
  function PlatformSplit(total: nat): (p: map<string, PlatformStats>)
    ensures p.Keys == {"android", "web", "browser_extension"}
    ensures p["android"].scans + p["web"].scans + p["browser_extension"].scans == total
    ensures p["android"].scans >= p["web"].scans >= p["browser_extension"].scans >= p["android"].scans - 1
    ensures total == 0 ==> forall k :: k in p ==> p[k] == PlatformStats(0, 0.0)
    ensures total > 0 ==> forall k :: k in p ==> p[k].risks == 1.0 / 3.0
  {
    if total == 0 then
      map["android" := PlatformStats(0, 0.0), "web" := PlatformStats(0, 0.0),
          "browser_extension" := PlatformStats(0, 0.0)]
    else
      var share := total / 3;
      var remainder := total % 3;
      map["android" := PlatformStats(share + (if remainder > 0 then 1 else 0), 1.0 / 3.0),
          "web" := PlatformStats(share + (if remainder > 1 then 1 else 0), 1.0 / 3.0),
          "browser_extension" := PlatformStats(share, 1.0 / 3.0)]
  }

  /** `_get_platform_insights`, updating the zeroed entries in place when there are scans. */
  method GetPlatformInsights(scanHistory: seq<ScanRecord>) returns (platforms: map<string, PlatformStats>)
    ensures platforms == PlatformSplit(|scanHistory|)
  {
    platforms := map["android" := PlatformStats(0, 0.0), "web" := PlatformStats(0, 0.0),
                     "browser_extension" := PlatformStats(0, 0.0)];
    var totalScans := |scanHistory|;
    if totalScans > 0 {
      var scansPerPlatform := totalScans / 3;
      var remainder := totalScans % 3;
      platforms := platforms["android" := platforms["android"].(scans := scansPerPlatform + (if remainder > 0 then 1 else 0))];
      platforms := platforms["web" := platforms["web"].(scans := scansPerPlatform + (if remainder > 1 then 1 else 0))];
      platforms := platforms["browser_extension" := platforms["browser_extension"].(scans := scansPerPlatform)];
      var riskPerPlatform := 1.0 / 3.0;
      platforms := platforms["android" := platforms["android"].(risks := riskPerPlatform)];
      platforms := platforms["web" := platforms["web"].(risks := riskPerPlatform)];
      platforms := platforms["browser_extension" := platforms["browser_extension"].(risks := riskPerPlatform)];
    }
  }

  // ---------------------------------------------------------------------------------------
  // Recommendations

  /** The lines `_generate_recommendations` can give. */
  datatype Advice = ReviewAccounts | CautiousLinks | ScamDetection | PasswordManager | GoodHabits | KeepLearning
  {
    function Text(): string {
      match this
      case ReviewAccounts => "Review your accounts for data breaches and change passwords"
      case CautiousLinks => "Be cautious when clicking links, especially in emails or messages"
      case ScamDetection => "Enable scam detection on all messaging platforms"
      case PasswordManager => "Use a password manager and enable two-factor authentication"
      case GoodHabits => "Continue practicing good cybersecurity habits"
      case KeepLearning => "Regularly update your security knowledge"
    }
  }

  /** The factor-specific lines, in factor order; the two generic lines come after. */
  function AdviceRank(a: Advice): int {
    match a
    case ReviewAccounts => 0
    case CautiousLinks => 1
    case ScamDetection => 2
    case PasswordManager => 3
    case GoodHabits => 4
    case KeepLearning => 5
  }

  /** The line of every factor that is high, in factor order. */
  function FactorAdvice(breachHigh: bool, urlHigh: bool, messageHigh: bool, passwordHigh: bool): seq<Advice> {
    [] + Opt(breachHigh, ReviewAccounts) + Opt(urlHigh, CautiousLinks)
    + Opt(messageHigh, ScamDetection) + Opt(passwordHigh, PasswordManager)
  }

  /** The factor lines, or the two generic lines when no factor is high. */
  function WithGeneric(advice: seq<Advice>): seq<Advice> {
    if advice == [] then [GoodHabits, KeepLearning] else advice
  }

  /** `_generate_recommendations`: a factor is high above one half. */
  function Recommendations(breach: real, url: real, message: real, password: real): seq<Advice> {
    WithGeneric(FactorAdvice(breach > 0.5, url > 0.5, message > 0.5, password > 0.5))
  }

  /** `_generate_recommendations`, appending a line per factor above one half. */
  method GenerateRecommendations(breachRisk: real, urlRisk: real, messageRisk: real, passwordRisk: real)
    returns (recommendations: seq<Advice>)
    ensures recommendations == Recommendations(breachRisk, urlRisk, messageRisk, passwordRisk)
  {
    recommendations := [];
    if breachRisk > 0.5 {
      recommendations := recommendations + [ReviewAccounts];
    }
    assert recommendations == [] + Opt(breachRisk > 0.5, ReviewAccounts);
    if urlRisk > 0.5 {
      recommendations := recommendations + [CautiousLinks];
    }
    assert recommendations == [] + Opt(breachRisk > 0.5, ReviewAccounts) + Opt(urlRisk > 0.5, CautiousLinks);
    if messageRisk > 0.5 {
      recommendations := recommendations + [ScamDetection];
    }
    assert recommendations == [] + Opt(breachRisk > 0.5, ReviewAccounts) + Opt(urlRisk > 0.5, CautiousLinks)
      + Opt(messageRisk > 0.5, ScamDetection);
    if passwordRisk > 0.5 {
      recommendations := recommendations + [PasswordManager];
    }
    assert recommendations == FactorAdvice(breachRisk > 0.5, urlRisk > 0.5, messageRisk > 0.5, passwordRisk > 0.5);
    if recommendations == [] {
      recommendations := recommendations + [GoodHabits];
      recommendations := recommendations + [KeepLearning];
    }
  }

  /** Whichever factors are high, the lines come in factor order. */
  lemma AdviceRanked(b: bool, u: bool, m: bool, p: bool)
    ensures Ranked(WithGeneric(FactorAdvice(b, u, m, p)), AdviceRank)
  {
    var none: seq<Advice> := [];
    RankedSnoc(none, b, ReviewAccounts, AdviceRank);
    RankedSnoc(none + Opt(b, ReviewAccounts), u, CautiousLinks, AdviceRank);
    RankedSnoc(none + Opt(b, ReviewAccounts) + Opt(u, CautiousLinks), m, ScamDetection, AdviceRank);
    RankedSnoc(none + Opt(b, ReviewAccounts) + Opt(u, CautiousLinks) + Opt(m, ScamDetection),
      p, PasswordManager, AdviceRank);
    var fallback := [GoodHabits, KeepLearning];
    assert Ranked(fallback, AdviceRank);
  }

  /** The recommendation list for every combination of high factors. */
  lemma AdviceMembers(b: bool, u: bool, m: bool, p: bool)
    ensures 1 <= |WithGeneric(FactorAdvice(b, u, m, p))| <= 4
    ensures ReviewAccounts in WithGeneric(FactorAdvice(b, u, m, p)) <==> b
    ensures CautiousLinks in WithGeneric(FactorAdvice(b, u, m, p)) <==> u
    ensures ScamDetection in WithGeneric(FactorAdvice(b, u, m, p)) <==> m
    ensures PasswordManager in WithGeneric(FactorAdvice(b, u, m, p)) <==> p
    ensures GoodHabits in WithGeneric(FactorAdvice(b, u, m, p)) <==> !b && !u && !m && !p
    ensures GoodHabits in WithGeneric(FactorAdvice(b, u, m, p)) ==>
      WithGeneric(FactorAdvice(b, u, m, p)) == [GoodHabits, KeepLearning]
  {
  }

  /**
   * The list is never empty and has at most four lines, in factor order; each factor's line
   * is there exactly when the factor exceeds one half, and the two generic lines are there
   * exactly when no factor does, and then alone.
   */
  lemma RecommendationsShape(breach: real, url: real, message: real, password: real)
    ensures 1 <= |Recommendations(breach, url, message, password)| <= 4
    ensures Ranked(Recommendations(breach, url, message, password), AdviceRank)
    ensures ReviewAccounts in Recommendations(breach, url, message, password) <==> breach > 0.5
    ensures CautiousLinks in Recommendations(breach, url, message, password) <==> url > 0.5
    ensures ScamDetection in Recommendations(breach, url, message, password) <==> message > 0.5
    ensures PasswordManager in Recommendations(breach, url, message, password) <==> password > 0.5
    ensures GoodHabits in Recommendations(breach, url, message, password) <==>
      breach <= 0.5 && url <= 0.5 && message <= 0.5 && password <= 0.5
    ensures GoodHabits in Recommendations(breach, url, message, password) ==>
      Recommendations(breach, url, message, password) == [GoodHabits, KeepLearning]
  {
    AdviceRanked(breach > 0.5, url > 0.5, message > 0.5, password > 0.5);
    AdviceMembers(breach > 0.5, url > 0.5, message > 0.5, password > 0.5);
  }

  // ---------------------------------------------------------------------------------------
  // The whole report

  datatype FactorEntry = FactorEntry(score: real, weight: real)

  /** The report of `calculate_risk_score`, without its rounding and its time stamp. */
  datatype RiskReport = RiskReport(
    score: real, status: Status,
    breach: FactorEntry, urls: FactorEntry, messages: FactorEntry, passwords: FactorEntry,
    platforms: map<string, PlatformStats>, recommendations: seq<Advice>)

  /** `calculate_risk_score` for a scan history and the number of `email` scans in the database. */
  method CalculateRiskScore(emailScanCount: nat, scanHistory: seq<ScanRecord>) returns (report: RiskReport)
    ensures report.breach == FactorEntry(BreachRisk(emailScanCount), BreachWeight)
    ensures report.urls == FactorEntry(UrlRisk(scanHistory), UrlWeight)
    ensures report.messages == FactorEntry(MessageRisk(scanHistory), MessageWeight)
    ensures report.passwords == FactorEntry(PasswordRisk(scanHistory), PasswordWeight)
    ensures report.score == WeightedScore(report.breach.score, report.urls.score, report.messages.score, report.passwords.score)
    ensures 0.0 <= report.score <= 100.0
    ensures report.status == DetermineStatus(report.score)
    ensures report.platforms == PlatformSplit(|scanHistory|)
    ensures report.recommendations
      == Recommendations(report.breach.score, report.urls.score, report.messages.score, report.passwords.score)
  {
    var breachRisk := BreachRisk(emailScanCount);
    var urlRisk := CalculateUrlRisk(scanHistory);
    var messageRisk := CalculateMessageRisk(scanHistory);
    var passwordRisk := CalculatePasswordRisk(scanHistory);
    var riskScore := WeightedScore(breachRisk, urlRisk, messageRisk, passwordRisk);
    FactorsInUnitRange(emailScanCount, scanHistory);
    ScoreBounds(breachRisk, urlRisk, messageRisk, passwordRisk);
    var status := DetermineStatus(riskScore);
    var platformInsights := GetPlatformInsights(scanHistory);
    var recommendations := GenerateRecommendations(breachRisk, urlRisk, messageRisk, passwordRisk);
    report := RiskReport(
      riskScore, status,
      FactorEntry(breachRisk, BreachWeight), FactorEntry(urlRisk, UrlWeight),
      FactorEntry(messageRisk, MessageWeight), FactorEntry(passwordRisk, PasswordWeight),
      platformInsights, recommendations);
  }

  /** A history made only of flagged scans of one type tallies every scan. */
  lemma {:induction false} AllFlaggedTally(history: seq<ScanRecord>, scanType: string, key: string, values: set<string>)
    requires forall i :: 0 <= i < |history| ==> history[i].scanType == scanType && Flags(history[i].result, key, values)
    ensures Tally(history, scanType, key, values) == |history|
  {
    if history != [] {
      var n := |history| - 1;
      assert forall i :: 0 <= i < n ==> history[..n][i] == history[i];
      AllFlaggedTally(history[..n], scanType, key, values);
    }
  }

  /** A history without scans of a type tallies nothing for it. */
  lemma {:induction false} OtherTypesTally(history: seq<ScanRecord>, scanType: string, key: string, values: set<string>)
    requires forall i :: 0 <= i < |history| ==> history[i].scanType != scanType
    ensures Tally(history, scanType, key, values) == 0
  {
    if history != [] {
      var n := |history| - 1;
      assert forall i :: 0 <= i < n ==> history[..n][i] == history[i];
      OtherTypesTally(history[..n], scanType, key, values);
    }
  }

  /**
   * Ten `url` scans predicted `malicious` and nothing else: the URL factor is capped at 1,
   * every other factor is 0, and the score is 0.25 * 100 = 25, which is green.
   */
  lemma TenMaliciousUrlsScoreTwentyFive()
    ensures var history := seq(10, _ => ScanRecord("url", Fields(map["prediction" := "malicious"])));
      && UrlRisk(history) == 1.0
      && MessageRisk(history) == 0.0 && PasswordRisk(history) == 0.0
      && WeightedScore(BreachRisk(0), UrlRisk(history), MessageRisk(history), PasswordRisk(history)) == 25.0
      && DetermineStatus(25.0) == Green
  {
    var scan := ScanRecord("url", Fields(map["prediction" := "malicious"]));
    var history := seq(10, _ => scan);
    assert Flags(scan.result, "prediction", UrlFlags);
    AllFlaggedTally(history, "url", "prediction", UrlFlags);
    OtherTypesTally(history, "message", "prediction", MessageFlags);
    OtherTypesTally(history, "password", "safety_status", PasswordFlags);
  }

  /** An empty history with no `email` scans scores 0, is green, and gets the two generic lines. */
  lemma EmptyHistoryIsGreen()
    ensures WeightedScore(BreachRisk(0), UrlRisk([]), MessageRisk([]), PasswordRisk([])) == 0.0
    ensures DetermineStatus(0.0) == Green
    ensures Recommendations(BreachRisk(0), UrlRisk([]), MessageRisk([]), PasswordRisk([])) == [GoodHabits, KeepLearning]
  {
  }
}
