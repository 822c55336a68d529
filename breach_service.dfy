/**
 * The breach service: the case-insensitive lookup of an e-mail address in the mock breach
 * table, the risk level of a breach count, and the password check that looks up a key
 * derived from the upper-case hexadecimal SHA-1 digest of the password in the mock table of
 * compromised hashes, with the advice for a compromise count.
 *
 * The digest itself is an input: `sha1Hex` stands for `hashlib.sha1(...).hexdigest().upper()`.
 */
module BreachService {
  import opened Text

  // ---------------------------------------------------------------------------------------
  // E-mail breaches

  /** One entry of the breach table. */
  datatype Breach = Breach(name: string, date: string, count: nat)

  /** `self.mock_breaches`, keyed by lower-case address. */
  const MockBreaches: map<string, seq<Breach>> := map[
    "compromised@example.com" := [
      Breach("LinkedIn Breach 2021", "2021-06-15", 7500000),
      Breach("Adobe Breach 2013", "2013-10-04", 152445165)],
    "test@example.com" := [
      Breach("Mock Data Breach", "2022-01-01", 10000)]]

  datatype RiskLevel = Low | Medium | High {
    function Name(): string {
      match this
      case Low => "low"
      case Medium => "medium"
      case High => "high"
    }

    function Level(): nat {
      match this
      case Low => 0
      case Medium => 1
      case High => 2
    }
  }

  /** `_calculate_breach_risk` */
  function CalculateBreachRisk(breachCount: int): (r: RiskLevel)
    ensures r == Low <==> breachCount == 0
    ensures r == Medium <==> breachCount != 0 && breachCount <= 2
    ensures r == High <==> breachCount > 2
  {
    if breachCount == 0 then Low
    else if breachCount <= 2 then Medium
    else High
  }

  /** More breaches never give a lower risk level. */
  lemma BreachRiskMonotone(smaller: nat, larger: nat)
    requires smaller <= larger
    ensures CalculateBreachRisk(smaller).Level() <= CalculateBreachRisk(larger).Level()
  {
  }

  /** The record `check_email_breaches` returns. */
  datatype EmailReport = EmailReport(email: string, breachCount: nat, breaches: seq<Breach>, riskLevel: RiskLevel)

  /** `check_email_breaches` */
  function CheckEmailBreaches(email: string): (r: EmailReport)
    ensures r.email == email
    ensures r.breachCount == |r.breaches|
    ensures r.riskLevel == CalculateBreachRisk(r.breachCount)
  {
    var key := ToLower(email);
    var breaches := if key in MockBreaches then MockBreaches[key] else [];
    EmailReport(email, |breaches|, breaches, CalculateBreachRisk(|breaches|))
  }

  /** Two addresses that agree up to letter case get the same breaches. */
  lemma EmailLookupIgnoresCase(a: string, b: string)
    requires ToLower(a) == ToLower(b)
    ensures CheckEmailBreaches(a).breaches == CheckEmailBreaches(b).breaches
    ensures CheckEmailBreaches(a).riskLevel == CheckEmailBreaches(b).riskLevel
  {
  }

  /**
   * An address is reported with breaches exactly when its lower-case form is a key of the
   * table; an unknown address has no breaches, a count of 0 and a `low` risk level.
   */
  lemma UnknownEmailIsLowRisk(email: string)
    ensures CheckEmailBreaches(email).breachCount > 0 <==> ToLower(email) in MockBreaches
    ensures ToLower(email) !in MockBreaches ==>
      CheckEmailBreaches(email).breaches == [] && CheckEmailBreaches(email).riskLevel == Low
  {
  }

  /** An upper-case spelling of a listed address finds its two breaches, a `medium` risk. */
  lemma UpperCaseAddressIsFound()
    ensures CheckEmailBreaches("Compromised@Example.COM").breachCount == 2
    ensures CheckEmailBreaches("Compromised@Example.COM").riskLevel == Medium
  {
    assert ToLower("Compromised@Example.COM") == "compromised@example.com";
  }

  // ---------------------------------------------------------------------------------------
  // Password safety

  /** The mock table of compromised hashes, keyed by six hexadecimal digits. */
  const MockPwnedHashes: map<string, nat> := map["CBFDAC" := 5, "71E2F0" := 3]

  datatype SafetyStatus = Compromised | Safe {
    function Name(): string {
      match this
      case Compromised => "compromised"
      case Safe => "safe"
    }
  }

  const NotFoundAdvice := "Your password was not found in known data breaches. Good job!"
  const FewBreachesAdvice := "Your password has appeared in a few data breaches. Consider changing it."
  const ManyBreachesAdvice := "Your password has appeared in many data breaches! Change it immediately and never reuse it."

  /** `_get_password_recommendation`: one line for 0, one for 1 to 10 and one for more. */
  function PasswordRecommendation(compromiseCount: int): (r: string)
    ensures r == NotFoundAdvice <==> compromiseCount == 0
    ensures r == FewBreachesAdvice <==> compromiseCount != 0 && compromiseCount <= 10
    ensures r == ManyBreachesAdvice <==> compromiseCount > 10
  {
    if compromiseCount == 0 then NotFoundAdvice
    else if compromiseCount <= 10 then FewBreachesAdvice
    else ManyBreachesAdvice
  }

  /** The record `check_password_safety` returns. */
  datatype PasswordReport = PasswordReport(
    passwordHashPrefix: string, compromisedCount: nat, safetyStatus: SafetyStatus, recommendation: string)

  /** The report for the count found under a lookup key; the reported prefix is the first five digits. */
  function PasswordReportFor(sha1Hex: string, count: nat): (r: PasswordReport)
    ensures r.passwordHashPrefix == Take(sha1Hex, 5)
    ensures r.compromisedCount == count
    ensures r.safetyStatus == Compromised <==> count > 0
    ensures r.recommendation == PasswordRecommendation(count)
  {
    PasswordReport(Take(sha1Hex, 5), count, if count > 0 then Compromised else Safe, PasswordRecommendation(count))
  }

  /** `mock_pwned_hashes.get(key, 0)` */
  function PwnedCount(key: string): nat {
    if key in MockPwnedHashes then MockPwnedHashes[key] else 0
  }

  /** `check_password_safety` as written: the key is `prefix[:6]` of the five-digit prefix. */
  function CheckPasswordSafetyAsWritten(sha1Hex: string): (r: PasswordReport)
    ensures r.safetyStatus == Compromised <==> r.compromisedCount > 0
  {
    var prefix := Take(sha1Hex, 5);
    PasswordReportFor(sha1Hex, PwnedCount(Take(prefix, 6)))
  }

  /**
   * The key of the code as written has at most five characters and every key of the table
   * has six, so no digest is ever found: the count is always 0 and the status `safe`.
   */
  lemma AsWrittenNeverCompromised(sha1Hex: string)
    ensures CheckPasswordSafetyAsWritten(sha1Hex).compromisedCount == 0
    ensures CheckPasswordSafetyAsWritten(sha1Hex).safetyStatus == Safe
    ensures CheckPasswordSafetyAsWritten(sha1Hex).recommendation == NotFoundAdvice
  {
    var key := Take(Take(sha1Hex, 5), 6);
    assert |key| <= 5;
    assert forall k :: k in MockPwnedHashes ==> |k| == 6;
    assert key !in MockPwnedHashes;
  }

  /** A digest that begins with a listed key is not found by the code as written. */
  lemma AsWrittenMissesListedDigest(rest: string)
    ensures CheckPasswordSafetyAsWritten("CBFDAC" + rest).safetyStatus == Safe
  {
    AsWrittenNeverCompromised("CBFDAC" + rest);
  }

  /** `check_password_safety` with the six-digit key the table is keyed by, `sha1_hash[:6]`. */
  function CheckPasswordSafety(sha1Hex: string): (r: PasswordReport)
    ensures r.passwordHashPrefix == Take(sha1Hex, 5)
    ensures r.safetyStatus == Compromised <==> r.compromisedCount > 0
  {
    PasswordReportFor(sha1Hex, PwnedCount(Take(sha1Hex, 6)))
  }

  /**
   * A digest is compromised exactly when its first six digits are a key of the table, and
   * then the count is the table's count for that key.
   */
  lemma CompromisedIffListed(sha1Hex: string)
    ensures CheckPasswordSafety(sha1Hex).safetyStatus == Compromised <==> Take(sha1Hex, 6) in MockPwnedHashes
    ensures Take(sha1Hex, 6) in MockPwnedHashes ==>
      CheckPasswordSafety(sha1Hex).compromisedCount == MockPwnedHashes[Take(sha1Hex, 6)]
  {
  }

  /** The digests the code as written misses are found, five times, with the six-digit key. */
  lemma ListedDigestIsCompromised(rest: string)
    ensures CheckPasswordSafety("CBFDAC" + rest).compromisedCount == 5
    ensures CheckPasswordSafety("CBFDAC" + rest).safetyStatus == Compromised
    ensures CheckPasswordSafety("CBFDAC" + rest).recommendation == FewBreachesAdvice
  {
    var digest := "CBFDAC" + rest;
    assert digest[..6] == "CBFDAC";
  }
}
