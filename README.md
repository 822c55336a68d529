# Digital safety assistant: scoring and explanation core

A Dafny model of the deterministic logic around the machine-learning models of the
AI-powered personal digital safety assistant. The model covers:

- the URL classifier's 18-entry feature vector, its threshold concerns and its rule-based reasons;
- the message classifier's preprocessing, its seven-rule text explanation, the prediction
  record built from a model's output, and the top-word selection over a weight vector;
- the per-scan risk scores of the scan endpoint and its dispatch on the scan type;
- the account risk aggregation: four capped history factors, the weighted score, the
  green/yellow/red status, the platform split and the recommendations;
- the breach service's e-mail lookup, risk bands and password check;
- the privacy decision `save_scan_result` makes before it stores a scan.

Modules follow the program: `UrlClassifier`, `MessageClassifier` and `Prediction` (the
`predict` glue both classifiers share) for `backend/models`; `RiskService` and `BreachService`
for `backend/services`; `ScanRoutes` for `backend/routes/scan_routes.py`; `ScanStorage` for the
preview rule of `backend/utils/database.py`. `Text` models the Python string operations the
code uses (`count`, `in`, `lower`, `strip`, `split`, slicing). `Checklist` holds the "append
when the test holds" list pattern, and `Wrappers` holds `Option` and `Result`.

Where the source builds a list or a counter step by step, the model is a method with that
loop or that sequence of appends. Each such method is proved equal to a specification
function, and the properties are lemmas about that function. Expression-only code is
modelled as functions.

Inputs that stand for what the model does not compute:

- `ParsedUrl` is what `urlparse` and `tldextract` report.
- `entropy` is the Shannon entropy of the URL.
- A predicted class index and an optional probability vector stand for a classifier's output.
- `sha1Hex` and `sha256Hex` stand for the digests.
- `emailScanCount` is the number of `email` rows the breach-risk query counts.

The model follows the code, also in three places where the system's documented behaviour differs:

- The URL factor counts `url` scans predicted `malicious` or `scam`, not `suspicious`
  (`RiskService.SuspiciousUrlNotCounted`).
- The weighted score is not clamped. Its bounds [0, 100] follow from the factor bounds instead
  (`RiskService.ScoreBounds`).
- The port test is a substring test, so `:8080` counts as a standard port
  (`UrlClassifier.Port8080IsNotUnusual`).

## Model

| member | source | states |
|---|---|---|
| UrlClassifier.FeatureNames | backend/models/url_classifier.py:120-128 | There are 18 feature names, all distinct. |
| UrlClassifier.ExtractFeatures | backend/models/url_classifier.py:35-118 | Appending the features one by one gives exactly the specification vector `FeatureVector`. |
| UrlClassifier.FeatureVector | backend/models/url_classifier.py:35-118 | The vector has one entry per feature name. |
| UrlClassifier.AppendEighteen | backend/models/url_classifier.py:37-118 | Eighteen single appends to an empty list give the eighteen-entry list. |
| UrlClassifier.FeatureTableEntries | backend/models/url_classifier.py:273 | The `features` table has exactly the 18 names as keys, and each name maps to its own vector entry. |
| UrlClassifier.CharacterCountFeatures | backend/models/url_classifier.py:60-82 | Features 4 to 11 are the counts of `.` `/` `-` `_` `?` `=` `&` `%`, and none exceeds the URL length. |
| UrlClassifier.SubdomainCount | backend/models/url_classifier.py:84-85 | Feature 12, `subdomain.count('.') + 1` or 0. Its contract is `SubdomainAndParameterCounts`: 0 iff the subdomain is empty, otherwise the number of its dot-separated labels. |
| UrlClassifier.ParameterCount | backend/models/url_classifier.py:109-110 | Feature 16, `query.count('&') + 1` or 0. Its contract is `SubdomainAndParameterCounts`: 0 iff the query is empty, otherwise the number of its `&`-separated pieces. |
| UrlClassifier.SubdomainAndParameterCounts | backend/models/url_classifier.py:84-110 | The subdomain count is 0 iff the subdomain is empty, otherwise its number of dot-separated labels. The parameter count is 0 iff the query is empty, otherwise its number of `&`-separated pieces. |
| UrlClassifier.KeywordCount | backend/models/url_classifier.py:93 | The keyword count never exceeds the number of keywords. Over a list without repeats it is the number of distinct keywords that occur (`KeywordCountIsDistinctMatches`). |
| UrlClassifier.KeywordCountIsDistinctMatches | backend/models/url_classifier.py:92-93 | Over a list without repetition, the count is the number of distinct keywords that occur. |
| UrlClassifier.SuspiciousKeywordCountFacts | backend/models/url_classifier.py:92-94 | The suspicious-keyword count lies in [0, 9] and counts each keyword at most once. Lower- or upper-casing the URL does not change it. |
| UrlClassifier.SuspiciousKeywordFeature | backend/models/url_classifier.py:91-94 | Feature 14 has the same properties. |
| UrlClassifier.UnusualPort | backend/models/url_classifier.py:116 | The port test. Its contract is `UnusualPortFeature` (feature 18 is 1 iff `:` is present and neither `:80` nor `:443` is) and `Port8080IsNotUnusual`. |
| UrlClassifier.UnusualPortFeature | backend/models/url_classifier.py:116 | Feature 18 is 1 iff the domain has a `:` and contains neither `:80` nor `:443`. Otherwise it is 0. |
| UrlClassifier.Port8080IsNotUnusual | backend/models/url_classifier.py:116 | A domain ending in `:8080` does not set feature 18. |
| UrlClassifier.HasIpAddress | backend/models/url_classifier.py:88-89 | `re.search` of the IP pattern on the domain. Its contract is `DottedQuadIsIpAddress` (a dotted quad matches) and `NoDigitNoIpAddress` (a domain without digits never matches). |
| UrlClassifier.NoDigitNoIpAddress | backend/models/url_classifier.py:88-89 | A domain without any digit, such as an ordinary host name, never matches the IP pattern. |
| UrlClassifier.DottedQuadIsIpAddress | backend/models/url_classifier.py:88-89 | `192.168.1.1` as a domain matches the IP pattern. |
| UrlClassifier.Describe | backend/models/url_classifier.py:206-266 | The record built for a concern kind has that kind. Its feature name, value and severity are pinned down by `AllConcernsDescribe` and `ConcernSeverities`. |
| UrlClassifier.ExplainConcerns | backend/models/url_classifier.py:203-266 | The seven appending checks give exactly the specification list `Concerns`. |
| UrlClassifier.ConcernsUnrolled | backend/models/url_classifier.py:203-266 | The concern list is one optional record per kind, in checking order. |
| UrlClassifier.ConcernsInOrder | backend/models/url_classifier.py:203-266 | Concerns appear in the fixed order length, IP, entropy, keywords, @, port, parameters, each kind at most once. |
| UrlClassifier.AllConcernsDescribe | backend/models/url_classifier.py:203-266 | The list of candidate concerns holds each kind's record and nothing else. |
| UrlClassifier.ConcernPresentIffRaised | backend/models/url_classifier.py:205-266 | A concern of a kind is present iff its threshold is exceeded, and it is that kind's record. |
| UrlClassifier.EntropyFeature | backend/models/url_classifier.py:97-107 | For an entropy in the range `calculate_entropy` returns (never negative, 0 for the empty URL), feature 15 is that entropy and non-negative. The empty URL never raises the entropy concern. |
| UrlClassifier.ConcernSeverities | backend/models/url_classifier.py:205-266 | Length, entropy and keywords are "high" iff the stricter threshold is exceeded, else "medium". IP and @ are always "high". Port is always "medium". Parameters are "medium" above 10, else "low". |
| UrlClassifier.FirstEnding | backend/models/url_classifier.py:296-300 | A found ending is one the URL ends with. |
| UrlClassifier.FirstEndingIsFirst | backend/models/url_classifier.py:297-300 | The search finds nothing iff no listed ending fits. Otherwise it finds the first one in list order that fits. |
| UrlClassifier.FirstEndingFound | backend/models/url_classifier.py:296-300 | An ending is found iff the URL ends with a listed one, and it is the first such. |
| UrlClassifier.GenerateUrlTextExplanation | backend/models/url_classifier.py:280-314 | The method with its `for`/`break` loop gives exactly the specification list `UrlTextExplanation`. |
| UrlClassifier.ManySubdomainsIffThreeDots | backend/models/url_classifier.py:290-293 | The subdomain rule fires iff the domain has at least three dots. |
| UrlClassifier.AssembledFallback | backend/models/url_classifier.py:311-312 | Whatever the checks say, there are one to four reasons. The fallback appears iff no check fires, and then it is alone. |
| UrlClassifier.UrlFallbackIffNoRule | backend/models/url_classifier.py:290-314 | The explanation is never empty and has at most four entries. The fallback appears iff none of the four checks fires, and then it is the only entry. |
| UrlClassifier.AssembledTldReason | backend/models/url_classifier.py:296-300 | Whatever the checks say, there is at most one ending reason. There is one iff an ending was found, and it names that ending. |
| UrlClassifier.TldReasonsInMiddle | backend/models/url_classifier.py:290-308 | The ending reasons of the assembled list are those of the ending check. |
| UrlClassifier.AtMostOneTldReason | backend/models/url_classifier.py:296-300 | Because of the `break`, there is at most one TLD reason. There is one iff the URL ends with a suspicious ending, and it names the first such ending. |
| UrlClassifier.PredictUrl | backend/models/url_classifier.py:151-175 | The label is one of safe/suspicious/malicious/unknown, and it is `malicious` iff the index is 2. Without `predict_proba` the confidence is 1.0. Otherwise it bounds every probability. |
| Prediction.MaxOf | backend/models/message_classifier.py:85 | `np.max` is an element of the vector and bounds every element. |
| Prediction.Predict | backend/models/message_classifier.py:83-96 | The label is the mapped index or "unknown". The confidence is the maximum probability, or 1.0 without `predict_proba`, and then every listed probability is 0. Probabilities are listed under their labels, in order. |
| Prediction.ConfidenceInUnitRange | backend/models/message_classifier.py:83-88 | With probabilities in [0, 1], so is the confidence. |
| MessageClassifier.Preprocess | backend/models/message_classifier.py:42-46 | `message.lower().strip()`. Its contract is `PreprocessShape` (lower case, trimmed) and `PreprocessIdempotent`. |
| MessageClassifier.PreprocessShape | backend/models/message_classifier.py:42-46 | The preprocessed message is lower case and has no white space at either end. |
| MessageClassifier.PreprocessIdempotent | backend/models/message_classifier.py:42-46 | Preprocessing twice is the same as preprocessing once. |
| MessageClassifier.PredictMessage | backend/models/message_classifier.py:75-96 | The label is one of safe/suspicious/scam/unknown, and it is `scam` iff the index is 2. The confidence is 1.0 without `predict_proba`. Otherwise it bounds every probability. |
| MessageClassifier.GenerateTextExplanation | backend/models/message_classifier.py:175-208 | The appending method gives exactly `TextExplanation` of the original message. The processed message is never read. |
| MessageClassifier.KeepRules | backend/models/message_classifier.py:182-202 | Filtering the seven-rule checklist is one optional append per rule. |
| MessageClassifier.FiredRulesIsChecklist | backend/models/message_classifier.py:182-202 | The seven steps are the checklist filtered by whether each rule fires. |
| MessageClassifier.RulesRanked | backend/models/message_classifier.py:182-202 | The checklist has seven rules in rank order, without the fallback. |
| MessageClassifier.FallbackShape | backend/models/message_classifier.py:182-208 | Any ranked checklist without the fallback gives between one reason and as many reasons as the checklist has rules, in order. A reason is present iff its rule fires. The fallback is present iff none fires, and then alone. |
| MessageClassifier.ChecklistShape | backend/models/message_classifier.py:182-208 | The same, for the seven-rule checklist and any firing test. |
| MessageClassifier.ExplanationInChecklistOrder | backend/models/message_classifier.py:182-203 | The explanation has between 1 and 7 reasons, each at most once, in checklist order. |
| MessageClassifier.ReasonIffRuleFires | backend/models/message_classifier.py:182-208 | A rule's reason is present iff the rule fires. The fallback is present iff no rule fires, and then it is the only reason. |
| MessageClassifier.SameRulesSameExplanation | backend/models/message_classifier.py:175-208 | Messages on which every rule agrees get the same explanation. |
| MessageClassifier.LoweredRulesIgnoreCase | backend/models/message_classifier.py:180-189 | The urgency, action and credential rules search the lower-cased message, so they ignore case. |
| MessageClassifier.PlainRulesIgnoreCase | backend/models/message_classifier.py:191-202 | The `@` and `.`, length, punctuation and currency rules read the message as given. Their patterns have no letters, so they ignore ASCII case too. |
| MessageClassifier.ExplanationIgnoresCase | backend/models/message_classifier.py:175-208 | Lower- or upper-casing the message leaves the explanation unchanged. |
| MessageClassifier.UrgentClickPasswordReasons | backend/models/message_classifier.py:182-206 | A message with "urgent", "click here", "password" and `!!!` gets those four reasons and no fallback. |
| MessageClassifier.UrgentScamMessage | backend/models/message_classifier.py:182-199 | A concrete urgent phishing message gets the urgency, action, credential and punctuation reasons. |
| MessageClassifier.ClassCoefficients | backend/models/message_classifier.py:129-134 | Whichever branch is taken, coefficients with one weight per vocabulary entry give `class_coef` one weight per vocabulary entry, which is what indexing `feature_names` needs. With no row for the class, no weight is positive or negative. |
| MessageClassifier.Entries | backend/models/message_classifier.py:141-154 | One entry per selected index. |
| MessageClassifier.TopWordSigns | backend/models/message_classifier.py:137-155 | Each list has at most ten entries, with importance equal to the absolute weight. `important_words` holds only positive weights and `concerning_patterns` only negative ones. |
| MessageClassifier.SuffixDominates | backend/models/message_classifier.py:137 | In an argsort order, every index of a suffix weighs at least every index outside it. |
| MessageClassifier.PrefixIsDominated | backend/models/message_classifier.py:138 | In an argsort order, every index of a prefix weighs at most every index outside it. |
| MessageClassifier.EntriesHold | backend/models/message_classifier.py:141-147 | Every kept index has its entry in the list. |
| MessageClassifier.EntriesFrom | backend/models/message_classifier.py:141-154 | Every entry comes from a kept index. |
| MessageClassifier.ImportantWordsAreTop | backend/models/message_classifier.py:137-147 | For an argsort order, `important_words` lists every positive weight among the ten largest. Each entry is at least every weight outside those ten. |
| MessageClassifier.ConcerningPatternsAreBottom | backend/models/message_classifier.py:138-154 | For an argsort order, `concerning_patterns` lists every negative weight among the ten smallest. Each entry is at most every weight outside those ten. |
| MessageClassifier.ArgsortAscending | backend/models/message_classifier.py:137-138 | Any slice of an argsort, so both `[-10:]` and `[:10]`, lists its indices by non-decreasing weight. |
| MessageClassifier.TopWordsAscending | backend/models/message_classifier.py:137-154 | Both lists come out by ascending weight, in argsort order: `important_words` ends with the largest weight and `concerning_patterns` starts with the smallest. |
| MessageClassifier.ImportantWordsOf | backend/models/message_classifier.py:137-147 | Membership, dominance and ascending order of `important_words` together, for any weights and an argsort of them. |
| MessageClassifier.ConcerningPatternsOf | backend/models/message_classifier.py:138-154 | Membership, dominance and ascending order of `concerning_patterns` together, for any weights and an argsort of them. |
| MessageClassifier.ImportantWordsOfClass | backend/models/message_classifier.py:129-147 | For well-shaped coefficients, the selected `class_coef` fits the vocabulary. For an argsort of it, `important_words` holds exactly the positive weights among the ten largest, each at least every weight outside them, by ascending weight. |
| MessageClassifier.ConcerningPatternsOfClass | backend/models/message_classifier.py:129-154 | The same for `concerning_patterns`: the negative weights among the ten smallest, each at most every weight outside them, by ascending weight. |
| MessageClassifier.NoRowNoWords | backend/models/message_classifier.py:133-154 | When the matrix has no row for the predicted class, `class_coef` is all zeros and both lists are empty. |
| RiskService.OfType | backend/services/risk_service.py:104-136 | Filtering by scan type keeps at most the whole history. Counting flagged results over it gives the tally (`TallyIsFlaggedOfType`), and an empty filter gives a zero tally (`NoScansOfTypeTallyZero`). |
| RiskService.Flagged | backend/services/risk_service.py:109-113 | The loop's counter never exceeds the number of scans. Over the scans of one type it equals the tally (`TallyIsFlaggedOfType`), and `CountingRisk`'s loop invariant is stated with it. |
| RiskService.Tally | backend/services/risk_service.py:102-148 | The tally never exceeds the history length. |
| RiskService.TallyIsFlaggedOfType | backend/services/risk_service.py:104-113 | Counting flagged results among the scans of one type equals the tally of that type. |
| RiskService.NoScansOfTypeTallyZero | backend/services/risk_service.py:106-107 | A history without scans of the type has a zero tally. |
| RiskService.TallyOfNewScan | backend/services/risk_service.py:110-113 | A new scan raises the tally by one iff it has the type and a flagged result. |
| RiskService.Factor | backend/services/risk_service.py:99-148 | `min(count / cap, 1)` lies in [0, 1], is 1 iff the count reaches the cap, and is the plain ratio below it. |
| RiskService.RatioReachesOne | backend/services/risk_service.py:99-148 | `count / cap` is non-negative and reaches 1 iff the count reaches the cap. |
| RiskService.FactorMonotone | backend/services/risk_service.py:99-148 | A factor never decreases as its count grows. |
| RiskService.CountingRisk | backend/services/risk_service.py:102-148 | The filter-then-count loop returns `Factor(Tally(...), cap)`, and 0 for a history without scans of the type. |
| RiskService.CalculateUrlRisk | backend/services/risk_service.py:102-116 | It returns `UrlRisk`: `url` scans predicted malicious or scam, over 5, capped at 1. |
| RiskService.CalculateMessageRisk | backend/services/risk_service.py:118-132 | It returns `MessageRisk`: `message` scans predicted suspicious or scam, over 10, capped at 1. |
| RiskService.CalculatePasswordRisk | backend/services/risk_service.py:134-148 | It returns `PasswordRisk`: `password` scans found compromised, over 3, capped at 1. |
| RiskService.BreachRisk | backend/services/risk_service.py:85-100 | `min(count / 10, 1)` of the user's `email` rows. Its contract is `FactorsInUnitRange` (in [0, 1], 1 iff at least 10) and `FactorMonotone`. |
| RiskService.UrlRisk | backend/services/risk_service.py:102-116 | The URL factor. Its contract is `FactorsInUnitRange`, `NewScanCounts` and `SuspiciousUrlNotCounted`, and `CalculateUrlRisk` computes it. |
| RiskService.MessageRisk | backend/services/risk_service.py:118-132 | The message factor. Its contract is `FactorsInUnitRange` and `NewScanCounts`, and `CalculateMessageRisk` computes it. |
| RiskService.PasswordRisk | backend/services/risk_service.py:134-148 | The password factor as written, reading a top-level `safety_status`. Its contract is `FactorsInUnitRange` and `NewScanCounts`. `ScanRoutes.SavedPasswordScanNeverCounts` shows what it does with saved scans. |
| RiskService.IntendedPasswordRisk | backend/services/risk_service.py:134-148 | The corrected password factor, reading the saved `prediction`. Its contract is `ScanRoutes.SavedPasswordScanCounts`. |
| RiskService.FactorsInUnitRange | backend/services/risk_service.py:85-148 | Each of the four factors lies in [0, 1] and reaches 1 exactly at its cap of 10, 5, 10 or 3 counted scans. |
| RiskService.NewScanCounts | backend/services/risk_service.py:102-148 | A new scan changes only its own type's factor, and only when its result is flagged. Scans of other types and non-dict results change nothing. |
| RiskService.SuspiciousUrlNotCounted | backend/services/risk_service.py:112 | A `url` scan predicted `suspicious` leaves the URL factor unchanged. |
| RiskService.WeightsSumToOne | backend/services/risk_service.py:10-15 | The four weights sum to 1.0. |
| RiskService.WeightedScore | backend/services/risk_service.py:29-34 | The weighted sum on a 0-100 scale. Its contract is `ScoreBounds`, `ScoreMonotone` and `WeightsSumToOne`. |
| RiskService.ScoreBounds | backend/services/risk_service.py:29-34 | With every factor in [0, 1], the weighted score lies in [0, 100]. All-zero factors score 0 and all-one factors score 100. |
| RiskService.ScoreMonotone | backend/services/risk_service.py:29-34 | Raising any factor never lowers the score. |
| RiskService.DetermineStatus | backend/services/risk_service.py:150-157 | Green iff score < 30, yellow iff 30 <= score < 70, red iff score >= 70. |
| RiskService.StatusMonotone | backend/services/risk_service.py:150-157 | A higher score never gives a milder status. |
| RiskService.PlatformSplit | backend/services/risk_service.py:159-184 | The keys are the three platforms. Scans sum to the history length, and android >= web >= extension >= android - 1. An empty history gives all zeros. Otherwise every risk share is 1/3. |
| RiskService.GetPlatformInsights | backend/services/risk_service.py:159-184 | The in-place updates of the zeroed map give exactly `PlatformSplit` of the history length. |
| RiskService.GenerateRecommendations | backend/services/risk_service.py:186-207 | The appending method gives exactly `Recommendations` of the four factors. |
| RiskService.AdviceRanked | backend/services/risk_service.py:191-205 | Whichever factors are high, the lines come in factor order, each at most once. |
| RiskService.AdviceMembers | backend/services/risk_service.py:191-205 | Each factor's line is present iff that factor is high. The two generic lines are present iff none is, and then they are the whole list. |
| RiskService.RecommendationsShape | backend/services/risk_service.py:186-207 | There are one to four lines, in factor order. A factor's line is present iff the factor is > 0.5. Otherwise the list is exactly the two generic lines. |
| RiskService.CalculateRiskScore | backend/services/risk_service.py:17-68 | The report holds each factor with its weight, and the weighted score lies in [0, 100]. It also holds the status of that score, the platform split and the recommendations. |
| RiskService.AllFlaggedTally | backend/services/risk_service.py:109-113 | A history of flagged scans of one type tallies every scan. |
| RiskService.OtherTypesTally | backend/services/risk_service.py:104 | A history without scans of a type tallies nothing for it. |
| RiskService.TenMaliciousUrlsScoreTwentyFive | backend/services/risk_service.py:17-68 | Ten malicious URL scans give a URL factor of 1 and the other factors 0, a score of 25, and green. |
| RiskService.EmptyHistoryIsGreen | backend/services/risk_service.py:17-68 | An empty history scores 0, is green and gets the two generic lines. |
| ScanRoutes.MessageRiskScore | backend/routes/scan_routes.py:128-135 | The message score. Its contract is `MessageRiskScoreBands` and `RiskScoresMonotone`. |
| ScanRoutes.UrlRiskScore | backend/routes/scan_routes.py:137-144 | The URL score. Its contract is `UrlRiskScoreBands` and `RiskScoresMonotone`. |
| ScanRoutes.BreachRiskScore | backend/routes/scan_routes.py:146-149 | The breach score. Its contract is `BreachRiskScoreBands` and `BreachRiskScoreMonotone`. |
| ScanRoutes.MessageRiskScoreBands | backend/routes/scan_routes.py:128-135 | For a confidence in [0, 1] the score lies in [0, 100], ordered scam >= suspicious >= other. Only scam exceeds 50, and any other label scores at most 10. |
| ScanRoutes.UrlRiskScoreBands | backend/routes/scan_routes.py:137-144 | The same bands, with `malicious` as the top label. |
| ScanRoutes.RiskScoresMonotone | backend/routes/scan_routes.py:128-144 | For a fixed label, a score never decreases as the confidence grows. |
| ScanRoutes.BreachRiskScoreBands | backend/routes/scan_routes.py:146-149 | `min(10 * count, 100)` lies in [0, 100], is 100 iff count >= 10, and is 10 per breach below that. |
| ScanRoutes.BreachRiskScoreMonotone | backend/routes/scan_routes.py:146-149 | More breaches never give a lower score. |
| ScanRoutes.PasswordRiskScore | backend/routes/scan_routes.py:151-156 | 100 iff compromised, 0 iff safe. |
| ScanRoutes.AnalyzeContent | backend/routes/scan_routes.py:59-126 | A result is produced iff the scan type is message, url, email or password. The password branch uses the corrected six-digit lookup (see Left out and Findings). |
| ScanRoutes.Rewrapped | backend/routes/scan_routes.py:122-126 | The handler's 500 around any error. Its contract is `RewrappedUnsupported` and `UnsupportedTypeFails`. |
| ScanRoutes.ErrorText | backend/routes/scan_routes.py:125 | `str()` of an `HTTPException`, as `<status>: <detail>`. `RewrappedUnsupported` shows it for the 400. |
| ScanRoutes.UnsupportedTypeFails | backend/routes/scan_routes.py:105-126 | An unsupported type gives a 500 whose detail is "Analysis failed: 400: Unsupported scan type: " followed by the type. |
| ScanRoutes.RewrappedUnsupported | backend/routes/scan_routes.py:105-126 | Rewrapping the 400 for a type gives that 500. |
| ScanRoutes.EmailScanResult | backend/routes/scan_routes.py:83-92 | The prediction is `breach_detected` iff the count > 0 and `safe` iff it is 0. The confidence is `min(count / 10, 1)` in [0, 1], and 1 iff count >= 10. The details are the breach report and the score is the breach score. |
| ScanRoutes.PasswordScanResult | backend/routes/scan_routes.py:94-103 | The prediction is the safety status. The confidence is 0.9 iff compromised and 0.1 iff safe. The score is 100 iff the count > 0 and 0 iff it is 0. |
| ScanRoutes.Saved | backend/utils/database.py:131-137 | The saved result dictionary, read back by the risk service, has `prediction` as its only string entry, and it holds the scan's prediction. |
| ScanRoutes.SavedPasswordScanNeverCounts | backend/services/risk_service.py:134-148 | As written, appending a password scan saved by `analyze_content` to any history leaves the password factor unchanged, whatever the report says. |
| ScanRoutes.CompromisedPasswordScanIgnored | backend/services/risk_service.py:134-148 | A `CBFDAC…` digest gives a `compromised` prediction, and still leaves the password factor unchanged as written. |
| ScanRoutes.SavedPasswordScanCounts | backend/routes/scan_routes.py:94-103 | The intended password tally rises by one for a saved password scan exactly when its report is compromised. A safe scan leaves the intended factor unchanged. |
| ScanRoutes.ClassifierScanResult | backend/routes/scan_routes.py:59-81 | Message and URL scans pass their classifier's label, confidence and explanation on unchanged. |
| ScanRoutes.ScanResultInRange | backend/routes/scan_routes.py:59-109 | With classifier confidences in [0, 1], every result's confidence lies in [0, 1] and its score in [0, 100]. |
| BreachService.CalculateBreachRisk | backend/services/breach_service.py:57-64 | Low iff 0, medium iff 1-2, high iff >= 3. |
| BreachService.BreachRiskMonotone | backend/services/breach_service.py:57-64 | More breaches never give a lower level. |
| BreachService.CheckEmailBreaches | backend/services/breach_service.py:21-32 | The e-mail is echoed unchanged, the count is the number of breaches, and the level is that count's band. |
| BreachService.EmailLookupIgnoresCase | backend/services/breach_service.py:25 | Addresses equal up to case get the same breaches and level. |
| BreachService.UnknownEmailIsLowRisk | backend/services/breach_service.py:25-60 | There are breaches iff the lower-cased address is listed. An unknown address gives no breaches and `low`. |
| BreachService.UpperCaseAddressIsFound | backend/services/breach_service.py:11-32 | "Compromised@Example.COM" finds its two breaches and gets `medium`. |
| BreachService.PasswordRecommendation | backend/services/breach_service.py:66-73 | One line iff the count is 0, one iff it is 1-10, one iff it is > 10. |
| BreachService.PasswordReportFor | backend/services/breach_service.py:38-55 | The report shows the five-digit prefix and the count, `compromised` iff the count > 0, and the count's advice. |
| BreachService.CheckPasswordSafetyAsWritten | backend/services/breach_service.py:34-55 | The status is `compromised` iff the count > 0. |
| BreachService.AsWrittenNeverCompromised | backend/services/breach_service.py:38-48 | The key `prefix[:6]` has at most five characters, so the code as written never finds a digest: the count is 0, the status is `safe` and the advice is the not-found line. |
| BreachService.AsWrittenMissesListedDigest | backend/services/breach_service.py:43-48 | A digest beginning with the listed key `CBFDAC` is reported `safe` by the code as written. |
| BreachService.CheckPasswordSafety | backend/services/breach_service.py:34-55 | With the six-digit key, the prefix shown is the first five digits, and the status is `compromised` iff the count > 0. |
| BreachService.CompromisedIffListed | backend/services/breach_service.py:43-53 | A digest is compromised iff its first six digits are a listed key, and its count is then the listed count. |
| BreachService.ListedDigestIsCompromised | backend/services/breach_service.py:43-71 | A digest beginning with `CBFDAC` is compromised, with count 5 and the few-breaches advice. |
| ScanStorage.Preview | backend/utils/database.py:123-127 | Content within the limit is kept whole. Longer content becomes its first `limit` characters plus "...". |
| ScanStorage.StoreContent | backend/utils/database.py:113-127 | The content is anonymised iff privacy mode is on or the type is message or url. A hash is kept iff anonymised, and it is the content's digest. |
| ScanStorage.PreviewShape | backend/utils/database.py:123-127 | A preview starts with the first `min(len, limit)` characters and is at most the limit plus 3 long. It equals the content iff the content fits the limit, or is exactly three longer and ends in "...". |
| ScanStorage.PreviewLength | backend/utils/database.py:123-127 | An anonymised preview has at most 53 characters, any other at most 103. |
| ScanStorage.PasswordKeptWithoutPrivacyMode | backend/utils/database.py:118-127 | Without privacy mode, a password of up to 100 characters is stored as its own preview, with no hash. |
| Text.Count | backend/models/url_classifier.py:61 | `s.count(c)` is at most `len(s)`, and is 0 iff `c` does not occur. |
| Text.CountConcat | backend/models/url_classifier.py:61 | Counting is additive over concatenation. |
| Text.Split | backend/models/url_classifier.py:291 | `split` gives one more piece than there are separators, and no piece holds a separator. |
| Text.JoinSplit | backend/models/url_classifier.py:291 | Joining the pieces of a split gives the string back. |
| Text.Take | backend/services/breach_service.py:38 | `s[:n]` has length `min(len, n)` and is a prefix of `s`. |
| Text.StripLeadingShape | backend/models/message_classifier.py:45 | The left strip keeps a suffix that does not start with white space, and drops only white space. |
| Text.StripTrailingShape | backend/models/message_classifier.py:45 | The right strip keeps a prefix that does not end with white space, and drops only white space. |
| Text.StripIsSlice | backend/models/message_classifier.py:45 | `strip` keeps one contiguous piece with no white space at either end and only white space around it. |
| Text.StripOfTrimmed | backend/models/message_classifier.py:45 | Stripping a trimmed string changes nothing. |
| Text.ToLowerIsLowerCase | backend/models/message_classifier.py:45 | A lower-cased string has no upper-case ASCII letter. |
| Text.ToLowerOfLowerCase | backend/models/message_classifier.py:45 | Lower-casing a lower-case string changes nothing. |
| Text.LowerOfUpper | backend/models/url_classifier.py:93 | Lower-casing forgets an earlier upper-casing. |

## Left out

- Training, model inference, scaling, SHAP attribution and the pickle load/save of both classifiers: they are foreign libraries and file I/O. The predicted index, probability vector, coefficient matrix, vocabulary and argsort order are inputs.
- The `feature_importance`/`top_features` block of the URL `explain_prediction` (url_classifier.py:183-200): it sorts the model's importances, which are foreign values.
- `urlparse` and `tldextract`: their results are the `ParsedUrl` input.
- `calculate_entropy` (url_classifier.py:97-107) and `round(features[14], 2)`: `log2` is floating point. Entropy is a real input whose formula the `UrlClassifier` module states in words.
- UrlClassifier.FeatureVector: entries are exact reals, not Python floats. Integer features are exact.
- Prediction.Predict: requires a non-empty probability vector no longer than the label map. The source raises on both other inputs: `np.max` of an empty vector raises a `ValueError`, and `label_map[i]` past the map's end raises a `KeyError`. These raises are not modelled. The same holds for `UrlClassifier.PredictUrl` and `MessageClassifier.PredictMessage`.
- Text.ToLower: maps ASCII letters only, while Python's `lower` is full Unicode. `\d`, `\w` and `\b` of the IP pattern are likewise ASCII.
- MessageClassifier.GenerateTextExplanation: the `try`/`except` around `explain_prediction` (message_classifier.py:100-173) is not modelled, and the explanation is not wrapped in its dictionary.
- RiskService.CalculateRiskScore: omits `round(score, 2)` and the `last_updated` time stamp. The breach factor counts every `email` row of the user's history, which is an input because the SQL query is not modelled.
- Stored scan results: a result is a map of strings. Only its `prediction` and `safety_status` entries are read.
- UrlClassifier.FeatureVector: the entropy is not constrained by the vector itself. `UrlClassifier.EntropyRange` states the range `calculate_entropy` guarantees, and `UrlClassifier.EntropyFeature` assumes it.
- Database access (`get_db_connection`, `init_db`, the insert of `save_scan_result`, the privacy-settings queries) and the history query of `risk_service.py:70-83`: SQL and connections are outside a functional model.
- ScanRoutes.AnalyzeContent: token decoding, the placeholder user id, the privacy lookup and the save of the result with its `scan_id` are not modelled (I/O). An exception raised by a classifier is not modelled either. Only the 400 for an unsupported type and the 500 rewrap are.
- ScanRoutes.AnalyzeContent: the password branch calls the corrected `BreachService.CheckPasswordSafety`, not the lookup as written. For a digest listed in the mock table (one starting with `CBFDAC`, the SHA-1 of "password123"), the code returns prediction `safe`, confidence 0.1 and score 0. The model returns `compromised`, 0.9 and 100. The as-written lookup is `BreachService.CheckPasswordSafetyAsWritten`.
- ScanRoutes.Saved: keeps only the string-valued top-level entries of a saved result. The numbers and the `details` dictionary are dropped, since none of them can equal a flagged string.
- ScanRoutes.ErrorText: assumes `str()` of an `HTTPException` is `"<status>: <detail>"`.
- The feedback, history and privacy-settings endpoints of `scan_routes.py` (lines 158-334), `auth_routes.py`, `risk_routes.py` and JWT/bcrypt in `auth_service.py`: web routing and authentication.
- SHA-1 and SHA-256: the digests are the inputs `sha1Hex` and `sha256Hex`.
- The 40/70 colour bands of the web and extension UI: display only.

## Findings

| source | as written | input that shows it | evidently intended | confidence | as-written member | corrected member |
|---|---|---|---|---|---|---|
| backend/services/breach_service.py:38-48 | The lookup key is `prefix[:6]` of the five-character `prefix = sha1_hash[:5]`. It has at most five characters and never equals a six-character key of the mock table. | Any password whose upper-case SHA-1 digest starts with `CBFDAC`, such as "password123" (the comment at line 44 says "password", whose SHA-1 starts with `5BAA61`, so the comment is wrong too): reported `safe` with count 0. | The key is the first six digits, `sha1_hash[:6]`, so that listed digests are found. | not executed | BreachService.AsWrittenNeverCompromised | BreachService.ListedDigestIsCompromised |

| backend/services/risk_service.py:134-148 | The password factor reads `safety_status` from the top level of a saved result. `analyze_content` puts the report, `safety_status` included, under `details` (scan_routes.py:97-102), so a password scan it saves never counts. | A signed-in user scans "password123" (digest `CBFDAC…`, with the corrected lookup): prediction `compromised`, yet the password factor does not move. | Count saved password scans whose report is compromised, for example by reading the top-level `prediction`, which is the safety status. | not executed | ScanRoutes.CompromisedPasswordScanIgnored | ScanRoutes.SavedPasswordScanCounts |

The scan dispatch (`ScanRoutes.AnalyzeContent`) uses the corrected `BreachService.CheckPasswordSafety`. Without it no password is ever compromised, and the second finding could not show. The intended password factor is `RiskService.IntendedPasswordRisk`. `RiskService.CalculateRiskScore` keeps the code's `safety_status` key, because its history is an input and a row with a top-level `safety_status` does count. The two findings compound: as written, neither the lookup nor the factor ever reports a compromised password.
