/**
 * The URL classifier's deterministic part: the 18-entry feature vector it feeds to its model,
 * the threshold concerns and the rule-based reasons of its explanation, and the glue that
 * turns the model's output into a prediction record.
 *
 * What `urlparse` and `tldextract` report is an input (`ParsedUrl`), and so is the Shannon
 * entropy of the URL's characters, `-sum p(c) * log2 p(c)` over the distinct characters `c`
 * of the URL with `p(c)` their relative frequency (0 for the empty URL).
 */
module UrlClassifier {
  import opened Wrappers
  import opened Text
  import opened Checklist
  import Prediction

  /** The parts of a URL the extractor reads: `urlparse`'s netloc, path and query, `tldextract`'s subdomain. */
  datatype ParsedUrl = ParsedUrl(netloc: string, path: string, query: string, subdomain: string)

  // ---------------------------------------------------------------------------------------
  // Features

  /** `get_feature_names`: the names of the 18 features, in vector order. */
  function FeatureNames(): (names: seq<string>)
    ensures |names| == 18
    ensures forall i, j :: 0 <= i < j < |names| ==> names[i] != names[j]
  {
    ["URL Length", "Domain Length", "Path Length", "Dots Count", "Slashes Count",
     "Dashes Count", "Underscores Count", "Question Marks Count", "Equal Signs Count",
     "Ampersands Count", "Percent Signs Count", "Subdomain Count", "IP Address Present",
     "Suspicious Keywords Count", "URL Entropy", "Parameter Count", "@ Symbol Present",
     "Unusual Port Present"]
  }

  /** The characters whose occurrences features 4 to 11 (indices 3 to 10) count. */
  const CountedChars: seq<char> := ['.', '/', '-', '_', '?', '=', '&', '%']

  const SuspiciousKeywords: seq<string> :=
    ["secure", "account", "update", "confirm", "login", "signin", "bank", "paypal", "amazon"]

  /** How many of `keywords` occur in `s`, each counted once however often it occurs. */
  function KeywordCount(s: string, keywords: seq<string>): (n: nat)
    ensures n <= |keywords|
  {
    if keywords == [] then 0
    else (if Contains(s, keywords[0]) then 1 else 0) + KeywordCount(s, keywords[1..])
  }

  /** Feature 14: the suspicious keywords that occur in the lower-cased URL. */
  function SuspiciousKeywordCount(url: string): nat {
    KeywordCount(ToLower(url), SuspiciousKeywords)
  }

  /** Feature 12: `subdomain.count('.') + 1 if subdomain else 0`. */
  function SubdomainCount(subdomain: string): nat {
    if subdomain != "" then Count(subdomain, '.') + 1 else 0
  }

  /** Feature 16: `query.count('&') + 1 if query else 0`. */
  function ParameterCount(query: string): nat {
    if query != "" then Count(query, '&') + 1 else 0
  }

  /** Feature 18: a `:` in the domain, and neither `:80` nor `:443` anywhere in it. */
  predicate UnusualPort(netloc: string) {
    ':' in netloc && !(Contains(netloc, ":80") || Contains(netloc, ":443"))
  }

  // The regular expression `\b\d{1,3}\.\d{1,3}\.\d{1,3}\.\d{1,3}\b` of feature 13,
  // with `\d` and `\w` on ASCII.

  predicate IsDigit(c: char) { '0' <= c <= '9' }

  predicate IsWordChar(c: char) { IsDigit(c) || IsLowerAscii(c) || IsUpperAscii(c) || c == '_' }

  /** `\b` at position `p`: a word character on exactly one side. */
  predicate WordBoundary(s: string, p: nat)
    requires p <= |s|
  {
    (p > 0 && IsWordChar(s[p - 1])) != (p < |s| && IsWordChar(s[p]))
  }

  /** `n` digits start at position `i`. */
  predicate DigitsAt(s: string, i: nat, n: nat)
    decreases n
  {
    n == 0 || (i < |s| && IsDigit(s[i]) && DigitsAt(s, i + 1, n - 1))
  }

  /** The last `groups` dotted digit groups of the pattern, and its final `\b`, match from `i`. */
  predicate GroupsAt(s: string, i: nat, groups: nat)
    decreases groups, 1
  {
    GroupThen(s, i, 1, groups) || GroupThen(s, i, 2, groups) || GroupThen(s, i, 3, groups)
  }

  /** A group of `n` digits at `i`, then what the pattern still needs. */
  predicate GroupThen(s: string, i: nat, n: nat, groups: nat)
    decreases groups, 0
  {
    DigitsAt(s, i, n) && i + n <= |s|
    && if groups <= 1 then WordBoundary(s, i + n)
       else i + n < |s| && s[i + n] == '.' && GroupsAt(s, i + n + 1, groups - 1)
  }

  /** The whole pattern matches at position `i`. */
  predicate IpAt(s: string, i: nat) {
    i <= |s| && WordBoundary(s, i) && GroupsAt(s, i, 4)
  }

  /** `re.search(ip_pattern, domain)` finds a match. */
  predicate HasIpAddress(s: string) {
    exists i: nat :: i <= |s| && IpAt(s, i)
  }

  /** A domain without a digit, such as an ordinary host name, never matches the pattern. */
  lemma NoDigitNoIpAddress(s: string)
    requires forall k :: 0 <= k < |s| ==> !IsDigit(s[k])
    ensures !HasIpAddress(s)
  {
    forall i: nat | i <= |s| ensures !IpAt(s, i) {
      if i < |s| {
        assert !IsDigit(s[i]);
      }
    }
  }

  function Flag(b: bool): real { if b then 1.0 else 0.0 }

  /** The vector `extract_features` returns, entry by entry. */
  function FeatureVector(url: string, parsed: ParsedUrl, entropy: real): (f: seq<real>)
    ensures |f| == |FeatureNames()|
  {
    [ |url| as real, |parsed.netloc| as real, |parsed.path| as real,
      Count(url, '.') as real, Count(url, '/') as real, Count(url, '-') as real,
      Count(url, '_') as real, Count(url, '?') as real, Count(url, '=') as real,
      Count(url, '&') as real, Count(url, '%') as real,
      SubdomainCount(parsed.subdomain) as real,
      Flag(HasIpAddress(parsed.netloc)),
      SuspiciousKeywordCount(url) as real,
      entropy,
      ParameterCount(parsed.query) as real,
      Flag('@' in url),
      Flag(UnusualPort(parsed.netloc)) ]
  }

  /** Eighteen single appends to an empty list build the eighteen-entry vector. */
  lemma AppendEighteen(
    x0: real, x1: real, x2: real, x3: real, x4: real, x5: real, x6: real, x7: real, x8: real,
    x9: real, x10: real, x11: real, x12: real, x13: real, x14: real, x15: real, x16: real, x17: real)
    ensures [] + [x0] + [x1] + [x2] + [x3] + [x4] + [x5] + [x6] + [x7] + [x8]
      + [x9] + [x10] + [x11] + [x12] + [x13] + [x14] + [x15] + [x16] + [x17]
      == [x0, x1, x2, x3, x4, x5, x6, x7, x8, x9, x10, x11, x12, x13, x14, x15, x16, x17]
  {
  }

  /** `extract_features`: the vector is built by appending one feature after the other. */
  method ExtractFeatures(url: string, parsed: ParsedUrl, entropy: real) returns (features: seq<real>)
    ensures features == FeatureVector(url, parsed, entropy)
  {
    features := [];
    var domain, path, query, subdomain := parsed.netloc, parsed.path, parsed.query, parsed.subdomain;
    features := features + [|url| as real];
    features := features + [|domain| as real];
    features := features + [|path| as real];
    features := features + [Count(url, '.') as real];
    features := features + [Count(url, '/') as real];
    features := features + [Count(url, '-') as real];
    features := features + [Count(url, '_') as real];
    features := features + [Count(url, '?') as real];
    features := features + [Count(url, '=') as real];
    features := features + [Count(url, '&') as real];
    features := features + [Count(url, '%') as real];
    features := features + [SubdomainCount(subdomain) as real];
    features := features + [Flag(HasIpAddress(domain))];
    var suspiciousCount := SuspiciousKeywordCount(url);
    features := features + [suspiciousCount as real];
    features := features + [entropy];
    features := features + [ParameterCount(query) as real];
    features := features + [Flag('@' in url)];
    features := features + [Flag(UnusualPort(domain))];
    AppendEighteen(
      |url| as real, |domain| as real, |path| as real,
      Count(url, '.') as real, Count(url, '/') as real, Count(url, '-') as real, Count(url, '_') as real,
      Count(url, '?') as real, Count(url, '=') as real, Count(url, '&') as real, Count(url, '%') as real,
      SubdomainCount(subdomain) as real, Flag(HasIpAddress(domain)), suspiciousCount as real, entropy,
      ParameterCount(query) as real, Flag('@' in url), Flag(UnusualPort(domain)));
  }

  /** The `features` table of `explain_prediction`: each feature name mapped to its value. */
  function FeatureTable(f: seq<real>): map<string, real>
    requires |f| == 18
  {
    ZipMap(FeatureNames(), f)
  }

  /** The table has exactly the 18 names as keys, and each name maps to its own entry of the vector. */
  lemma FeatureTableEntries(f: seq<real>)
    requires |f| == 18
    ensures FeatureTable(f).Keys == set n | n in FeatureNames()
    ensures forall i :: 0 <= i < 18 ==> FeatureTable(f)[FeatureNames()[i]] == f[i]
  {
    ZipMapLookup(FeatureNames(), f);
  }

  /** Features 4 to 11 count one character each, so none exceeds the URL's length. */
  lemma CharacterCountFeatures(url: string, parsed: ParsedUrl, entropy: real)
    ensures forall k :: 3 <= k <= 10 ==>
      FeatureVector(url, parsed, entropy)[k] == Count(url, CountedChars[k - 3]) as real
      && FeatureVector(url, parsed, entropy)[k] <= FeatureVector(url, parsed, entropy)[0]
  {
  }

  /**
   * Feature 12 is 0 exactly for an empty subdomain and otherwise the number of its dot-separated
   * labels; feature 16 is 0 exactly for an empty query and otherwise the number of its
   * `&`-separated parameters.
   */
  lemma SubdomainAndParameterCounts(url: string, parsed: ParsedUrl, entropy: real)
    ensures FeatureVector(url, parsed, entropy)[11] == 0.0 <==> parsed.subdomain == ""
    ensures parsed.subdomain != "" ==>
      FeatureVector(url, parsed, entropy)[11] == |Split(parsed.subdomain, '.')| as real
    ensures FeatureVector(url, parsed, entropy)[15] == 0.0 <==> parsed.query == ""
    ensures parsed.query != "" ==>
      FeatureVector(url, parsed, entropy)[15] == |Split(parsed.query, '&')| as real
  {
  }

  /** The keywords of `keywords`, with no repetition, that occur in `s`. */
  ghost function Occurring(s: string, keywords: seq<string>): set<string> {
    set k | k in keywords && Contains(s, k)
  }

  /** No keyword occurs twice in `keywords`. */
  predicate NoRepeats(keywords: seq<string>) {
    forall i, j :: 0 <= i < j < |keywords| ==> keywords[i] != keywords[j]
  }

  /** Without repetition, the first keyword is not among the rest, and the rest repeat nothing. */
  lemma NoRepeatsTail(keywords: seq<string>)
    requires keywords != [] && NoRepeats(keywords)
    ensures keywords[0] !in keywords[1..] && NoRepeats(keywords[1..])
  {
    var rest := keywords[1..];
    forall j | 0 <= j < |rest| ensures rest[j] != keywords[0] {
      assert rest[j] == keywords[j + 1];
    }
    forall i, j | 0 <= i < j < |rest| ensures rest[i] != rest[j] {
      assert rest[i] == keywords[i + 1] && rest[j] == keywords[j + 1];
    }
  }

  /** The occurring keywords of a list are those of its tail, plus the first one if it occurs. */
  lemma OccurringCons(s: string, keywords: seq<string>)
    requires keywords != []
    ensures Occurring(s, keywords) ==
      (if Contains(s, keywords[0]) then {keywords[0]} else {}) + Occurring(s, keywords[1..])
  {
    assert forall k :: k in keywords <==> k == keywords[0] || k in keywords[1..] by {
      assert keywords == [keywords[0]] + keywords[1..];
    }
  }

  /** Over a list without repetition, the count is the number of distinct keywords that occur. */
  lemma {:induction false} KeywordCountIsDistinctMatches(s: string, keywords: seq<string>)
    requires NoRepeats(keywords)
    ensures KeywordCount(s, keywords) == |Occurring(s, keywords)|
  {
    if keywords != [] {
      NoRepeatsTail(keywords);
      KeywordCountIsDistinctMatches(s, keywords[1..]);
      OccurringCons(s, keywords);
    }
  }

  /** The nine suspicious keywords are distinct. */
  lemma SuspiciousKeywordsNoRepeats()
    ensures NoRepeats(SuspiciousKeywords)
  {
  }

  /**
   * The suspicious-keyword count lies in [0, 9] and is the number of distinct suspicious
   * keywords occurring in the URL; the match ignores ASCII case, so lower- and upper-casing
   * the URL leave it unchanged.
   */
  lemma SuspiciousKeywordCountFacts(url: string)
    ensures 0 <= SuspiciousKeywordCount(url) <= 9
    ensures SuspiciousKeywordCount(url) == |Occurring(ToLower(url), SuspiciousKeywords)|
    ensures SuspiciousKeywordCount(ToLower(url)) == SuspiciousKeywordCount(url)
    ensures SuspiciousKeywordCount(ToUpper(url)) == SuspiciousKeywordCount(url)
  {
    SuspiciousKeywordsNoRepeats();
    KeywordCountIsDistinctMatches(ToLower(url), SuspiciousKeywords);
    ToLowerOfLowerCase(ToLower(url));
    LowerOfUpper(url);
  }

  /** Feature 14 is the suspicious-keyword count, so it has the same properties. */
  lemma SuspiciousKeywordFeature(url: string, parsed: ParsedUrl, entropy: real)
    ensures 0.0 <= FeatureVector(url, parsed, entropy)[13] <= 9.0
    ensures FeatureVector(url, parsed, entropy)[13] == |Occurring(ToLower(url), SuspiciousKeywords)| as real
    ensures FeatureVector(ToLower(url), parsed, entropy)[13] == FeatureVector(url, parsed, entropy)[13]
    ensures FeatureVector(ToUpper(url), parsed, entropy)[13] == FeatureVector(url, parsed, entropy)[13]
  {
    SuspiciousKeywordCountFacts(url);
  }

  /** Feature 18 is set exactly when the domain has a `:` but neither `:80` nor `:443`. */
  lemma UnusualPortFeature(url: string, parsed: ParsedUrl, entropy: real)
    ensures FeatureVector(url, parsed, entropy)[17] == 1.0 <==>
      ':' in parsed.netloc && !Contains(parsed.netloc, ":80") && !Contains(parsed.netloc, ":443")
    ensures FeatureVector(url, parsed, entropy)[17] == 0.0 <==> !UnusualPort(parsed.netloc)
  {
  }

  /** Because the test is a substring test, port 8080 counts as a standard port. */
  lemma Port8080IsNotUnusual(url: string, host: string, path: string, query: string, subdomain: string)
    ensures FeatureVector(url, ParsedUrl(host + ":8080", path, query, subdomain), 0.0)[17] == 0.0
  {
    var netloc := host + ":8080";
    assert netloc[|host|..|host| + 3] == ":80";
    ContainsAt(netloc, ":80", |host|);
  }

  /** A dotted quad as the whole domain sets feature 13. */
  lemma DottedQuadIsIpAddress()
    ensures HasIpAddress("192.168.1.1")
  {
    var s := "192.168.1.1";
    assert GroupThen(s, 10, 1, 1);
    assert GroupThen(s, 8, 1, 2);
    assert GroupThen(s, 4, 3, 3);
    assert GroupThen(s, 0, 3, 4);
    assert IpAt(s, 0);
  }

  // ---------------------------------------------------------------------------------------
  // Concerns

  /** The concerns `explain_prediction` can raise, in the order it checks them. */
  datatype ConcernKind = Length | Ip | Entropy | Keywords | At | Port | Parameters

  function Rank(k: ConcernKind): int {
    match k
    case Length => 0
    case Ip => 1
    case Entropy => 2
    case Keywords => 3
    case At => 4
    case Port => 5
    case Parameters => 6
  }

  datatype Severity = High | Medium | Low

  datatype ConcernValue = Amount(amount: real) | Present

  /** A concern record; its `feature` and `reason` entries are fixed by its kind. */
  datatype Concern = Concern(kind: ConcernKind, value: ConcernValue, severity: Severity) {
    function Feature(): string {
      match kind
      case Length => "URL Length"
      case Ip => "IP Address"
      case Entropy => "URL Entropy"
      case Keywords => "Suspicious Keywords"
      case At => "@ Symbol"
      case Port => "Unusual Port"
      case Parameters => "Parameter Count"
    }

    function Reason(): string {
      match kind
      case Length => "Unusually long URL may indicate obfuscation"
      case Ip => "Direct IP addresses in URLs are often used by malicious sites"
      case Entropy => "High randomness in URL may indicate obfuscation"
      case Keywords => "Multiple suspicious keywords may indicate phishing attempt"
      case At => "@ symbol in URL can be used to obfuscate the real domain"
      case Port => "Non-standard ports may indicate malicious activity"
      case Parameters => "Excessive parameters may indicate obfuscation or tracking"
    }
  }

  /** The threshold each concern needs, on the feature it reads. */
  predicate Raised(f: seq<real>, k: ConcernKind)
    requires |f| == 18
  {
    match k
    case Length => f[0] > 100.0
    case Ip => f[12] > 0.0
    case Entropy => f[14] > 4.0
    case Keywords => f[13] > 2.0
    case At => f[16] > 0.0
    case Port => f[17] > 0.0
    case Parameters => f[15] > 5.0
  }

  /** The concern record of kind `k`, with the severity its stricter threshold selects. */
  function Describe(f: seq<real>, k: ConcernKind): (c: Concern)
    requires |f| == 18
    ensures c.kind == k
  {
    match k
    case Length =>
      Concern(Length, Amount(f[0]), if f[0] > 150.0 then High else Medium)
    case Ip =>
      Concern(Ip, Present, High)
    case Entropy =>
      Concern(Entropy, Amount(f[14]), if f[14] > 5.0 then High else Medium)
    case Keywords =>
      Concern(Keywords, Amount(f[13]), if f[13] > 4.0 then High else Medium)
    case At =>
      Concern(At, Present, High)
    case Port =>
      Concern(Port, Present, Medium)
    case Parameters =>
      Concern(Parameters, Amount(f[15]), if f[15] > 10.0 then Medium else Low)
  }

  /** Every possible concern, in checking order. */
  function AllConcerns(f: seq<real>): seq<Concern>
    requires |f| == 18
  {
    [Describe(f, Length), Describe(f, Ip), Describe(f, Entropy), Describe(f, Keywords),
     Describe(f, At), Describe(f, Port), Describe(f, Parameters)]
  }

  /** The concerns of `explain_prediction`: those whose threshold the features exceed. */
  function Concerns(f: seq<real>): seq<Concern>
    requires |f| == 18
  {
    Keep(AllConcerns(f), (c: Concern) => Raised(f, c.kind))
  }

  predicate HasConcern(cs: seq<Concern>, k: ConcernKind) {
    exists i :: 0 <= i < |cs| && cs[i].kind == k
  }

  /** Concerns appear in the fixed checking order, each kind at most once. */
  lemma ConcernsInOrder(f: seq<real>)
    requires |f| == 18
    ensures Ranked(Concerns(f), (c: Concern) => Rank(c.kind))
  {
    KeepRanked(AllConcerns(f), (c: Concern) => Raised(f, c.kind), (c: Concern) => Rank(c.kind));
  }

  /** The list of every possible concern holds each kind's record, and nothing else. */
  lemma AllConcernsDescribe(f: seq<real>)
    requires |f| == 18
    ensures forall c :: c in AllConcerns(f) ==> c == Describe(f, c.kind)
    ensures forall k :: Describe(f, k) in AllConcerns(f)
  {
    var all := AllConcerns(f);
    forall k ensures Describe(f, k) in all {
      match k
      case Length => assert all[0] == Describe(f, k);
      case Ip => assert all[1] == Describe(f, k);
      case Entropy => assert all[2] == Describe(f, k);
      case Keywords => assert all[3] == Describe(f, k);
      case At => assert all[4] == Describe(f, k);
      case Port => assert all[5] == Describe(f, k);
      case Parameters => assert all[6] == Describe(f, k);
    }
  }

  /** A concern of each kind is present exactly when its threshold is exceeded, and it is that kind's record. */
  lemma ConcernPresentIffRaised(f: seq<real>, k: ConcernKind)
    requires |f| == 18
    ensures HasConcern(Concerns(f), k) <==> Raised(f, k)
    ensures forall c :: c in Concerns(f) ==> c == Describe(f, c.kind)
  {
    var cs := Concerns(f);
    var all := AllConcerns(f);
    var raised := (c: Concern) => Raised(f, c.kind);
    assert cs == Keep(all, raised);
    KeepMembers(all, raised);
    AllConcernsDescribe(f);
    if Raised(f, k) {
      var c := Describe(f, k);
      assert c in cs;
      var i :| 0 <= i < |cs| && cs[i] == c;
    }
    if HasConcern(cs, k) {
      var i :| 0 <= i < |cs| && cs[i].kind == k;
      assert cs[i] in cs;
    }
  }

  /**
   * Severity tiers: "high" for length, entropy and keywords exactly when the stricter threshold
   * is also exceeded; IP address and `@` always "high"; an unusual port always "medium";
   * parameters "medium" above 10 and otherwise "low".
   */
  lemma ConcernSeverities(f: seq<real>)
    requires |f| == 18
    ensures forall c :: c in Concerns(f) ==>
      match c.kind
      case Length => (c.severity == High <==> f[0] > 150.0) && c.severity != Low
      case Entropy => (c.severity == High <==> f[14] > 5.0) && c.severity != Low
      case Keywords => (c.severity == High <==> f[13] > 4.0) && c.severity != Low
      case Ip => c.severity == High
      case At => c.severity == High
      case Port => c.severity == Medium
      case Parameters => (c.severity == Medium <==> f[15] > 10.0) && c.severity != High
  {
    forall c | c in Concerns(f) ensures c == Describe(f, c.kind) {
      ConcernPresentIffRaised(f, c.kind);
    }
  }

  /** What `calculate_entropy` guarantees of its result: never negative, and 0 for the empty URL. */
  predicate EntropyRange(url: string, entropy: real) {
    0.0 <= entropy && (url == "" ==> entropy == 0.0)
  }

  /**
   * With an entropy in that range feature 15 is never negative, and the empty URL never
   * raises the entropy concern.
   */
  lemma EntropyFeature(url: string, parsed: ParsedUrl, entropy: real)
    requires EntropyRange(url, entropy)
    ensures FeatureVector(url, parsed, entropy)[14] == entropy
    ensures FeatureVector(url, parsed, entropy)[14] >= 0.0
    ensures url == "" ==> !HasConcern(Concerns(FeatureVector(url, parsed, entropy)), Entropy)
  {
    ConcernPresentIffRaised(FeatureVector(url, parsed, entropy), Entropy);
  }

  /** The concern of kind `k` when it is raised, and nothing otherwise. */
  function Step(f: seq<real>, k: ConcernKind): seq<Concern>
    requires |f| == 18
  {
    Opt(Raised(f, k), Describe(f, k))
  }

  /** `Concerns` unrolled: one optional record per kind, in checking order. */
  lemma ConcernsUnrolled(f: seq<real>)
    requires |f| == 18
    ensures Concerns(f) == [] + Step(f, Length) + Step(f, Ip) + Step(f, Entropy) + Step(f, Keywords)
      + Step(f, At) + Step(f, Port) + Step(f, Parameters)
  {
    var all := AllConcerns(f);
    var raised := (c: Concern) => Raised(f, c.kind);
    assert Concerns(f) == Keep(all, raised);
    KeepSeven(all, raised);
  }

  /** The concern checks of `explain_prediction`, each appending its record when its threshold is exceeded. */
  method ExplainConcerns(features: seq<real>) returns (concerns: seq<Concern>)
    requires |features| == 18
    ensures concerns == Concerns(features)
  {
    concerns := [];
    ghost var expected: seq<Concern> := [];
    if Raised(features, Length) {
      concerns := concerns + [Describe(features, Length)];
    }
    expected := expected + Step(features, Length);
    assert concerns == expected;
    if Raised(features, Ip) {
      concerns := concerns + [Describe(features, Ip)];
    }
    expected := expected + Step(features, Ip);
    assert concerns == expected;
    if Raised(features, Entropy) {
      concerns := concerns + [Describe(features, Entropy)];
    }
    expected := expected + Step(features, Entropy);
    assert concerns == expected;
    if Raised(features, Keywords) {
      concerns := concerns + [Describe(features, Keywords)];
    }
    expected := expected + Step(features, Keywords);
    assert concerns == expected;
    if Raised(features, At) {
      concerns := concerns + [Describe(features, At)];
    }
    expected := expected + Step(features, At);
    assert concerns == expected;
    if Raised(features, Port) {
      concerns := concerns + [Describe(features, Port)];
    }
    expected := expected + Step(features, Port);
    assert concerns == expected;
    if Raised(features, Parameters) {
      concerns := concerns + [Describe(features, Parameters)];
    }
    expected := expected + Step(features, Parameters);
    assert concerns == expected;
    ConcernsUnrolled(features);
  }

  // ---------------------------------------------------------------------------------------
  // Text explanation

  const SuspiciousTlds: seq<string> := [".tk", ".ml", ".ga", ".cf", ".xyz", ".top"]

  /** The reasons `_generate_url_text_explanation` can give; `Text` is the sentence it appends. */
  datatype UrlReason = ManySubdomains | SuspiciousTld(tld: string) | LongPath | PhishingTerms | MlFallback
  {
    function Text(): string {
      match this
      case ManySubdomains => "Domain has many subdomains, which can be used to appear legitimate"
      case SuspiciousTld(t) => "Uses '" + t + "' top-level domain, often associated with suspicious sites"
      case LongPath => "Unusually long path in URL, may contain obfuscated content"
      case PhishingTerms => "Contains terms commonly used in phishing attempts"
      case MlFallback => "Based on machine learning analysis of URL structure and patterns"
    }
  }

  /** The first of `tlds[from..]` that `url` ends with, if any. */
  function FirstEnding(url: string, tlds: seq<string>, from: nat): (r: Option<string>)
    requires from <= |tlds|
    ensures r.Some? ==> EndsWith(url, r.value)
    decreases |tlds| - from
  {
    if from == |tlds| then None
    else if EndsWith(url, tlds[from]) then Some(tlds[from])
    else FirstEnding(url, tlds, from + 1)
  }

  /**
   * `FirstEnding` finds nothing exactly when no ending of `tlds[from..]` fits, and otherwise
   * finds the first one that does.
   */
  lemma {:induction false} FirstEndingIsFirst(url: string, tlds: seq<string>, from: nat)
    requires from <= |tlds|
    ensures FirstEnding(url, tlds, from).None? <==> forall i :: from <= i < |tlds| ==> !EndsWith(url, tlds[i])
    ensures FirstEnding(url, tlds, from).Some? ==>
      exists i :: from <= i < |tlds| && tlds[i] == FirstEnding(url, tlds, from).value
        && (forall m :: from <= m < i ==> !EndsWith(url, tlds[m]))
    decreases |tlds| - from
  {
    if from == |tlds| {
    } else if EndsWith(url, tlds[from]) {
      assert FirstEnding(url, tlds, from) == Some(tlds[from]);
    } else {
      var next := FirstEnding(url, tlds, from + 1);
      assert FirstEnding(url, tlds, from) == next;
      FirstEndingIsFirst(url, tlds, from + 1);
      if next.Some? {
        var i :| from + 1 <= i < |tlds| && tlds[i] == next.value
          && (forall m :: from + 1 <= m < i ==> !EndsWith(url, tlds[m]));
        assert forall m :: from <= m < i ==> !EndsWith(url, tlds[m]);
      }
    }
  }

  /** An ending is found exactly when the URL ends with one of `tlds`, and it is the first such. */
  lemma FirstEndingFound(url: string, tlds: seq<string>)
    ensures FirstEnding(url, tlds, 0).Some? <==> exists t :: t in tlds && EndsWith(url, t)
    ensures FirstEnding(url, tlds, 0).Some? ==>
      exists k :: 0 <= k < |tlds| && tlds[k] == FirstEnding(url, tlds, 0).value
        && EndsWith(url, tlds[k]) && forall m :: 0 <= m < k ==> !EndsWith(url, tlds[m])
  {
    FirstEndingIsFirst(url, tlds, 0);
    if exists t :: t in tlds && EndsWith(url, t) {
      var t :| t in tlds && EndsWith(url, t);
      var k :| 0 <= k < |tlds| && tlds[k] == t;
    }
  }

  /** The domain splits into more than three dot-separated parts. */
  predicate HasManySubdomains(netloc: string) {
    '.' in netloc && |Split(netloc, '.')| > 3
  }

  /** `login`, `secure` or `account` occurs in the lower-cased URL. */
  predicate HasPhishingTerms(url: string) {
    var lowered := ToLower(url);
    Contains(lowered, "login") || Contains(lowered, "secure") || Contains(lowered, "account")
  }

  /**
   * The reasons of the four checks given their outcomes, in checking order: the subdomain
   * check, the first suspicious ending found, the path check and the phishing-terms check.
   */
  function Assemble(many: bool, tld: Option<string>, longPath: bool, phishing: bool): seq<UrlReason> {
    Opt(many, ManySubdomains) + EndingReason(tld) + Opt(longPath, LongPath) + Opt(phishing, PhishingTerms)
  }

  /** The reason for the ending found, if one was. */
  function EndingReason(tld: Option<string>): seq<UrlReason> {
    match tld
    case Some(t) => [SuspiciousTld(t)]
    case None => []
  }

  /** The reasons found, or the fallback alone when none is. */
  function WithFallback(found: seq<UrlReason>): seq<UrlReason> {
    if found == [] then [MlFallback] else found
  }

  /** The reasons found by the four checks, in checking order, before the fallback is considered. */
  function FoundReasons(url: string, parsed: ParsedUrl): seq<UrlReason> {
    Assemble(HasManySubdomains(parsed.netloc), FirstEnding(url, SuspiciousTlds, 0), |parsed.path| > 50,
      HasPhishingTerms(url))
  }

  /** `_generate_url_text_explanation`: the reasons found, or the fallback alone when none is. */
  function UrlTextExplanation(url: string, parsed: ParsedUrl): seq<UrlReason> {
    WithFallback(FoundReasons(url, parsed))
  }

  /** `_generate_url_text_explanation`, with its `for`/`break` search of the suspicious endings. */
  method GenerateUrlTextExplanation(url: string, parsed: ParsedUrl) returns (explanations: seq<UrlReason>)
    ensures explanations == UrlTextExplanation(url, parsed)
  {
    explanations := [];
    var domain, path := parsed.netloc, parsed.path;
    if '.' in domain {
      var parts := Split(domain, '.');
      if |parts| > 3 {
        explanations := explanations + [ManySubdomains];
      }
    }
    ghost var checked := explanations;
    assert checked == Opt(HasManySubdomains(domain), ManySubdomains);
    ghost var first := FirstEnding(url, SuspiciousTlds, 0);
    var i := 0;
    while i < |SuspiciousTlds|
      invariant 0 <= i <= |SuspiciousTlds|
      invariant explanations == checked
      invariant FirstEnding(url, SuspiciousTlds, i) == first
    {
      var tld := SuspiciousTlds[i];
      if EndsWith(url, tld) {
        explanations := explanations + [SuspiciousTld(tld)];
        assert explanations == checked + EndingReason(first);
        break;
      }
      i := i + 1;
    }
    assert explanations == checked + EndingReason(first);
    if |path| > 50 {
      explanations := explanations + [LongPath];
    }
    var lowered := ToLower(url);
    if Contains(lowered, "login") || Contains(lowered, "secure") || Contains(lowered, "account") {
      explanations := explanations + [PhishingTerms];
    }
    assert explanations == FoundReasons(url, parsed);
    if explanations == [] {
      explanations := explanations + [MlFallback];
    }
  }

  /** The subdomain rule fires exactly when the domain has at least three dots. */
  lemma ManySubdomainsIffThreeDots(netloc: string)
    ensures HasManySubdomains(netloc) <==> Count(netloc, '.') >= 3
  {
  }

  /**
   * Whatever the outcomes of the checks, the explanation has one to four entries, and the
   * fallback appears exactly when no check fires, and then alone.
   */
  lemma AssembledFallback(many: bool, tld: Option<string>, longPath: bool, phishing: bool)
    ensures 1 <= |WithFallback(Assemble(many, tld, longPath, phishing))| <= 4
    ensures MlFallback in WithFallback(Assemble(many, tld, longPath, phishing)) <==>
      !many && tld.None? && !longPath && !phishing
    ensures MlFallback in WithFallback(Assemble(many, tld, longPath, phishing)) ==>
      WithFallback(Assemble(many, tld, longPath, phishing)) == [MlFallback]
  {
  }

  /**
   * The explanation is never empty and has at most four entries; the fallback appears exactly
   * when none of the four checks fires, and then it is the only entry.
   */
  lemma UrlFallbackIffNoRule(url: string, parsed: ParsedUrl)
    ensures 1 <= |UrlTextExplanation(url, parsed)| <= 4
    ensures MlFallback in UrlTextExplanation(url, parsed) <==>
      !HasManySubdomains(parsed.netloc)
      && (forall t :: t in SuspiciousTlds ==> !EndsWith(url, t))
      && |parsed.path| <= 50
      && !HasPhishingTerms(url)
    ensures MlFallback in UrlTextExplanation(url, parsed) ==> UrlTextExplanation(url, parsed) == [MlFallback]
  {
    var first := FirstEnding(url, SuspiciousTlds, 0);
    var e := UrlTextExplanation(url, parsed);
    assert e == WithFallback(Assemble(HasManySubdomains(parsed.netloc), first, |parsed.path| > 50, HasPhishingTerms(url)));
    AssembledFallback(HasManySubdomains(parsed.netloc), first, |parsed.path| > 50, HasPhishingTerms(url));
    FirstEndingFound(url, SuspiciousTlds);
    assert first.None? <==> forall t :: t in SuspiciousTlds ==> !EndsWith(url, t);
  }

  /**
   * Whatever the outcomes of the checks, at most one entry is an ending reason, there is one
   * exactly when an ending was found, and it names that ending.
   */
  lemma AssembledTldReason(many: bool, tld: Option<string>, longPath: bool, phishing: bool)
    ensures var e := WithFallback(Assemble(many, tld, longPath, phishing));
      forall i, j :: 0 <= i < |e| && 0 <= j < |e| && e[i].SuspiciousTld? && e[j].SuspiciousTld? ==> i == j
    ensures var e := WithFallback(Assemble(many, tld, longPath, phishing));
      (exists i :: 0 <= i < |e| && e[i].SuspiciousTld?) <==> tld.Some?
    ensures var e := WithFallback(Assemble(many, tld, longPath, phishing));
      forall r :: r in e && r.SuspiciousTld? ==> tld == Some(r.tld)
  {
    var a := Opt(many, ManySubdomains);
    var b := EndingReason(tld);
    var c := Opt(longPath, LongPath) + Opt(phishing, PhishingTerms);
    var e := WithFallback(Assemble(many, tld, longPath, phishing));
    if Assemble(many, tld, longPath, phishing) != [] {
      assert Assemble(many, tld, longPath, phishing) == a + b + c;
      TldReasonsInMiddle(a, b, c);
      if tld.Some? {
        assert e[|a|] == SuspiciousTld(tld.value);
      }
    }
  }

  /** In `a + b + c` with no ending reason in `a` or `c`, the ending reasons are those of `b`. */
  lemma TldReasonsInMiddle(a: seq<UrlReason>, b: seq<UrlReason>, c: seq<UrlReason>)
    requires forall r :: r in a ==> !r.SuspiciousTld?
    requires forall r :: r in c ==> !r.SuspiciousTld?
    ensures forall i :: 0 <= i < |a + b + c| && (a + b + c)[i].SuspiciousTld? ==>
      |a| <= i < |a| + |b| && (a + b + c)[i] == b[i - |a|]
  {
  }

  /**
   * Because of the `break`, at most one top-level-domain reason is given: one is given exactly
   * when the URL ends with a suspicious ending, and it names the first such ending in list order.
   */
  lemma AtMostOneTldReason(url: string, parsed: ParsedUrl)
    ensures forall i, j ::
      (0 <= i < |UrlTextExplanation(url, parsed)| && 0 <= j < |UrlTextExplanation(url, parsed)|
       && UrlTextExplanation(url, parsed)[i].SuspiciousTld? && UrlTextExplanation(url, parsed)[j].SuspiciousTld?)
      ==> i == j
    ensures (exists i :: 0 <= i < |UrlTextExplanation(url, parsed)| && UrlTextExplanation(url, parsed)[i].SuspiciousTld?)
      <==> exists t :: t in SuspiciousTlds && EndsWith(url, t)
    ensures forall r :: r in UrlTextExplanation(url, parsed) && r.SuspiciousTld? ==>
      exists k :: 0 <= k < |SuspiciousTlds| && SuspiciousTlds[k] == r.tld && EndsWith(url, r.tld)
        && forall m :: 0 <= m < k ==> !EndsWith(url, SuspiciousTlds[m])
  {
    var first := FirstEnding(url, SuspiciousTlds, 0);
    var e := UrlTextExplanation(url, parsed);
    assert e == WithFallback(Assemble(HasManySubdomains(parsed.netloc), first, |parsed.path| > 50, HasPhishingTerms(url)));
    AssembledTldReason(HasManySubdomains(parsed.netloc), first, |parsed.path| > 50, HasPhishingTerms(url));
    FirstEndingFound(url, SuspiciousTlds);
    assert (exists i :: 0 <= i < |e| && e[i].SuspiciousTld?) <==> first.Some?;
  }

  // ---------------------------------------------------------------------------------------
  // Prediction record

  const UrlLabels: seq<string> := ["safe", "suspicious", "malicious"]

  /** The prediction record of `predict` for the model's class index and probability vector. */
  function PredictUrl(index: int, probabilities: Option<seq<real>>): (r: Prediction.ClassifierOutput)
    requires probabilities.Some? ==> 0 < |probabilities.value| <= |UrlLabels|
    ensures r.prediction in UrlLabels + ["unknown"]
    ensures r.prediction == "malicious" <==> index == 2
    ensures probabilities.None? ==> r.confidence == 1.0
    ensures probabilities.Some? ==> forall p :: p in probabilities.value ==> p <= r.confidence
  {
    Prediction.Predict(UrlLabels, index, probabilities)
  }
}
