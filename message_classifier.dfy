/**
 * The message classifier's deterministic part: the text normalisation done before the model
 * sees a message, the seven-rule checklist of its text explanation, the glue that turns the
 * model's output into a prediction record, and the selection of the most telling words from
 * the weights of a linear model.
 *
 * The model is outside this module: its predicted class, its probability vector, its
 * vocabulary and its coefficients are inputs, and so is the index order `np.argsort` returns.
 */
module MessageClassifier {
  import opened Wrappers
  import opened Text
  import opened Checklist
  import Prediction

  const MessageLabels: seq<string> := ["safe", "suspicious", "scam"]

  // ---------------------------------------------------------------------------------------
  // Preprocessing

  /** `preprocess`: `message.lower().strip()`. */
  function Preprocess(message: string): string {
    Strip(ToLower(message))
  }

  /** The preprocessed message is lower case and has no white space at either end. */
  lemma PreprocessShape(message: string)
    ensures IsLowerCase(Preprocess(message))
    ensures Trimmed(Preprocess(message))
  {
    var lowered := ToLower(message);
    ToLowerIsLowerCase(message);
    var i, j := StripIsSlice(lowered);
    SliceOfLowerCase(lowered, i, j);
  }

  /** Preprocessing a preprocessed message changes nothing. */
  lemma PreprocessIdempotent(message: string)
    ensures Preprocess(Preprocess(message)) == Preprocess(message)
  {
    var once := Preprocess(message);
    PreprocessShape(message);
    ToLowerOfLowerCase(once);
    StripOfTrimmed(once);
  }

  /** The prediction record of `predict` for the model's class index and probability vector. */
  function PredictMessage(index: int, probabilities: Option<seq<real>>): (r: Prediction.ClassifierOutput)
    requires probabilities.Some? ==> 0 < |probabilities.value| <= |MessageLabels|
    ensures r.prediction in MessageLabels + ["unknown"]
    ensures r.prediction == "scam" <==> index == 2
    ensures probabilities.None? ==> r.confidence == 1.0
    ensures probabilities.Some? ==> forall p :: p in probabilities.value ==> p <= r.confidence
  {
    Prediction.Predict(MessageLabels, index, probabilities)
  }

  // ---------------------------------------------------------------------------------------
  // Text explanation

  /** The reasons `_generate_text_explanation` can give; `Text` is the sentence it appends. */
  datatype Reason =
    | UrgentLanguage | ActionPrompt | SensitiveInformation | EmailPattern
    | LongMessage | ExcessivePunctuation | Currency | LearnedPatterns
  {
    function Text(): string {
      match this
      case UrgentLanguage => "Contains urgent language, often used to pressure victims"
      case ActionPrompt => "Contains suspicious action prompts"
      case SensitiveInformation => "Asks for sensitive information"
      case EmailPattern => "Contains email-like patterns that may be spoofed"
      case LongMessage => "Unusually long message, may contain obfuscated content"
      case ExcessivePunctuation => "Contains excessive punctuation for emphasis"
      case Currency => "Mentions currency, common in financial scams"
      case LearnedPatterns => "Based on learned patterns from training data"
    }
  }

  /** Position in the checklist; the fallback comes after every rule. */
  function Rank(r: Reason): int {
    match r
    case UrgentLanguage => 0
    case ActionPrompt => 1
    case SensitiveInformation => 2
    case EmailPattern => 3
    case LongMessage => 4
    case ExcessivePunctuation => 5
    case Currency => 6
    case LearnedPatterns => 7
  }

  /** The seven rules, in checking order. */
  const Rules: seq<Reason> :=
    [UrgentLanguage, ActionPrompt, SensitiveInformation, EmailPattern, LongMessage, ExcessivePunctuation, Currency]

  // The seven rules. The first three search the lower-cased message, the other four the
  // message as given.

  predicate UrgencyRule(message: string) {
    var lowered := ToLower(message);
    Contains(lowered, "urgent") || Contains(lowered, "immediate")
  }

  predicate ActionPromptRule(message: string) {
    var lowered := ToLower(message);
    Contains(lowered, "click here") || Contains(lowered, "verify account")
  }

  predicate CredentialRule(message: string) {
    var lowered := ToLower(message);
    Contains(lowered, "password") || Contains(lowered, "credential")
  }

  predicate EmailPatternRule(message: string) {
    '@' in message && '.' in message
  }

  predicate LengthRule(message: string) {
    |message| > 200
  }

  predicate PunctuationRule(message: string) {
    Contains(message, "!!!") || Contains(message, "???")
  }

  predicate CurrencyRule(message: string) {
    '$' in message || '€' in message || '£' in message
  }

  /** Whether the rule giving reason `r` fires; the fallback is not a rule. */
  predicate Fires(message: string, r: Reason) {
    match r
    case UrgentLanguage => UrgencyRule(message)
    case ActionPrompt => ActionPromptRule(message)
    case SensitiveInformation => CredentialRule(message)
    case EmailPattern => EmailPatternRule(message)
    case LongMessage => LengthRule(message)
    case ExcessivePunctuation => PunctuationRule(message)
    case Currency => CurrencyRule(message)
    case LearnedPatterns => false
  }

  /** The rule reasons that fire: one `if ...: append` step per rule, in checking order. */
  function FiredRules(message: string): seq<Reason> {
    [] + Opt(UrgencyRule(message), UrgentLanguage) + Opt(ActionPromptRule(message), ActionPrompt)
    + Opt(CredentialRule(message), SensitiveInformation) + Opt(EmailPatternRule(message), EmailPattern)
    + Opt(LengthRule(message), LongMessage) + Opt(PunctuationRule(message), ExcessivePunctuation)
    + Opt(CurrencyRule(message), Currency)
  }

  /** The fired reasons, or the fallback alone when there are none. */
  function WithFallback(fired: seq<Reason>): seq<Reason> {
    if fired == [] then [LearnedPatterns] else fired
  }

  /** `_generate_text_explanation`: the reasons of the rules that fire, or the fallback alone. */
  function TextExplanation(message: string): seq<Reason> {
    WithFallback(FiredRules(message))
  }

  /** Running through the checklist `Rules` with any firing test, one rule at a time. */
  lemma KeepRules(fires: Reason -> bool)
    ensures Keep(Rules, fires) == [] + Opt(fires(UrgentLanguage), UrgentLanguage) + Opt(fires(ActionPrompt), ActionPrompt)
      + Opt(fires(SensitiveInformation), SensitiveInformation) + Opt(fires(EmailPattern), EmailPattern)
      + Opt(fires(LongMessage), LongMessage) + Opt(fires(ExcessivePunctuation), ExcessivePunctuation)
      + Opt(fires(Currency), Currency)
  {
    KeepSeven(Rules, fires);
  }

  /** The seven steps are the checklist `Rules` filtered by `Fires`. */
  lemma FiredRulesIsChecklist(message: string)
    ensures FiredRules(message) == Keep(Rules, (r: Reason) => Fires(message, r))
  {
    KeepRules((r: Reason) => Fires(message, r));
  }

  /**
   * `_generate_text_explanation(original_message, processed_message)`, appending a reason
   * per rule that fires. The processed message is accepted and never read.
   */
  method GenerateTextExplanation(originalMessage: string, processedMessage: string)
    returns (explanations: seq<Reason>)
    ensures explanations == TextExplanation(originalMessage)
  {
    var m := originalMessage;
    var messageLower := ToLower(originalMessage);
    explanations := [];
    explanations := explanations
      + (if Contains(messageLower, "urgent") || Contains(messageLower, "immediate") then [UrgentLanguage] else []);
    assert explanations == [] + Opt(UrgencyRule(m), UrgentLanguage);
    explanations := explanations
      + (if Contains(messageLower, "click here") || Contains(messageLower, "verify account") then [ActionPrompt] else []);
    assert explanations == [] + Opt(UrgencyRule(m), UrgentLanguage) + Opt(ActionPromptRule(m), ActionPrompt);
    explanations := explanations
      + (if Contains(messageLower, "password") || Contains(messageLower, "credential") then [SensitiveInformation] else []);
    assert explanations == [] + Opt(UrgencyRule(m), UrgentLanguage) + Opt(ActionPromptRule(m), ActionPrompt)
      + Opt(CredentialRule(m), SensitiveInformation);
    explanations := explanations
      + (if '@' in originalMessage && '.' in originalMessage then [EmailPattern] else []);
    assert explanations == [] + Opt(UrgencyRule(m), UrgentLanguage) + Opt(ActionPromptRule(m), ActionPrompt)
      + Opt(CredentialRule(m), SensitiveInformation) + Opt(EmailPatternRule(m), EmailPattern);
    explanations := explanations
      + (if |originalMessage| > 200 then [LongMessage] else []);
    assert explanations == [] + Opt(UrgencyRule(m), UrgentLanguage) + Opt(ActionPromptRule(m), ActionPrompt)
      + Opt(CredentialRule(m), SensitiveInformation) + Opt(EmailPatternRule(m), EmailPattern)
      + Opt(LengthRule(m), LongMessage);
    explanations := explanations
      + (if Contains(originalMessage, "!!!") || Contains(originalMessage, "???") then [ExcessivePunctuation] else []);
    assert explanations == [] + Opt(UrgencyRule(m), UrgentLanguage) + Opt(ActionPromptRule(m), ActionPrompt)
      + Opt(CredentialRule(m), SensitiveInformation) + Opt(EmailPatternRule(m), EmailPattern)
      + Opt(LengthRule(m), LongMessage) + Opt(PunctuationRule(m), ExcessivePunctuation);
    explanations := explanations
      + (if '$' in originalMessage || '€' in originalMessage || '£' in originalMessage then [Currency] else []);
    assert explanations == FiredRules(m);
    if explanations == [] {
      explanations := explanations + [LearnedPatterns];
    }
  }

  /** The checklist is in rank order and does not contain the fallback. */
  lemma RulesRanked()
    ensures |Rules| == 7
    ensures Ranked(Rules, Rank)
    ensures LearnedPatterns !in Rules
  {
  }

  /**
   * Keeping the firing entries of a non-empty ranked list without the fallback, and falling
   * back when none fires, gives at least one and at most `|xs|` reasons in rank order, an
   * entry's reason exactly when it fires, and the fallback alone exactly when none does.
   */
  lemma FallbackShape(xs: seq<Reason>, fires: Reason -> bool)
    requires xs != []
    requires Ranked(xs, Rank)
    requires LearnedPatterns !in xs
    ensures 1 <= |WithFallback(Keep(xs, fires))| <= |xs|
    ensures Ranked(WithFallback(Keep(xs, fires)), Rank)
    ensures forall r :: r in xs ==> (r in WithFallback(Keep(xs, fires)) <==> fires(r))
    ensures LearnedPatterns in WithFallback(Keep(xs, fires)) <==> forall r :: r in xs ==> !fires(r)
    ensures LearnedPatterns in WithFallback(Keep(xs, fires)) ==> WithFallback(Keep(xs, fires)) == [LearnedPatterns]
  {
    var kept := Keep(xs, fires);
    KeepRanked(xs, fires, Rank);
    KeepMembers(xs, fires);
    if kept != [] {
      assert kept[0] in kept;
    }
  }

  /**
   * Whatever the firing test, the checklist gives one to seven reasons in checklist order,
   * a rule's reason exactly when the rule fires, and the fallback alone exactly when none does.
   */
  lemma ChecklistShape(fires: Reason -> bool)
    ensures 1 <= |WithFallback(Keep(Rules, fires))| <= 7
    ensures Ranked(WithFallback(Keep(Rules, fires)), Rank)
    ensures forall r :: r in Rules ==> (r in WithFallback(Keep(Rules, fires)) <==> fires(r))
    ensures LearnedPatterns in WithFallback(Keep(Rules, fires)) <==> forall r :: r in Rules ==> !fires(r)
    ensures LearnedPatterns in WithFallback(Keep(Rules, fires)) ==> WithFallback(Keep(Rules, fires)) == [LearnedPatterns]
  {
    RulesRanked();
    FallbackShape(Rules, fires);
  }

  /** Between one and seven reasons, each at most once, in checklist order. */
  lemma ExplanationInChecklistOrder(message: string)
    ensures 1 <= |TextExplanation(message)| <= 7
    ensures Ranked(TextExplanation(message), Rank)
  {
    FiredRulesIsChecklist(message);
    ChecklistShape((r: Reason) => Fires(message, r));
  }

  /**
   * A rule's reason is given exactly when the rule fires; the fallback is given exactly when
   * no rule fires, and then it is the only reason.
   */
  lemma ReasonIffRuleFires(message: string)
    ensures forall r :: r in Rules ==> (r in TextExplanation(message) <==> Fires(message, r))
    ensures LearnedPatterns in TextExplanation(message) <==> forall r :: r in Rules ==> !Fires(message, r)
    ensures LearnedPatterns in TextExplanation(message) ==> TextExplanation(message) == [LearnedPatterns]
  {
    FiredRulesIsChecklist(message);
    ChecklistShape((r: Reason) => Fires(message, r));
  }

  /** Two messages on which every rule agrees get the same explanation. */
  lemma SameRulesSameExplanation(a: string, b: string)
    requires forall r :: Fires(a, r) == Fires(b, r)
    ensures TextExplanation(a) == TextExplanation(b)
  {
    assert Fires(a, UrgentLanguage) == Fires(b, UrgentLanguage);
    assert Fires(a, ActionPrompt) == Fires(b, ActionPrompt);
    assert Fires(a, SensitiveInformation) == Fires(b, SensitiveInformation);
    assert Fires(a, EmailPattern) == Fires(b, EmailPattern);
    assert Fires(a, LongMessage) == Fires(b, LongMessage);
    assert Fires(a, ExcessivePunctuation) == Fires(b, ExcessivePunctuation);
    assert Fires(a, Currency) == Fires(b, Currency);
  }

  /** The first three rules search the lower-cased message, so they ignore ASCII case. */
  lemma LoweredRulesIgnoreCase(message: string)
    ensures UrgencyRule(ToLower(message)) == UrgencyRule(message)
    ensures ActionPromptRule(ToLower(message)) == ActionPromptRule(message)
    ensures CredentialRule(ToLower(message)) == CredentialRule(message)
    ensures UrgencyRule(ToUpper(message)) == UrgencyRule(message)
    ensures ActionPromptRule(ToUpper(message)) == ActionPromptRule(message)
    ensures CredentialRule(ToUpper(message)) == CredentialRule(message)
  {
    LowerOfUpper(message);
    ToLowerIsLowerCase(message);
    ToLowerOfLowerCase(ToLower(message));
  }

  /** The other four rules look for patterns without letters, so they ignore ASCII case too. */
  lemma PlainRulesIgnoreCase(message: string)
    ensures EmailPatternRule(ToLower(message)) == EmailPatternRule(message)
    ensures LengthRule(ToLower(message)) == LengthRule(message)
    ensures PunctuationRule(ToLower(message)) == PunctuationRule(message)
    ensures CurrencyRule(ToLower(message)) == CurrencyRule(message)
    ensures EmailPatternRule(ToUpper(message)) == EmailPatternRule(message)
    ensures LengthRule(ToUpper(message)) == LengthRule(message)
    ensures PunctuationRule(ToUpper(message)) == PunctuationRule(message)
    ensures CurrencyRule(ToUpper(message)) == CurrencyRule(message)
  {
    ContainsNonLetterIgnoresCase(message, "!!!");
    ContainsNonLetterIgnoresCase(message, "???");
    NonLetterInIgnoresCase(message, '@');
    NonLetterInIgnoresCase(message, '.');
    NonLetterInIgnoresCase(message, '$');
    NonLetterInIgnoresCase(message, '€');
    NonLetterInIgnoresCase(message, '£');
  }

  /** The explanation ignores ASCII case. */
  lemma ExplanationIgnoresCase(message: string)
    ensures TextExplanation(ToLower(message)) == TextExplanation(message)
    ensures TextExplanation(ToUpper(message)) == TextExplanation(message)
  {
    LoweredRulesIgnoreCase(message);
    PlainRulesIgnoreCase(message);
    SameRulesSameExplanation(ToLower(message), message);
    SameRulesSameExplanation(ToUpper(message), message);
  }

  /** An urgent message that asks to click a link and for a password, with triple exclamation marks. */
  const UrgentSample: string :=
    "URGENT" + "!!!" + " Verify your account now, " + "click here" + ": http://bit.ly/x, send your " + "password"

  /** A message with urgent wording, a click prompt, a password request and `!!!` gets those four reasons. */
  lemma UrgentClickPasswordReasons(m: string)
    requires Contains(ToLower(m), "urgent")
    requires Contains(ToLower(m), "click here")
    requires Contains(ToLower(m), "password")
    requires Contains(m, "!!!")
    ensures var e := TextExplanation(m);
      && UrgentLanguage in e && ActionPrompt in e && SensitiveInformation in e && ExcessivePunctuation in e
      && LearnedPatterns !in e && |e| >= 4
  {
    ReasonIffRuleFires(m);
    ExplanationInChecklistOrder(m);
    var e := TextExplanation(m);
    assert forall i, j :: 0 <= i < j < |e| ==> e[i] != e[j];
    assert {UrgentLanguage, ActionPrompt, SensitiveInformation, ExcessivePunctuation} <= set r | r in e;
  }

  /** The urgent sample gets at least the urgency, action, credential and punctuation reasons. */
  lemma UrgentScamMessage()
    ensures var e := TextExplanation(UrgentSample);
      && UrgentLanguage in e && ActionPrompt in e && SensitiveInformation in e && ExcessivePunctuation in e
      && LearnedPatterns !in e && |e| >= 4
  {
    SampleSaysUrgent();
    SampleHasTriplePunctuation();
    SampleSaysClickHere();
    SampleAsksForPassword();
    UrgentClickPasswordReasons(UrgentSample);
  }

  // The sample's trigger phrases, one occurrence at a time.

  lemma SampleSaysUrgent()
    ensures Contains(ToLower(UrgentSample), "urgent")
  {
    var x, y := " Verify your account now, ", ": http://bit.ly/x, send your ";
    OccursInLowered("", "URGENT", "!!!" + x + "click here" + y + "password");
    assert ToLower("URGENT") == "urgent";
  }

  lemma SampleHasTriplePunctuation()
    ensures Contains(UrgentSample, "!!!")
  {
    var x, y := " Verify your account now, ", ": http://bit.ly/x, send your ";
    assert UrgentSample == "URGENT" + "!!!" + (x + "click here" + y + "password");
    OccursIn("URGENT", "!!!", x + "click here" + y + "password");
  }

  lemma SampleSaysClickHere()
    ensures Contains(ToLower(UrgentSample), "click here")
  {
    var x, y := " Verify your account now, ", ": http://bit.ly/x, send your ";
    assert UrgentSample == "URGENT" + "!!!" + x + "click here" + (y + "password");
    OccursInLowered("URGENT" + "!!!" + x, "click here", y + "password");
    assert ToLower("click here") == "click here";
  }

  lemma SampleAsksForPassword()
    ensures Contains(ToLower(UrgentSample), "password")
  {
    var x, y := " Verify your account now, ", ": http://bit.ly/x, send your ";
    assert UrgentSample == "URGENT" + "!!!" + x + "click here" + y + "password" + "";
    OccursInLowered("URGENT" + "!!!" + x + "click here" + y, "password", "");
    assert ToLower("password") == "password";
  }

  // ---------------------------------------------------------------------------------------
  // Top words of a linear model

  /** The classifier's `coef_`: one row per class, or a single vector. */
  datatype Coefficients = Matrix(rows: seq<seq<real>>) | Vector(weights: seq<real>)

  /** Every row of a matrix, or the vector, has one weight per vocabulary entry. */
  predicate Shaped(coef: Coefficients, vocabularySize: nat) {
    match coef
    case Matrix(rows) => forall r :: r in rows ==> |r| == vocabularySize
    case Vector(weights) => |weights| == vocabularySize
  }

  /**
   * `class_coef`: the predicted class's row when there is one, the vector itself, and
   * otherwise a zero weight for every vocabulary entry. Whichever branch is taken, well-shaped
   * coefficients give one weight per vocabulary entry, and with no row for the class no
   * weight is positive or negative.
   */
  function ClassCoefficients(coef: Coefficients, prediction: nat, vocabularySize: nat): (w: seq<real>)
    ensures Shaped(coef, vocabularySize) ==> |w| == vocabularySize
    ensures coef.Matrix? && prediction >= |coef.rows| ==>
      |w| == vocabularySize && forall i :: 0 <= i < |w| ==> !PositiveAt(w, i) && !NegativeAt(w, i)
  {
    match coef
    case Matrix(rows) =>
      if prediction < |rows| then
        assert rows[prediction] in rows;
        rows[prediction]
      else seq(vocabularySize, _ => 0.0)
    case Vector(weights) => weights
  }

  /** `order` is an `np.argsort` of `w`: every index exactly once, by non-decreasing weight. */
  ghost predicate IsArgsort(order: seq<nat>, w: seq<real>) {
    |order| == |w|
    && (forall i :: 0 <= i < |order| ==> order[i] < |w|)
    && (forall j :: 0 <= j < |w| ==> j in order)
    && (forall i, j :: 0 <= i < j < |order| ==> order[i] != order[j])
    && (forall i, j :: 0 <= i < j < |order| ==> w[order[i]] <= w[order[j]])
  }

  /** One entry of `important_words` or `concerning_patterns`. */
  datatype WordWeight = WordWeight(word: string, weight: real, importance: real)

  function Abs(x: real): real { if x < 0.0 then -x else x }

  /** The entries for the indices `idx`, in their order. */
  function Entries(vocabulary: seq<string>, w: seq<real>, idx: seq<nat>): (r: seq<WordWeight>)
    requires |w| <= |vocabulary|
    requires forall i :: 0 <= i < |idx| ==> idx[i] < |w|
    ensures |r| == |idx|
  {
    seq(|idx|, k requires 0 <= k < |idx| => WordWeight(vocabulary[idx[k]], w[idx[k]], Abs(w[idx[k]])))
  }

  /** `np.argsort(class_coef)[-10:]`: the indices of the (at most) ten largest weights. */
  function TopPositive(order: seq<nat>): seq<nat> {
    if |order| <= 10 then order else order[|order| - 10..]
  }

  /** `np.argsort(class_coef)[:10]`: the indices of the (at most) ten smallest weights. */
  function TopNegative(order: seq<nat>): seq<nat> {
    if |order| <= 10 then order else order[..10]
  }

  /** Index `i` holds a positive weight. */
  predicate PositiveAt(w: seq<real>, i: nat) { i < |w| && w[i] > 0.0 }

  /** Index `i` holds a negative weight. */
  predicate NegativeAt(w: seq<real>, i: nat) { i < |w| && w[i] < 0.0 }

  /** `important_words`: the entries of the ten largest weights that are positive. */
  function ImportantWords(vocabulary: seq<string>, w: seq<real>, order: seq<nat>): seq<WordWeight>
    requires |w| <= |vocabulary|
    requires forall i :: 0 <= i < |order| ==> order[i] < |w|
  {
    var p := (i: nat) => PositiveAt(w, i);
    var kept := Keep(TopPositive(order), p);
    KeepMembers(TopPositive(order), p);
    assert forall k :: 0 <= k < |kept| ==> kept[k] in kept;
    Entries(vocabulary, w, kept)
  }

  /** `concerning_patterns`: the entries of the ten smallest weights that are negative. */
  function ConcerningPatterns(vocabulary: seq<string>, w: seq<real>, order: seq<nat>): seq<WordWeight>
    requires |w| <= |vocabulary|
    requires forall i :: 0 <= i < |order| ==> order[i] < |w|
  {
    var p := (i: nat) => NegativeAt(w, i);
    var kept := Keep(TopNegative(order), p);
    KeepMembers(TopNegative(order), p);
    assert forall k :: 0 <= k < |kept| ==> kept[k] in kept;
    Entries(vocabulary, w, kept)
  }

  /**
   * Each list has at most ten entries, records the absolute weight as importance, and holds
   * only positive weights (`important_words`) or only negative ones (`concerning_patterns`).
   */
  lemma TopWordSigns(vocabulary: seq<string>, w: seq<real>, order: seq<nat>)
    requires |w| <= |vocabulary|
    requires forall i :: 0 <= i < |order| ==> order[i] < |w|
    ensures |ImportantWords(vocabulary, w, order)| <= 10
    ensures |ConcerningPatterns(vocabulary, w, order)| <= 10
    ensures forall e :: e in ImportantWords(vocabulary, w, order) ==> e.weight > 0.0 && e.importance == e.weight
    ensures forall e :: e in ConcerningPatterns(vocabulary, w, order) ==> e.weight < 0.0 && e.importance == -e.weight
  {
    var pos := (i: nat) => PositiveAt(w, i);
    var neg := (i: nat) => NegativeAt(w, i);
    KeepMembers(TopPositive(order), pos);
    KeepMembers(TopNegative(order), neg);
    var kp := Keep(TopPositive(order), pos);
    var kn := Keep(TopNegative(order), neg);
    forall e | e in ImportantWords(vocabulary, w, order) ensures e.weight > 0.0 && e.importance == e.weight {
      var k :| 0 <= k < |kp| && ImportantWords(vocabulary, w, order)[k] == e;
      assert kp[k] in kp;
    }
    forall e | e in ConcerningPatterns(vocabulary, w, order) ensures e.weight < 0.0 && e.importance == -e.weight {
      var k :| 0 <= k < |kn| && ConcerningPatterns(vocabulary, w, order)[k] == e;
      assert kn[k] in kn;
    }
  }

  /** In an argsort order, every index from `start` on carries a weight at least every earlier index's. */
  lemma SuffixDominates(order: seq<nat>, w: seq<real>, start: nat)
    requires IsArgsort(order, w)
    requires start <= |order|
    ensures forall x, j :: x in order[start..] && 0 <= j < |w| && j !in order[start..] ==> w[j] <= w[x]
  {
    var suffix := order[start..];
    forall x, j | x in suffix && 0 <= j < |w| && j !in suffix ensures w[j] <= w[x] {
      var p' :| 0 <= p' < |suffix| && suffix[p'] == x;
      assert j in order;
      var q :| 0 <= q < |order| && order[q] == j;
      assert forall t :: start <= t < |order| ==> order[t] == suffix[t - start];
      assert order[start + p'] == x;
    }
  }

  /** In an argsort order, every index before `end` carries a weight at most every later index's. */
  lemma PrefixIsDominated(order: seq<nat>, w: seq<real>, end: nat)
    requires IsArgsort(order, w)
    requires end <= |order|
    ensures forall x, j :: x in order[..end] && 0 <= j < |w| && j !in order[..end] ==> w[x] <= w[j]
  {
    var prefix := order[..end];
    forall x, j | x in prefix && 0 <= j < |w| && j !in prefix ensures w[x] <= w[j] {
      var p :| 0 <= p < |prefix| && prefix[p] == x;
      assert j in order;
      var q :| 0 <= q < |order| && order[q] == j;
      assert forall t :: 0 <= t < end ==> order[t] == prefix[t];
      assert order[p] == x;
    }
  }

  /** The index list `kept` becomes entries in its own order: each index's entry is there. */
  lemma EntriesHold(vocabulary: seq<string>, w: seq<real>, kept: seq<nat>, i: nat)
    requires |w| <= |vocabulary|
    requires forall k :: 0 <= k < |kept| ==> kept[k] < |w|
    requires i in kept
    ensures i < |w| && WordWeight(vocabulary[i], w[i], Abs(w[i])) in Entries(vocabulary, w, kept)
  {
    var k :| 0 <= k < |kept| && kept[k] == i;
    assert Entries(vocabulary, w, kept)[k] == WordWeight(vocabulary[i], w[i], Abs(w[i]));
  }

  /** Every entry comes from one of the indices in `kept`. */
  lemma EntriesFrom(vocabulary: seq<string>, w: seq<real>, kept: seq<nat>, e: WordWeight)
    requires |w| <= |vocabulary|
    requires forall k :: 0 <= k < |kept| ==> kept[k] < |w|
    requires e in Entries(vocabulary, w, kept)
    ensures exists i :: i in kept && i < |w| && e.weight == w[i]
  {
    var k :| 0 <= k < |kept| && Entries(vocabulary, w, kept)[k] == e;
    assert kept[k] in kept;
  }

  /**
   * For an argsort order, `important_words` lists every positive weight among the ten largest,
   * and each entry is at least as large as every weight outside those ten.
   */
  lemma ImportantWordsAreTop(vocabulary: seq<string>, w: seq<real>, order: seq<nat>)
    requires |w| <= |vocabulary|
    requires IsArgsort(order, w)
    ensures forall i :: i in TopPositive(order) && w[i] > 0.0 ==>
      WordWeight(vocabulary[i], w[i], w[i]) in ImportantWords(vocabulary, w, order)
    ensures forall e, j :: e in ImportantWords(vocabulary, w, order) && 0 <= j < |w| && j !in TopPositive(order) ==>
      w[j] <= e.weight
  {
    var pos := (i: nat) => PositiveAt(w, i);
    var top := TopPositive(order);
    KeepMembers(top, pos);
    var kept := Keep(top, pos);
    assert forall k :: 0 <= k < |kept| ==> kept[k] in kept;
    assert ImportantWords(vocabulary, w, order) == Entries(vocabulary, w, kept);
    forall i | i in top && w[i] > 0.0 ensures WordWeight(vocabulary[i], w[i], w[i]) in Entries(vocabulary, w, kept) {
      EntriesHold(vocabulary, w, kept, i);
    }
    var start := |order| - |top|;
    assert top == order[start..];
    SuffixDominates(order, w, start);
    forall e, j | e in Entries(vocabulary, w, kept) && 0 <= j < |w| && j !in top ensures w[j] <= e.weight {
      EntriesFrom(vocabulary, w, kept, e);
    }
  }

  /**
   * For an argsort order, `concerning_patterns` lists every negative weight among the ten
   * smallest, and each entry is at most as large as every weight outside those ten.
   */
  lemma ConcerningPatternsAreBottom(vocabulary: seq<string>, w: seq<real>, order: seq<nat>)
    requires |w| <= |vocabulary|
    requires IsArgsort(order, w)
    ensures forall i :: i in TopNegative(order) && w[i] < 0.0 ==>
      WordWeight(vocabulary[i], w[i], -w[i]) in ConcerningPatterns(vocabulary, w, order)
    ensures forall e, j :: e in ConcerningPatterns(vocabulary, w, order) && 0 <= j < |w| && j !in TopNegative(order) ==>
      e.weight <= w[j]
  {
    var neg := (i: nat) => NegativeAt(w, i);
    var bottom := TopNegative(order);
    KeepMembers(bottom, neg);
    var kept := Keep(bottom, neg);
    assert forall k :: 0 <= k < |kept| ==> kept[k] in kept;
    assert ConcerningPatterns(vocabulary, w, order) == Entries(vocabulary, w, kept);
    forall i | i in bottom && w[i] < 0.0 ensures WordWeight(vocabulary[i], w[i], -w[i]) in Entries(vocabulary, w, kept) {
      EntriesHold(vocabulary, w, kept, i);
    }
    assert bottom == order[..|bottom|];
    PrefixIsDominated(order, w, |bottom|);
    forall e, j | e in Entries(vocabulary, w, kept) && 0 <= j < |w| && j !in bottom ensures e.weight <= w[j] {
      EntriesFrom(vocabulary, w, kept, e);
    }
  }

  /** The weight at an index of `w` (0 outside it), the key argsort orders indices by. */
  function WeightOf(w: seq<real>): nat -> real {
    (i: nat) => if i < |w| then w[i] else 0.0
  }

  /** An argsort of `w` lists its indices by non-decreasing weight, and so does any slice of it. */
  lemma ArgsortAscending(order: seq<nat>, w: seq<real>, from: nat, to: nat)
    requires IsArgsort(order, w)
    requires from <= to <= |order|
    ensures Ascending(order[from..to], WeightOf(w))
  {
    var s := order[from..to];
    forall i, j | 0 <= i < j < |s| ensures WeightOf(w)(s[i]) <= WeightOf(w)(s[j]) {
      assert s[i] == order[from + i] && s[j] == order[from + j];
    }
  }

  /** Entries keep the order of their indices, so ascending indices give ascending weights. */
  lemma EntriesAscending(vocabulary: seq<string>, w: seq<real>, kept: seq<nat>)
    requires |w| <= |vocabulary|
    requires forall k :: 0 <= k < |kept| ==> kept[k] < |w|
    requires Ascending(kept, WeightOf(w))
    ensures forall a, b :: 0 <= a < b < |kept| ==>
      Entries(vocabulary, w, kept)[a].weight <= Entries(vocabulary, w, kept)[b].weight
  {
    forall a, b | 0 <= a < b < |kept|
      ensures Entries(vocabulary, w, kept)[a].weight <= Entries(vocabulary, w, kept)[b].weight
    {
      assert WeightOf(w)(kept[a]) <= WeightOf(w)(kept[b]);
    }
  }

  /**
   * For an argsort order both lists come out by ascending weight, as the argsort leaves them:
   * `important_words` ends with the largest weight and `concerning_patterns` starts with the
   * smallest.
   */
  lemma TopWordsAscending(vocabulary: seq<string>, w: seq<real>, order: seq<nat>)
    requires |w| <= |vocabulary|
    requires IsArgsort(order, w)
    ensures forall a, b :: 0 <= a < b < |ImportantWords(vocabulary, w, order)| ==>
      ImportantWords(vocabulary, w, order)[a].weight <= ImportantWords(vocabulary, w, order)[b].weight
    ensures forall a, b :: 0 <= a < b < |ConcerningPatterns(vocabulary, w, order)| ==>
      ConcerningPatterns(vocabulary, w, order)[a].weight <= ConcerningPatterns(vocabulary, w, order)[b].weight
  {
    var pos := (i: nat) => PositiveAt(w, i);
    var neg := (i: nat) => NegativeAt(w, i);
    var top, bottom := TopPositive(order), TopNegative(order);
    assert top == order[|order| - |top|..|order|];
    assert bottom == order[0..|bottom|];
    ArgsortAscending(order, w, |order| - |top|, |order|);
    ArgsortAscending(order, w, 0, |bottom|);
    KeepAscending(top, pos, WeightOf(w));
    KeepAscending(bottom, neg, WeightOf(w));
    var kp, kn := Keep(top, pos), Keep(bottom, neg);
    KeepMembers(top, pos);
    KeepMembers(bottom, neg);
    assert forall k :: 0 <= k < |kp| ==> kp[k] in kp;
    assert forall k :: 0 <= k < |kn| ==> kn[k] in kn;
    EntriesAscending(vocabulary, w, kp);
    EntriesAscending(vocabulary, w, kn);
  }

  /**
   * What `important_words` holds for an argsort of `w`: every positive weight among the ten
   * largest, each entry at least every weight outside those ten, by ascending weight.
   */
  ghost predicate WordsAreTop(vocabulary: seq<string>, w: seq<real>, order: seq<nat>)
    requires |w| <= |vocabulary|
    requires forall i :: 0 <= i < |order| ==> order[i] < |w|
  {
    var words := ImportantWords(vocabulary, w, order);
    && (forall i :: i in TopPositive(order) && w[i] > 0.0 ==> WordWeight(vocabulary[i], w[i], w[i]) in words)
    && (forall e, j :: e in words && 0 <= j < |w| && j !in TopPositive(order) ==> w[j] <= e.weight)
    && (forall a, b :: 0 <= a < b < |words| ==> words[a].weight <= words[b].weight)
  }

  /** For any weights and an argsort of them, `important_words` is the top of the order. */
  lemma ImportantWordsOf(vocabulary: seq<string>, w: seq<real>, order: seq<nat>)
    requires |w| <= |vocabulary|
    requires IsArgsort(order, w)
    ensures WordsAreTop(vocabulary, w, order)
  {
    ImportantWordsAreTop(vocabulary, w, order);
    TopWordsAscending(vocabulary, w, order);
  }

  /**
   * The `feature_explanation` of a linear model: with coefficients of one weight per
   * vocabulary entry, the predicted class's weights fit the vocabulary, and for an argsort
   * of them `important_words` holds exactly the positive weights among the ten largest,
   * each at least every weight outside those ten, by ascending weight.
   */
  lemma ImportantWordsOfClass(vocabulary: seq<string>, coef: Coefficients, prediction: nat, order: seq<nat>)
    requires Shaped(coef, |vocabulary|)
    requires IsArgsort(order, ClassCoefficients(coef, prediction, |vocabulary|))
    ensures |ClassCoefficients(coef, prediction, |vocabulary|)| == |vocabulary|
    ensures WordsAreTop(vocabulary, ClassCoefficients(coef, prediction, |vocabulary|), order)
  {
    ImportantWordsOf(vocabulary, ClassCoefficients(coef, prediction, |vocabulary|), order);
  }

  /**
   * What `concerning_patterns` holds for an argsort of `w`: every negative weight among the
   * ten smallest, each entry at most every weight outside those ten, by ascending weight.
   */
  ghost predicate PatternsAreBottom(vocabulary: seq<string>, w: seq<real>, order: seq<nat>)
    requires |w| <= |vocabulary|
    requires forall i :: 0 <= i < |order| ==> order[i] < |w|
  {
    var patterns := ConcerningPatterns(vocabulary, w, order);
    && (forall i :: i in TopNegative(order) && w[i] < 0.0 ==> WordWeight(vocabulary[i], w[i], -w[i]) in patterns)
    && (forall e, j :: e in patterns && 0 <= j < |w| && j !in TopNegative(order) ==> e.weight <= w[j])
    && (forall a, b :: 0 <= a < b < |patterns| ==> patterns[a].weight <= patterns[b].weight)
  }

  /** For any weights and an argsort of them, `concerning_patterns` is the bottom of the order. */
  lemma ConcerningPatternsOf(vocabulary: seq<string>, w: seq<real>, order: seq<nat>)
    requires |w| <= |vocabulary|
    requires IsArgsort(order, w)
    ensures PatternsAreBottom(vocabulary, w, order)
  {
    ConcerningPatternsAreBottom(vocabulary, w, order);
    TopWordsAscending(vocabulary, w, order);
  }

  /**
   * Likewise, for the predicted class's weights `concerning_patterns` holds exactly the
   * negative weights among the ten smallest, each at most every weight outside those ten,
   * by ascending weight.
   */
  lemma ConcerningPatternsOfClass(vocabulary: seq<string>, coef: Coefficients, prediction: nat, order: seq<nat>)
    requires Shaped(coef, |vocabulary|)
    requires IsArgsort(order, ClassCoefficients(coef, prediction, |vocabulary|))
    ensures |ClassCoefficients(coef, prediction, |vocabulary|)| == |vocabulary|
    ensures PatternsAreBottom(vocabulary, ClassCoefficients(coef, prediction, |vocabulary|), order)
  {
    ConcerningPatternsOf(vocabulary, ClassCoefficients(coef, prediction, |vocabulary|), order);
  }

  /** Without a row for the predicted class every weight is zero, so both lists are empty. */
  lemma NoRowNoWords(vocabulary: seq<string>, rows: seq<seq<real>>, prediction: nat, order: seq<nat>)
    requires prediction >= |rows|
    requires IsArgsort(order, ClassCoefficients(Matrix(rows), prediction, |vocabulary|))
    ensures var w := ClassCoefficients(Matrix(rows), prediction, |vocabulary|);
      ImportantWords(vocabulary, w, order) == [] && ConcerningPatterns(vocabulary, w, order) == []
  {
    var w := ClassCoefficients(Matrix(rows), prediction, |vocabulary|);
    KeepNone(TopPositive(order), (i: nat) => PositiveAt(w, i));
    KeepNone(TopNegative(order), (i: nat) => NegativeAt(w, i));
  }
}
