/**
 * The fraud detection agent: keyword and amount tests over the lower-cased markdown,
 * reported against a fixed catalog of five fraud patterns.
 */
module FraudDetectionAgent {
  import opened Seqs
  import opened Text
  import opened DocumentAgent

  datatype FraudPattern =
    DuplicateApplications | DeceasedBeneficiaries | IncomeMismatches | SuspiciousAmounts | CredentialFraud
  {
    function Label(): string {
      match this
      case DuplicateApplications => "Duplicate Applications"
      case DeceasedBeneficiaries => "Deceased Beneficiaries"
      case IncomeMismatches => "Income Mismatches"
      case SuspiciousAmounts => "Suspicious Amounts"
      case CredentialFraud => "Credential Fraud"
    }
  }

  /** The catalog, always reported in full. */
  const FraudPatterns: seq<FraudPattern> :=
    [DuplicateApplications, DeceasedBeneficiaries, IncomeMismatches, SuspiciousAmounts, CredentialFraud]

  /** The order in which the detection rules run; no rule detects deceased beneficiaries. */
  const RuleOrder: seq<FraudPattern> :=
    [DuplicateApplications, SuspiciousAmounts, IncomeMismatches, CredentialFraud]

  const DuplicateWords: seq<string> := ["duplicate", "copy", "same"]
  const IncomeWords: seq<string> := ["income", "salary", "revenue"]
  const CredentialWords: seq<string> := ["new", "recent", "started"]

  /** `\$(\d{6,})` matches at `i`. */
  predicate SuspiciousAmountAt(t: string, i: int) {
    0 <= i < |t| && t[i] == '$' && DigitsAt(t, i + 1, 6)
  }

  function SuspiciousAmountStarts(t: string): int -> bool { i => SuspiciousAmountAt(t, i) }

  predicate HasSuspiciousAmount(t: string) {
    Search(|t|, SuspiciousAmountStarts(t))
  }

  /** The rule for `p` fires on the lower-cased text `t`. */
  predicate Fires(p: FraudPattern, t: string) {
    match p
    case DuplicateApplications => ContainsAny(t, DuplicateWords)
    case SuspiciousAmounts => HasSuspiciousAmount(t)
    case IncomeMismatches => ContainsAny(t, IncomeWords)
    case CredentialFraud => ContainsAny(t, CredentialWords)
    case DeceasedBeneficiaries => false
  }

  function FiresOn(t: string): FraudPattern -> bool {
    p => Fires(p, t)
  }

  /** The patterns whose rule fires on `t`, in rule order. */
  function DetectedIn(t: string): seq<FraudPattern> {
    Filter(RuleOrder, FiresOn(t))
  }

  datatype FraudReport = FraudReport(
    agent: string, fraudPatternsChecked: seq<FraudPattern>, detectedPatterns: seq<FraudPattern>, riskFactors: int)

  /** Filtering the rule order keeps each pattern whose rule fires, in order. */
  lemma FilterRuleOrder(keep: FraudPattern -> bool)
    ensures Filter(RuleOrder, keep) ==
      (if keep(DuplicateApplications) then [DuplicateApplications] else []) +
      (if keep(SuspiciousAmounts) then [SuspiciousAmounts] else []) +
      (if keep(IncomeMismatches) then [IncomeMismatches] else []) +
      (if keep(CredentialFraud) then [CredentialFraud] else [])
  {
    Filter4(DuplicateApplications, SuspiciousAmounts, IncomeMismatches, CredentialFraud, keep);
  }

  /** The detected list written out as the four rules. */
  lemma DetectedUnfold(t: string)
    ensures DetectedIn(t) ==
      (if ContainsAny(t, DuplicateWords) then [DuplicateApplications] else []) +
      (if HasSuspiciousAmount(t) then [SuspiciousAmounts] else []) +
      (if ContainsAny(t, IncomeWords) then [IncomeMismatches] else []) +
      (if ContainsAny(t, CredentialWords) then [CredentialFraud] else [])
  {
    FilterRuleOrder(FiresOn(t));
  }

  /** `analyze_fraud`: lower-cases the markdown, runs the four rules in order and appends each pattern detected. */
  method AnalyzeFraud(extractedData: ExtractedData, documentAnalysis: DocumentAnalysis) returns (report: FraudReport)
    ensures report.agent == "Fraud Detection Analyst"
    ensures report.fraudPatternsChecked == FraudPatterns
    ensures report.detectedPatterns == DetectedIn(Lower(Markdown(extractedData)))
    ensures report.riskFactors == 20 * |report.detectedPatterns|
  {
    var markdown := Lower(Markdown(extractedData));
    DetectedUnfold(markdown);
    var duplicate := ContainsAny(markdown, DuplicateWords);
    var suspicious := HasSuspiciousAmount(markdown);
    var income := ContainsAny(markdown, IncomeWords);
    var detectedPatterns: seq<FraudPattern> := [];
    if duplicate {
      detectedPatterns := detectedPatterns + [DuplicateApplications];
    }
    assert detectedPatterns == (if duplicate then [DuplicateApplications] else []);
    if suspicious {
      detectedPatterns := detectedPatterns + [SuspiciousAmounts];
    }
    assert detectedPatterns ==
      (if duplicate then [DuplicateApplications] else []) + (if suspicious then [SuspiciousAmounts] else []);
    if income {
      detectedPatterns := detectedPatterns + [IncomeMismatches];
    }
    assert detectedPatterns ==
      (if duplicate then [DuplicateApplications] else []) + (if suspicious then [SuspiciousAmounts] else [])
      + (if income then [IncomeMismatches] else []);
    if ContainsAny(markdown, CredentialWords) {
      detectedPatterns := detectedPatterns + [CredentialFraud];
    }
    report := FraudReport("Fraud Detection Analyst", FraudPatterns, detectedPatterns, |detectedPatterns| * 20);
  }

  /**
   * The detected patterns: drawn from the catalog, none twice, in rule order, each present
   * exactly when its rule fires, never deceased beneficiaries, and at most four of them,
   * so the risk factor is at most 80.
   */
  lemma DetectedShape(t: string)
    ensures forall p :: p in DetectedIn(t) ==> p in FraudPatterns
    ensures NoDuplicates(DetectedIn(t))
    ensures IsSubsequence(DetectedIn(t), RuleOrder)
    ensures forall p :: p in DetectedIn(t) <==> p != DeceasedBeneficiaries && Fires(p, t)
    ensures DeceasedBeneficiaries !in DetectedIn(t)
    ensures |DetectedIn(t)| <= 4 && 20 * |DetectedIn(t)| <= 80
  {
    FilterNoDuplicates(RuleOrder, FiresOn(t));
    FilterIsSubsequence(RuleOrder, FiresOn(t));
    forall p ensures p in DetectedIn(t) <==> p != DeceasedBeneficiaries && Fires(p, t) {
      assert p != DeceasedBeneficiaries ==>
        p == RuleOrder[0] || p == RuleOrder[1] || p == RuleOrder[2] || p == RuleOrder[3];
    }
    forall p | p in DetectedIn(t) ensures p in FraudPatterns {
      assert p == FraudPatterns[0] || p == FraudPatterns[2] || p == FraudPatterns[3] || p == FraudPatterns[4];
    }
  }

  /** A keyword list none of whose words can occur in a text without letters. */
  predicate EveryWordHasLetter(words: seq<string>) {
    forall j :: 0 <= j < |words| ==> |words[j]| > 0 && IsLetter(words[j][0])
  }

  lemma NoLetterNoKeyword(t: string, words: seq<string>)
    requires EveryWordHasLetter(words)
    requires forall i :: 0 <= i < |t| ==> !IsLetter(t[i])
    ensures !ContainsAny(t, words)
  {
    ContainsAnyIff(t, words);
    forall j | 0 <= j < |words| ensures !Contains(t, words[j]) {
      if Contains(t, words[j]) {
        ContainsCharOf(t, words[j], 0);
      }
    }
  }

  /** A text with no letter and no `$` detects nothing. */
  lemma NoSignalDetectsNothing(s: string)
    requires forall i :: 0 <= i < |s| ==> !IsLetter(s[i]) && s[i] != '$'
    ensures DetectedIn(Lower(s)) == []
  {
    var t := Lower(s);
    forall i | 0 <= i < |t| ensures !IsLetter(t[i]) && t[i] != '$' {
      LowerKeepsNonLetters(s, i);
    }
    NoLetterNoKeyword(t, DuplicateWords);
    NoLetterNoKeyword(t, IncomeWords);
    NoLetterNoKeyword(t, CredentialWords);
    SearchIff(|t|, SuspiciousAmountStarts(t));
    DetectedUnfold(t);
  }

  /** Empty text detects nothing. */
  lemma EmptyTextDetectsNothing()
    ensures DetectedIn(Lower("")) == []
  {
    NoSignalDetectsNothing("");
  }

  const Phrase1 := "duplicate application"
  const Phrase2 := "for $1500000"
  const Phrase3 := "income reported"

  lemma NoSpaceInCredentialWords()
    ensures forall j, k :: 0 <= j < |CredentialWords| && 0 <= k < |CredentialWords[j]| ==> CredentialWords[j][k] != ' '
  {
  }

  /** No credential keyword occurs in any of the three phrases of the sample text. */
  lemma PhrasesLackCredentialWords(w: string)
    requires w in CredentialWords
    ensures !Contains(Phrase1, w) && !Contains(Phrase2, w) && !Contains(Phrase3, w)
  {
    if w == "new" {
      NoOccurrence(Phrase1, w, 2, 2);
      NoOccurrence(Phrase2, w, 2, 2);
      NoOccurrence(Phrase3, w, 2, 2);
    } else if w == "recent" {
      NoOccurrence(Phrase1, w, 0, 0);
      NoOccurrence(Phrase2, w, 1, 1);
      NoOccurrence(Phrase3, w, 0, 2);
    } else {
      NoOccurrence(Phrase1, w, 0, 0);
      NoOccurrence(Phrase2, w, 0, 0);
      NoOccurrence(Phrase3, w, 0, 0);
    }
  }

  const SampleText := "Duplicate application for $1500000 income reported"
  const SampleLowered := Phrase1 + " " + Phrase2 + " " + Phrase3

  lemma SampleHeadLowercase()
    ensures Lower("Duplicate application") == Phrase1
  {
    assert forall k :: 0 <= k < |Phrase1| ==> Lower("Duplicate application")[k] == Phrase1[k];
  }

  lemma SampleTailLowercase()
    ensures Lower(Phrase2) == Phrase2 && Lower(Phrase3) == Phrase3 && Lower(" ") == " "
  {
  }

  lemma SampleSplit()
    ensures SampleText == "Duplicate application" + (" " + (Phrase2 + (" " + Phrase3)))
  {
  }

  lemma SampleLowercase()
    ensures Lower(SampleText) == SampleLowered
  {
    var head := "Duplicate application";
    SampleSplit();
    SampleHeadLowercase();
    SampleTailLowercase();
    LowerConcat(" ", Phrase3);
    LowerConcat(Phrase2, " " + Phrase3);
    LowerConcat(" ", Phrase2 + (" " + Phrase3));
    LowerConcat(head, " " + (Phrase2 + (" " + Phrase3)));
  }

  lemma SampleHasDuplicateWord()
    ensures ContainsAny(SampleLowered, DuplicateWords)
  {
    assert OccursAt(Phrase1, "duplicate", 0);
    ContainsInLeft(Phrase1, " " + Phrase2 + " " + Phrase3, "duplicate");
    assert Phrase1 + (" " + Phrase2 + " " + Phrase3) == SampleLowered;
  }

  lemma SampleHasSuspiciousAmount()
    ensures HasSuspiciousAmount(SampleLowered)
  {
    assert SuspiciousAmountAt(SampleLowered, 26);
    assert SuspiciousAmountStarts(SampleLowered)(26);
    SearchIff(|SampleLowered|, SuspiciousAmountStarts(SampleLowered));
  }

  lemma SampleHasIncomeWord()
    ensures ContainsAny(SampleLowered, IncomeWords)
  {
    assert OccursAt(Phrase3, "income", 0);
    ContainsInRight(Phrase1 + " " + Phrase2 + " ", Phrase3, "income");
  }

  lemma SampleLacksCredentialWord(w: string)
    requires w in CredentialWords
    ensures !Contains(SampleLowered, w)
  {
    NoSpaceInCredentialWords();
    PhrasesLackCredentialWords(w);
    var t := SampleLowered;
    assert t == (Phrase1 + " " + Phrase2) + [' '] + Phrase3;
    assert Phrase1 + " " + Phrase2 == Phrase1 + [' '] + Phrase2;
    ContainsAcross(Phrase1 + " " + Phrase2, ' ', Phrase3, w);
    ContainsAcross(Phrase1, ' ', Phrase2, w);
  }

  /**
   * "Duplicate application for $1500000 income reported" is flagged for duplicate
   * applications, a suspicious amount and an income mismatch: risk factor 60.
   */
  lemma SampleTextDetection()
    ensures DetectedIn(Lower(SampleText)) == [DuplicateApplications, SuspiciousAmounts, IncomeMismatches]
    ensures 20 * |DetectedIn(Lower(SampleText))| == 60
  {
    SampleLowercase();
    SampleHasDuplicateWord();
    SampleHasSuspiciousAmount();
    SampleHasIncomeWord();
    forall j | 0 <= j < |CredentialWords| ensures !Contains(SampleLowered, CredentialWords[j]) {
      SampleLacksCredentialWord(CredentialWords[j]);
    }
    ContainsAnyIff(SampleLowered, CredentialWords);
    DetectedUnfold(SampleLowered);
  }

  const OrderText := "income $1000000"

  lemma OrderTextLacksDuplicateAndCredentialWords()
    ensures !ContainsAny(OrderText, DuplicateWords) && !ContainsAny(OrderText, CredentialWords)
  {
    NoOccurrence(OrderText, "duplicate", 0, 0);
    NoOccurrence(OrderText, "copy", 2, 2);
    NoOccurrence(OrderText, "same", 0, 0);
    NoOccurrence(OrderText, "new", 2, 2);
    NoOccurrence(OrderText, "recent", 0, 0);
    NoOccurrence(OrderText, "started", 0, 0);
  }

  lemma OrderTextFlags()
    ensures HasSuspiciousAmount(OrderText) && ContainsAny(OrderText, IncomeWords)
  {
    assert SuspiciousAmountAt(OrderText, 7);
    assert SuspiciousAmountStarts(OrderText)(7);
    SearchIff(|OrderText|, SuspiciousAmountStarts(OrderText));
    assert OccursAt(OrderText, "income", 0);
  }

  /** Suspicious amounts come after income mismatches in the catalog. */
  lemma CatalogListsIncomeFirst()
    ensures !IsSubsequence([SuspiciousAmounts, IncomeMismatches], FraudPatterns)
  {
    var d := [SuspiciousAmounts, IncomeMismatches];
    var c := FraudPatterns;
    assert IsSubsequence(d, c) == IsSubsequence(d, c[1..]);
    assert IsSubsequence(d, c[1..]) == IsSubsequence(d, c[2..]);
    assert IsSubsequence(d, c[2..]) == IsSubsequence(d, c[3..]);
    assert IsSubsequence(d, c[3..]) == IsSubsequence(d[1..], c[4..]);
    assert IsSubsequence(d[1..], c[4..]) == IsSubsequence(d[1..], c[5..]);
    assert c[5..] == [];
  }

  /**
   * The detected list follows rule order, not catalog order: "income $1000000" detects a
   * suspicious amount before an income mismatch, although the catalog lists them the other way.
   */
  lemma RuleOrderIsNotCatalogOrder()
    ensures DetectedIn(Lower(OrderText)) == [SuspiciousAmounts, IncomeMismatches]
    ensures !IsSubsequence(DetectedIn(Lower(OrderText)), FraudPatterns)
  {
    assert Lower(OrderText) == OrderText;
    OrderTextLacksDuplicateAndCredentialWords();
    OrderTextFlags();
    DetectedUnfold(OrderText);
    CatalogListsIncomeFirst();
  }
}
