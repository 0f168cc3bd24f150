/**
 * The compliance agent: two pass rules over the document agent's report, scored at 25 points
 * each, reported beside a fixed list of four compliance checks.
 */
module ComplianceAgent {
  import opened Seqs
  import opened DocumentAgent
  import FraudDetectionAgent

  /**
   * The four listed checks and the two labels a document can pass. The two groups share no
   * label: what is passed is never one of the checks that are listed.
   */
  datatype ComplianceCheck =
    EligibilityRequirements | DocumentationCompleteness | AmountAccuracy | RegulatoryCompliance
    | FinancialDocumentation | DataCompleteness
  {
    function Label(): string {
      match this
      case EligibilityRequirements => "Eligibility Requirements"
      case DocumentationCompleteness => "Documentation Completeness"
      case AmountAccuracy => "Amount Accuracy"
      case RegulatoryCompliance => "Regulatory Compliance"
      case FinancialDocumentation => "Financial Documentation"
      case DataCompleteness => "Data Completeness"
    }
  }

  /** The list reported as `compliance_checks`. */
  const ComplianceChecks: seq<ComplianceCheck> :=
    [EligibilityRequirements, DocumentationCompleteness, AmountAccuracy, RegulatoryCompliance]

  /** The order in which the pass rules run. */
  const PassRules: seq<ComplianceCheck> := [FinancialDocumentation, DataCompleteness]

  const OfficerName := "Regulatory Compliance Officer"

  /** The rule for `c` passes on the document report `doc`; the listed checks have no rule. */
  predicate Passes(c: ComplianceCheck, doc: DocumentAnalysis) {
    match c
    case FinancialDocumentation => doc.contentAnalysis.hasFinancialData
    case DataCompleteness => |doc.fieldsExtracted| >= 2
    case _ => false
  }

  function PassesOn(doc: DocumentAnalysis): ComplianceCheck -> bool {
    c => Passes(c, doc)
  }

  /** The passed checks: the rules that pass, in rule order. */
  function PassedIn(doc: DocumentAnalysis): seq<ComplianceCheck> {
    Filter(PassRules, PassesOn(doc))
  }

  datatype ComplianceReport = ComplianceReport(
    agent: string, complianceChecks: seq<ComplianceCheck>, passedChecks: seq<ComplianceCheck>,
    complianceScore: int)

  /** Filtering the rule order keeps each rule that passes, in order. */
  lemma FilterPassRules(keep: ComplianceCheck -> bool)
    ensures Filter(PassRules, keep) ==
      (if keep(FinancialDocumentation) then [FinancialDocumentation] else []) +
      (if keep(DataCompleteness) then [DataCompleteness] else [])
  {
    Filter2(FinancialDocumentation, DataCompleteness, keep);
  }

  /**
   * `verify_compliance`: appends each passing rule's label and scores 25 per label. The fraud
   * report is accepted and not consulted.
   */
  method VerifyCompliance(documentAnalysis: DocumentAnalysis, fraudAnalysis: FraudDetectionAgent.FraudReport)
    returns (report: ComplianceReport)
    ensures report.agent == OfficerName && report.complianceChecks == ComplianceChecks
    ensures report.passedChecks == PassedIn(documentAnalysis)
    ensures FinancialDocumentation in report.passedChecks <==> documentAnalysis.contentAnalysis.hasFinancialData
    ensures DataCompleteness in report.passedChecks <==> |documentAnalysis.fieldsExtracted| >= 2
    ensures report.complianceScore == 25 * |report.passedChecks|
    ensures report.complianceScore in {0, 25, 50}
  {
    var passed := [];
    if documentAnalysis.contentAnalysis.hasFinancialData {
      passed := passed + [FinancialDocumentation];
    }
    if |documentAnalysis.fieldsExtracted| >= 2 {
      passed := passed + [DataCompleteness];
    }
    FilterPassRules(PassesOn(documentAnalysis));
    report := ComplianceReport(OfficerName, ComplianceChecks, passed, |passed| * 25);
  }

  /** The passed checks come in rule order without repeats and score 0, 25 or 50. */
  lemma PassedShape(doc: DocumentAnalysis)
    ensures IsSubsequence(PassedIn(doc), PassRules)
    ensures NoDuplicates(PassedIn(doc))
    ensures forall c :: c in PassedIn(doc) <==> c in PassRules && Passes(c, doc)
    ensures |PassedIn(doc)| <= 2 && 25 * |PassedIn(doc)| in {0, 25, 50}
  {
    FilterIsSubsequence(PassRules, PassesOn(doc));
    FilterNoDuplicates(PassRules, PassesOn(doc));
  }

  /** No passed check is one of the listed checks, not even by label. */
  lemma PassedOutsideCatalog(doc: DocumentAnalysis)
    ensures forall c :: c in PassedIn(doc) ==> c !in ComplianceChecks
    ensures forall c, d :: c in PassedIn(doc) && d in ComplianceChecks ==> c.Label() != d.Label()
  {
    forall c, d | c in PassedIn(doc) && d in ComplianceChecks ensures c.Label() != d.Label() {
      assert c == FinancialDocumentation || c == DataCompleteness;
      assert d == ComplianceChecks[0] || d == ComplianceChecks[1] || d == ComplianceChecks[2]
        || d == ComplianceChecks[3];
    }
  }

  /**
   * On a report the document agent produced, data completeness implies financial
   * documentation: the score is 0 exactly when the text has no digit, and 50 exactly when two
   * or more fields were tagged.
   */
  lemma PipelineScore(md: string)
    ensures DataCompleteness in PassedIn(AnalysisOf(md)) ==> FinancialDocumentation in PassedIn(AnalysisOf(md))
    ensures PassedIn(AnalysisOf(md)) == [] <==> !ContainsDigit(md)
    ensures 25 * |PassedIn(AnalysisOf(md))| == 50 <==> |FieldsOf(md)| >= 2
  {
    var doc := AnalysisOf(md);
    FilterPassRules(PassesOn(doc));
    FinancialDataIffDigit(md);
    if |FieldsOf(md)| >= 2 {
      TwoFieldsImplyFinancialData(md);
    }
  }

  /** The sample invoice line passes both rules. */
  lemma SampleLineCompliance()
    ensures PassedIn(AnalysisOf(SampleLine)) == [FinancialDocumentation, DataCompleteness]
    ensures 25 * |PassedIn(AnalysisOf(SampleLine))| == 50
  {
    SampleLineFields();
    FilterPassRules(PassesOn(AnalysisOf(SampleLine)));
  }
}
