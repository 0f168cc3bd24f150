/**
 * The document agent: coarse signals extracted from the markdown text of a parsed
 * document (token and character counts, a financial-data flag and four field tags).
 */
module DocumentAgent {
  import opened Options
  import opened Seqs
  import opened Text

  /** The parsed document as the extraction service returns it; only its markdown is read. */
  datatype ExtractedData = ExtractedData(markdown: Option<string>)

  /** `extracted_data.get('markdown', '')`. */
  function Markdown(data: ExtractedData): string {
    data.markdown.GetOr("")
  }

  datatype FieldTag = FinancialAmounts | SsnPatterns | BusinessNames | ZipCodes {
    function Label(): string {
      match this
      case FinancialAmounts => "financial_amounts"
      case SsnPatterns => "ssn_patterns"
      case BusinessNames => "business_names"
      case ZipCodes => "zip_codes"
    }
  }

  /** The order in which the field tests run. */
  const FieldOrder: seq<FieldTag> := [FinancialAmounts, SsnPatterns, BusinessNames, ZipCodes]

  /** `\$?\d+[,.]?\d*` matches at `i`: the optional tail always matches empty, so one digit (after an optional `$`) is enough. */
  predicate FinancialDataAt(s: string, i: int) {
    0 <= i < |s| && ((s[i] == '$' && DigitsAt(s, i + 1, 1)) || DigitsAt(s, i, 1))
  }

  /** `re.search(r'\$?\d+[,.]?\d*', s)` succeeds. */
  function FinancialDataStarts(s: string): int -> bool { i => FinancialDataAt(s, i) }

  predicate HasFinancialData(s: string) {
    Search(|s|, FinancialDataStarts(s))
  }

  /** `\$?\d{4,}` matches at `i`. */
  predicate AmountAt(s: string, i: int) {
    0 <= i < |s| && ((s[i] == '$' && DigitsAt(s, i + 1, 4)) || DigitsAt(s, i, 4))
  }

  function AmountStarts(s: string): int -> bool { i => AmountAt(s, i) }

  predicate HasAmount(s: string) {
    Search(|s|, AmountStarts(s))
  }

  /** `\b\d{3}-\d{2}-\d{4}\b` matches at `i`. */
  predicate SsnAt(s: string, i: int) {
    Boundary(s, i) && DigitsAt(s, i, 3) && i + 11 <= |s| && s[i + 3] == '-'
    && DigitsAt(s, i + 4, 2) && s[i + 6] == '-' && DigitsAt(s, i + 7, 4) && Boundary(s, i + 11)
  }

  function SsnStarts(s: string): int -> bool { i => SsnAt(s, i) }

  predicate HasSsn(s: string) {
    Search(|s|, SsnStarts(s))
  }

  /** `s[i..j]` is a run of at least two upper-case letters. */
  predicate UpperRun(s: string, i: int, j: int) {
    0 <= i && i + 2 <= j <= |s| && forall k :: i <= k < j ==> IsUpper(s[k])
  }

  /** `\b[A-Z]{2,}\b` matches `s[i..j]`. */
  predicate BusinessNameAt(s: string, i: int, j: int) {
    UpperRun(s, i, j) && Boundary(s, i) && Boundary(s, j)
  }

  /** Some end `j` completes a business name starting at `i` (the run `[A-Z]{2,}` may end anywhere). */
  predicate BusinessNameFrom(s: string, i: int) {
    exists j | i <= j <= |s| :: BusinessNameAt(s, i, j)
  }

  function BusinessNameStarts(s: string): int -> bool { i => BusinessNameFrom(s, i) }

  predicate HasBusinessName(s: string) {
    Search(|s|, BusinessNameStarts(s))
  }

  /** `\b\d{5}\b` matches at `i`. */
  predicate ZipAt(s: string, i: int) {
    Boundary(s, i) && DigitsAt(s, i, 5) && Boundary(s, i + 5)
  }

  function ZipStarts(s: string): int -> bool { i => ZipAt(s, i) }

  predicate HasZip(s: string) {
    Search(|s|, ZipStarts(s))
  }

  /** The test that adds `tag`. */
  predicate TagMatches(tag: FieldTag, s: string) {
    match tag
    case FinancialAmounts => HasAmount(s)
    case SsnPatterns => HasSsn(s)
    case BusinessNames => HasBusinessName(s)
    case ZipCodes => HasZip(s)
  }

  function MatchesIn(s: string): FieldTag -> bool {
    tag => TagMatches(tag, s)
  }

  /** The tags whose test the text passes, in test order. */
  function FieldsOf(s: string): seq<FieldTag> {
    Filter(FieldOrder, MatchesIn(s))
  }

  /** Filtering the four tags keeps each one whose test passes, in order. */
  lemma FilterFieldOrder(keep: FieldTag -> bool)
    ensures Filter(FieldOrder, keep) ==
      (if keep(FinancialAmounts) then [FinancialAmounts] else []) +
      (if keep(SsnPatterns) then [SsnPatterns] else []) +
      (if keep(BusinessNames) then [BusinessNames] else []) +
      (if keep(ZipCodes) then [ZipCodes] else [])
  {
    Filter4(FinancialAmounts, SsnPatterns, BusinessNames, ZipCodes, keep);
  }

  /** The field list written out as the four tests. */
  lemma FieldsOfUnfold(s: string)
    ensures FieldsOf(s) ==
      (if HasAmount(s) then [FinancialAmounts] else []) +
      (if HasSsn(s) then [SsnPatterns] else []) +
      (if HasBusinessName(s) then [BusinessNames] else []) +
      (if HasZip(s) then [ZipCodes] else [])
  {
    FilterFieldOrder(MatchesIn(s));
  }

  predicate ContainsDigit(s: string) {
    exists i | 0 <= i < |s| :: IsDigit(s[i])
  }

  predicate HasDigitRun(s: string, n: nat) {
    exists i | 0 <= i < |s| :: DigitsAt(s, i, n)
  }

  datatype ContentAnalysis = ContentAnalysis(wordCount: int, charCount: int, hasFinancialData: bool)

  datatype DocumentAnalysis = DocumentAnalysis(
    agent: string, status: string, fieldsExtracted: seq<FieldTag>, contentAnalysis: ContentAnalysis)

  const AgentName := "Document Processing Specialist"

  /** The report on a markdown text. */
  function AnalysisOf(md: string): DocumentAnalysis {
    DocumentAnalysis(AgentName, "processed", FieldsOf(md),
      ContentAnalysis(|Split(md)|, |md|, HasFinancialData(md)))
  }

  /** `_extract_fields`: runs the four tests in order and appends the tag of each that matches. */
  method ExtractFields(markdown: string) returns (fields: seq<FieldTag>)
    ensures fields == FieldsOf(markdown)
  {
    FieldsOfUnfold(markdown);
    var amount := HasAmount(markdown);
    var ssn := HasSsn(markdown);
    var name := HasBusinessName(markdown);
    fields := [];
    if amount { fields := fields + [FinancialAmounts]; }
    assert fields == (if amount then [FinancialAmounts] else []);
    if ssn { fields := fields + [SsnPatterns]; }
    assert fields == (if amount then [FinancialAmounts] else []) + (if ssn then [SsnPatterns] else []);
    if name { fields := fields + [BusinessNames]; }
    assert fields == (if amount then [FinancialAmounts] else []) + (if ssn then [SsnPatterns] else [])
      + (if name then [BusinessNames] else []);
    if HasZip(markdown) { fields := fields + [ZipCodes]; }
  }

  /** `process_document`. */
  method ProcessDocument(extractedData: ExtractedData) returns (report: DocumentAnalysis)
    ensures report == AnalysisOf(Markdown(extractedData))
    ensures report.contentAnalysis.charCount == |Markdown(extractedData)|
    ensures report.contentAnalysis.hasFinancialData <==> ContainsDigit(Markdown(extractedData))
    ensures report.contentAnalysis.wordCount == TokenCount(Markdown(extractedData))
    ensures 0 <= 2 * report.contentAnalysis.wordCount <= |Markdown(extractedData)| + 1
    ensures report.contentAnalysis.wordCount == 0 <==>
      forall k :: 0 <= k < |Markdown(extractedData)| ==> IsSpace(Markdown(extractedData)[k])
  {
    var markdown := Markdown(extractedData);
    var fields := ExtractFields(markdown);
    FinancialDataIffDigit(markdown);
    SplitSpec(markdown);
    report := DocumentAnalysis(AgentName, "processed", fields,
      ContentAnalysis(|Split(markdown)|, |markdown|, HasFinancialData(markdown)));
  }

  /** The financial-data pattern finds a match exactly when the text contains a digit. */
  lemma FinancialDataIffDigit(s: string)
    ensures HasFinancialData(s) <==> ContainsDigit(s)
  {
    SearchIff(|s|, FinancialDataStarts(s));
    if HasFinancialData(s) {
      var i :| 0 <= i < |s| && FinancialDataAt(s, i);
      if s[i] == '$' && DigitsAt(s, i + 1, 1) {
        assert IsDigit(s[i + 1]);
      } else {
        assert IsDigit(s[i]);
      }
    }
    if ContainsDigit(s) {
      var i :| 0 <= i < |s| && IsDigit(s[i]);
      assert FinancialDataStarts(s)(i);
    }
  }

  /** The amount pattern finds a match exactly when the text has a run of four digits. */
  lemma AmountIffDigitRun(s: string)
    ensures HasAmount(s) <==> HasDigitRun(s, 4)
  {
    SearchIff(|s|, AmountStarts(s));
    if HasAmount(s) {
      var i :| 0 <= i < |s| && AmountAt(s, i);
      if s[i] == '$' && DigitsAt(s, i + 1, 4) {
        assert DigitsAt(s, i + 1, 4);
      } else {
        assert DigitsAt(s, i, 4);
      }
    }
    if HasDigitRun(s, 4) {
      var i :| 0 <= i < |s| && DigitsAt(s, i, 4);
      assert AmountStarts(s)(i);
    }
  }

  /** An SSN ends in four digits. */
  lemma SsnHasDigitRun(s: string)
    requires HasSsn(s)
    ensures HasDigitRun(s, 4)
  {
    SearchIff(|s|, SsnStarts(s));
    var i :| 0 <= i < |s| && SsnAt(s, i);
    assert DigitsAt(s, i + 7, 4);
  }

  /** A zip code has four digits in a row. */
  lemma ZipHasDigitRun(s: string)
    requires HasZip(s)
    ensures HasDigitRun(s, 4)
  {
    SearchIff(|s|, ZipStarts(s));
    var i :| 0 <= i < |s| && ZipAt(s, i);
    assert DigitsAt(s, i, 4);
  }

  lemma DigitRunHasDigit(s: string)
    requires HasDigitRun(s, 4)
    ensures ContainsDigit(s)
  {
    var i :| 0 <= i < |s| && DigitsAt(s, i, 4);
    assert IsDigit(s[i]);
  }

  /** A tag other than business_names only matches a text with a digit in it. */
  lemma DigitTagImpliesFinancialData(s: string, tag: FieldTag)
    requires tag != BusinessNames && TagMatches(tag, s)
    ensures HasFinancialData(s)
  {
    FinancialDataIffDigit(s);
    match tag
    case FinancialAmounts => AmountIffDigitRun(s); DigitRunHasDigit(s);
    case SsnPatterns => SsnHasDigitRun(s); DigitRunHasDigit(s);
    case ZipCodes => ZipHasDigitRun(s); DigitRunHasDigit(s);
  }

  /** The extracted fields: at most four tags, none twice, in test order, each present exactly when its test matches. */
  lemma FieldsShape(s: string)
    ensures |FieldsOf(s)| <= 4
    ensures NoDuplicates(FieldsOf(s))
    ensures IsSubsequence(FieldsOf(s), FieldOrder)
    ensures forall tag :: tag in FieldsOf(s) <==> TagMatches(tag, s)
  {
    FilterNoDuplicates(FieldOrder, MatchesIn(s));
    FilterIsSubsequence(FieldOrder, MatchesIn(s));
    forall tag ensures tag in FieldsOf(s) <==> TagMatches(tag, s) {
      assert tag == FieldOrder[0] || tag == FieldOrder[1] || tag == FieldOrder[2] || tag == FieldOrder[3];
    }
  }

  /**
   * An SSN or a zip code in the fields brings financial_amounts along (each contains a run
   * of four digits), and financial_amounts brings the financial-data flag.
   */
  lemma FieldsImplications(s: string)
    ensures SsnPatterns in FieldsOf(s) ==> FinancialAmounts in FieldsOf(s)
    ensures ZipCodes in FieldsOf(s) ==> FinancialAmounts in FieldsOf(s)
    ensures FinancialAmounts in FieldsOf(s) ==> HasFinancialData(s)
  {
    FieldsOfUnfold(s);
    AmountIffDigitRun(s);
    if HasSsn(s) { SsnHasDigitRun(s); }
    if HasZip(s) { ZipHasDigitRun(s); }
    if HasAmount(s) { DigitTagImpliesFinancialData(s, FinancialAmounts); }
  }

  /** Two or more tags bring a digit along: only business_names can match a text without one. */
  lemma TwoFieldsImplyFinancialData(s: string)
    requires |FieldsOf(s)| >= 2
    ensures HasFinancialData(s)
  {
    FieldsShape(s);
    var fs := FieldsOf(s);
    assert fs[0] in fs && fs[1] in fs;
    if fs[0] != BusinessNames {
      DigitTagImpliesFinancialData(s, fs[0]);
    } else {
      assert fs[1] != fs[0];
      DigitTagImpliesFinancialData(s, fs[1]);
    }
  }

  /** Empty text yields no tags, no tokens, no characters and no financial data. */
  lemma EmptyTextAnalysis()
    ensures AnalysisOf("") == DocumentAnalysis(AgentName, "processed", [], ContentAnalysis(0, 0, false))
  {
    assert Split("") == [];
    assert FieldsOf("") == [];
  }

  /** A sample invoice line: an amount, an all-caps name and a ZIP code, but no SSN. */
  const SampleLine := "ACME paid $12345 at 60601"

  lemma SampleLineHasAmount()
    ensures HasAmount(SampleLine)
  {
    assert DigitsAt(SampleLine, 11, 4);
    assert AmountStarts(SampleLine)(11);
    SearchIff(|SampleLine|, AmountStarts(SampleLine));
  }

  lemma SampleLineHasBusinessName()
    ensures HasBusinessName(SampleLine)
  {
    assert Boundary(SampleLine, 0) && Boundary(SampleLine, 4);
    assert UpperRun(SampleLine, 0, 4);
    assert BusinessNameAt(SampleLine, 0, 4);
    assert BusinessNameStarts(SampleLine)(0);
    SearchIff(|SampleLine|, BusinessNameStarts(SampleLine));
  }

  lemma SampleLineHasZip()
    ensures HasZip(SampleLine)
  {
    assert Boundary(SampleLine, 20) && Boundary(SampleLine, 25);
    assert DigitsAt(SampleLine, 20, 5);
    assert ZipStarts(SampleLine)(20);
    SearchIff(|SampleLine|, ZipStarts(SampleLine));
  }

  lemma SampleLineLacksSsn()
    ensures !HasSsn(SampleLine)
  {
    forall j | 0 <= j < |SampleLine| ensures !SsnAt(SampleLine, j) {
      if j + 4 <= |SampleLine| {
        assert SampleLine[j + 3] != '-';
      }
    }
    SearchIff(|SampleLine|, SsnStarts(SampleLine));
  }

  /** The sample line is tagged with amounts, business names and ZIP codes, in that order. */
  lemma SampleLineFields()
    ensures FieldsOf(SampleLine) == [FinancialAmounts, BusinessNames, ZipCodes]
    ensures HasFinancialData(SampleLine)
  {
    SampleLineHasAmount();
    SampleLineLacksSsn();
    SampleLineHasBusinessName();
    SampleLineHasZip();
    FieldsOfUnfold(SampleLine);
    FieldsImplications(SampleLine);
  }
}
