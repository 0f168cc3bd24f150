# Fiscal audit core: risk scorer and the three audit agents

The audited application reads a government document and turns its markdown text into three
agent reports. It also scores an applicant record for fraud risk. This project models those
parts and proves properties about them:

- **Risk scorer** (`risk_scorer.dfy`, module `RiskScorer`). Six 0/1 checks run over an
  applicant record whose keys may be missing:
  - duplicate id;
  - income verification;
  - credential validity;
  - business history;
  - documentation quality;
  - high-risk ZIP code.

  The checks are weighted 25/20/20/15/10/10. The sum falls into one of three tiers:
  `HIGH_RISK` from 70, `MEDIUM_RISK` from 40, `LOW_RISK` below 40. Each check is a function
  whose contract states exactly when it fires. `CalculateRiskScore` accumulates the score
  step by step, as the source does. Its result is tied to `WeightedScore` and `Tier`, and
  those two come with bounds, iff characterisations and monotonicity lemmas.
- **Document agent** (`document_agent.dfy`). `_extract_fields` runs four regular-expression
  searches in order and appends a tag for each one that matches. `process_document` reports:
  - the tags;
  - a whitespace word count;
  - the character count;
  - whether the text holds financial data.

  Each regular expression is written as a predicate over positions of the text. Lemmas
  relate them: the financial-data search succeeds exactly when the text holds a digit, and
  every tag except `business_names` implies that digit.
- **Fraud detection agent** (`fraud_detection_agent.dfy`). Four rules run over the
  lower-cased markdown: three keyword lists and one `$` followed by six or more digits. The
  detected patterns come in rule order, 20 risk points each. The report always lists the
  full five-pattern catalog.
- **Compliance agent** (`compliance_agent.dfy`). Two pass rules read the document report: it
  has financial data, and it has at least two fields. Each passed rule is worth 25 points.
  A fixed list of four checks is reported beside them.

`text.dfy` supplies the Python string semantics the agents rely on:
- `str.lower`;
- `str.split()`;
- substring search;
- `re.search` as "some start position matches";
- `\b`, `\d` and `\w`.

`seqs.dfy` supplies order-preserving filtering, which is how a list built by successive
`if … append` is specified. `options.dfy` models `dict.get(key, default)`.

All source references below are to `ultimate_production.py`.

## Model

| member | source | states |
|---|---|---|
| RiskScorer.CheckDuplicateApplications | ultimate_production.py:78-81 | fires exactly when the applicant id is present and is one of the three known duplicates |
| RiskScorer.DiscrepancyRewrite | ultimate_production.py:91-93 | for a positive verified income, "discrepancy > 0.25" is the integer test 4·\|reported − verified\| > verified |
| RiskScorer.CheckIncomeVerification | ultimate_production.py:83-96 | fires exactly when there is no W-2, or the verified income is positive and the relative discrepancy exceeds 0.25 |
| RiskScorer.LowerInStatuses | ultimate_production.py:105-107 | lower-casing the status and looking it up equals a case-insensitive match against revoked/suspended/expired |
| RiskScorer.CheckCredentialValidity | ultimate_production.py:98-109 | fires exactly when the license is expired or the accreditation status (default "unknown") matches an invalid status in any letter case |
| RiskScorer.CheckBusinessHistory | ultimate_production.py:111-121 | clear exactly when the business is at least 3 years old, or at least 1 year old with prior contracts |
| RiskScorer.CheckDocumentationQuality | ultimate_production.py:123-132 | clear exactly when the id is verified and the address or the income is documented |
| RiskScorer.CheckGeographicFraudPatterns | ultimate_production.py:134-137 | fires exactly when the ZIP code is present and is one of the three high-risk ZIPs |
| RiskScorer.WeightedScore | ultimate_production.py:61-69 | the weighted total of the six checks lies in 0..100 |
| RiskScorer.ScoreZeroIff | ultimate_production.py:61-69 | the score is 0 exactly when no check fires |
| RiskScorer.ScoreFullIff | ultimate_production.py:61-69 | the score is 100 exactly when all six checks fire |
| RiskScorer.Tier | ultimate_production.py:71-76 | HIGH_RISK iff score ≥ 70, MEDIUM_RISK iff 40 ≤ score < 70, LOW_RISK iff score < 40 |
| RiskScorer.CalculateRiskScore | ultimate_production.py:59-76 | the accumulated score equals the weighted score of the six checks, lies in 0..100, and the level is its tier |
| RiskScorer.TierMonotone | ultimate_production.py:71-76 | a higher score never gets a lower tier |
| RiskScorer.RaiseDelta | ultimate_production.py:64-69 | setting check k to 1 adds its weight when it was 0 and leaves the score unchanged when it was already 1 |
| RiskScorer.RaiseNeverLowers | ultimate_production.py:64-76 | setting one check to 1 adds exactly its weight when it was 0, so the score and the tier never go down |
| RiskScorer.EmptyRecordScore | ultimate_production.py:78-137 | a record with no keys fails the income, business and documentation checks: 45, MEDIUM_RISK |
| RiskScorer.TestRecordScore | ultimate_production.py:322-334 | the audit screen's fixed record fails all six checks: 100, HIGH_RISK |
| Text.SplitSpec | ultimate_production.py:149 | `split()` yields non-empty whitespace-free tokens that concatenate to the text without whitespace, exactly one per word start (a non-whitespace character at the start or after whitespace), at most (n+1)/2 of them, and none exactly when the text is all whitespace |
| Text.ContainsAnyIff | ultimate_production.py:179 | `any(word in text for word in words)` holds iff some word of the list occurs in the text |
| Text.SearchIff | ultimate_production.py:157 | `re.search` succeeds iff the pattern matches at some start position |
| DocumentAgent.ExtractFields | ultimate_production.py:155-161 | the tags are those of the four searches that match, in the order financial_amounts, ssn_patterns, business_names, zip_codes |
| DocumentAgent.ProcessDocument | ultimate_production.py:141-153 | a missing markdown key is read as ""; the report holds the extracted tags, the token count of `split()` (the number of word starts, 0 iff all whitespace, at most (n+1)/2), the length, and has_financial_data iff the text holds a digit |
| DocumentAgent.FinancialDataIffDigit | ultimate_production.py:151 | `\$?\d+[,.]?\d*` finds a match exactly when the text contains a digit |
| DocumentAgent.AmountIffDigitRun | ultimate_production.py:157 | `\$?\d{4,}` finds a match exactly when the text has four consecutive digits |
| DocumentAgent.SsnHasDigitRun | ultimate_production.py:158 | an SSN-shaped match brings four consecutive digits |
| DocumentAgent.ZipHasDigitRun | ultimate_production.py:160 | a five-digit ZIP match brings four consecutive digits |
| DocumentAgent.DigitTagImpliesFinancialData | ultimate_production.py:155-161 | every tag except business_names implies the text has financial data |
| DocumentAgent.FieldsShape | ultimate_production.py:155-161 | at most four tags, no repeats, in test order, and a tag is present iff its search matches |
| DocumentAgent.FieldsImplications | ultimate_production.py:157-160 | ssn_patterns and zip_codes each imply financial_amounts, and financial_amounts implies has_financial_data |
| DocumentAgent.TwoFieldsImplyFinancialData | ultimate_production.py:147-161 | a text with two or more tags has financial data |
| DocumentAgent.EmptyTextAnalysis | ultimate_production.py:141-153 | empty text gives no tags, 0 words, 0 characters, no financial data |
| DocumentAgent.SampleLineFields | ultimate_production.py:155-161 | "ACME paid $12345 at 60601" is tagged financial_amounts, business_names and zip_codes, and has no SSN |
| FraudDetectionAgent.AnalyzeFraud | ultimate_production.py:164-196 | the report names the analyst, lists the whole five-pattern catalog, detects the firing rules over the lower-cased text in rule order, and scores 20 per detection |
| FraudDetectionAgent.DetectedShape | ultimate_production.py:176-189 | detections come from the catalog without repeats and in rule order; a pattern is detected iff its rule fires; deceased beneficiaries are never detected; at most 4 detections, at most 80 points |
| FraudDetectionAgent.NoSignalDetectsNothing | ultimate_production.py:179-189 | a text with no letter and no `$` detects nothing |
| FraudDetectionAgent.EmptyTextDetectsNothing | ultimate_production.py:164-189 | an empty document detects nothing |
| FraudDetectionAgent.SampleTextDetection | ultimate_production.py:164-195 | "Duplicate application for $1500000 income reported" detects duplicate applications, suspicious amounts and income mismatches: 60 risk points |
| FraudDetectionAgent.RuleOrderIsNotCatalogOrder | ultimate_production.py:168-189 | "income $1000000" detects suspicious amounts before income mismatches, which is not the catalog's order |
| ComplianceAgent.VerifyCompliance | ultimate_production.py:199-219 | the report names the officer and the four listed checks; financial documentation passes iff the document has financial data; data completeness passes iff at least two fields were tagged; 25 points each, so 0, 25 or 50; the fraud report is not consulted |
| ComplianceAgent.PassedShape | ultimate_production.py:208-212 | passed checks come in rule order without repeats; a check passes iff it has a rule that passes; the score is 0, 25 or 50 |
| ComplianceAgent.PassedOutsideCatalog | ultimate_production.py:201-212 | no passed check is one of the four listed checks, not even by label |
| ComplianceAgent.PipelineScore | ultimate_production.py:298-314 | on the document agent's own report, data completeness implies financial documentation; the score is 0 iff the text has no digit and 50 iff at least two fields were tagged |
| ComplianceAgent.SampleLineCompliance | ultimate_production.py:208-218 | the sample invoice line passes both rules: 50 points |

Notes on how the code was read:
- The pass labels ("Financial Documentation", "Data Completeness") are not among the four
  `compliance_checks` labels, so a non-empty `passed_checks` is never a subset of
  `compliance_checks`. `PassedOutsideCatalog` proves the two sets disjoint.
- The detected fraud patterns follow the order in which the rules run. That order is not
  the catalog's: suspicious amounts come before income mismatches.
  `RuleOrderIsNotCatalogOrder` shows this.
- A document is tagged `ssn_patterns` only when it holds an SSN-shaped run. A text with an
  amount, an all-caps name and a ZIP code gets three tags, not four.
  `SampleLineFields` shows this.
- `business_names` is the only tag a digit-free text can get. So two or more tags always
  bring financial data, and on the agent's own output the compliance score is never exactly
  "data completeness only".

## Left out

- `RealADEProcessor` (lines 13-56): the HTTP call to the document-extraction service, the timing and the response parsing. The model starts from the extracted data, whose markdown key may be missing.
- `main` (lines 222-423): the Streamlit page, the file upload, the session metrics and the display. The agent chain it runs appears only as the composition `AnalysisOf` → `PassedIn` in `PipelineScore`.
- The fraud report argument of `verify_compliance` and the document report argument of `analyze_fraud` are accepted and unused, as in the source.
- RiskScorer.CheckIncomeVerification: the discrepancy is exact rational arithmetic, not IEEE double division. The two can differ when the incomes are so large that the division rounds across 0.25, or so large that the quotient exceeds the float range, where Python raises `OverflowError` at line 92 (for example `verified_income` 1 and `reported_income` 2**1024) while the model returns 1 and scoring goes on.
- RiskScorer.ApplicantRecord: incomes and the business age are integers, and every present value has the type its check expects. Python accepts floats and any other type dynamically, or fails on them at run time.
- DocumentAgent.ExtractedData: the markdown value is a string or absent. A present `null` value is not modelled: the regex searches (lines 147, 157-160) raise `TypeError` on it, and `lower()` (line 166) raises `AttributeError`.
- Text: character classes are ASCII only. This covers `\d`, `\w`, the whitespace set of `str.split()`, and `str.lower()`. Python's Unicode digits, letters, spaces and case mappings are not modelled.
- Text.SearchIff: `re.search` is modelled by whether a match exists. The match position and the captured text are not used by the source and are not modelled.
- `processing_time`, `credits_used` and the other extraction metadata are display-only and not modelled.
