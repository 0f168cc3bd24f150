/**
 * The applicant risk scorer: six 0/1 checks over a key/value applicant record,
 * summed with fixed weights and mapped to a three-tier verdict.
 */
module RiskScorer {
  import opened Options
  import opened Seqs
  import opened Text

  /**
   * The applicant record. Every key is optional; a lookup resolves a missing key to the
   * default its check uses. Incomes and the business age are whole numbers.
   */
  datatype ApplicantRecord = ApplicantRecord(
    applicantId: Option<string>,
    reportedIncome: Option<int>,
    verifiedIncome: Option<int>,
    hasW2: Option<bool>,
    licenseExpired: Option<bool>,
    accreditationStatus: Option<string>,
    businessAgeYears: Option<int>,
    hasPriorContracts: Option<bool>,
    idVerified: Option<bool>,
    addressVerified: Option<bool>,
    incomeDocumented: Option<bool>,
    zipCode: Option<string>)

  /** The record with no keys at all. */
  const EmptyRecord := ApplicantRecord(None, None, None, None, None, None, None, None, None, None, None, None)

  /** The fixed record the audit screen scores. */
  const TestRecord := ApplicantRecord(
    Some("APP_12345"), Some(80000), Some(50000), Some(false), Some(true), None,
    Some(0), None, Some(false), None, None, Some("60601"))

  /** The result of one check. */
  type Bit = b: int | 0 <= b <= 1

  const KnownDuplicates: seq<string> := ["APP_12345", "DUP_66789", "FRAUD_001"]
  const InvalidStatuses: seq<string> := ["revoked", "suspended", "expired"]
  const HighRiskZips: seq<string> := ["60601", "75201", "10001"]

  function Abs(x: int): nat { if x < 0 then -x else x }

  /** The relative income discrepancy |reported - verified| / verified, exactly. */
  ghost function Discrepancy(reported: int, verified: int): real
    requires verified > 0
  {
    Abs(reported - verified) as real / verified as real
  }

  lemma QuarterTest(d: real, v: real)
    requires v > 0.0
    ensures d / v > 0.25 <==> 4.0 * d > v
  {
    var q := d / v;
    assert q * v == d;
    assert q * v - 0.25 * v == (q - 0.25) * v;
  }

  /** For a positive verified income, the integer test 4 * |r - v| > v is the test discrepancy > 0.25. */
  lemma DiscrepancyRewrite(reported: int, verified: int)
    ensures verified > 0 ==>
      (Discrepancy(reported, verified) > 0.25 <==> 4 * Abs(reported - verified) > verified)
  {
    if verified > 0 {
      var a := Abs(reported - verified);
      QuarterTest(a as real, verified as real);
      assert (4 * a) as real == 4.0 * (a as real);
    }
  }

  /** The applicant id is one of the known duplicates; with no id the check never fires. */
  function CheckDuplicateApplications(data: ApplicantRecord): (r: Bit)
    ensures r == 1 <==> data.applicantId.Some? && data.applicantId.value in KnownDuplicates
  {
    if data.applicantId.GetOr("") in KnownDuplicates then 1 else 0
  }

  /**
   * Fires when there is no W-2, or when the verified income is positive and the reported
   * income differs from it by more than a quarter of it.
   */
  function CheckIncomeVerification(data: ApplicantRecord): (r: Bit)
    ensures r == 1 <==>
      !data.hasW2.GetOr(false) ||
      (data.verifiedIncome.GetOr(0) > 0 &&
       Discrepancy(data.reportedIncome.GetOr(0), data.verifiedIncome.GetOr(0)) > 0.25)
  {
    var reported := data.reportedIncome.GetOr(0);
    var verified := data.verifiedIncome.GetOr(0);
    var hasW2 := data.hasW2.GetOr(false);
    DiscrepancyRewrite(reported, verified);
    if !hasW2 then 1
    else if verified > 0 && 4 * Abs(reported - verified) > verified then 1
    else 0
  }

  /** `a` and `b` are equal when ASCII case is ignored. */
  predicate EqualsIgnoringCase(a: string, b: string) {
    |a| == |b| && forall k :: 0 <= k < |a| ==> ToLower(a[k]) == ToLower(b[k])
  }

  /** Lower-casing the status and looking it up is a case-insensitive comparison with the list. */
  lemma LowerInStatuses(status: string)
    ensures Lower(status) in InvalidStatuses <==>
      exists j :: 0 <= j < |InvalidStatuses| && EqualsIgnoringCase(status, InvalidStatuses[j])
  {
    forall j | 0 <= j < |InvalidStatuses|
      ensures Lower(status) == InvalidStatuses[j] <==> EqualsIgnoringCase(status, InvalidStatuses[j])
    {
      var w := InvalidStatuses[j];
      assert Lower(w) == w;
      if EqualsIgnoringCase(status, w) {
        assert forall k :: 0 <= k < |w| ==> Lower(status)[k] == w[k];
      }
    }
  }

  /** Fires on an expired license, or on a status that is revoked, suspended or expired in any letter case. */
  function CheckCredentialValidity(data: ApplicantRecord): (r: Bit)
    ensures r == 1 <==>
      data.licenseExpired.GetOr(false) ||
      exists j :: 0 <= j < |InvalidStatuses| && EqualsIgnoringCase(data.accreditationStatus.GetOr("unknown"), InvalidStatuses[j])
  {
    var licenseExpired := data.licenseExpired.GetOr(false);
    var status := data.accreditationStatus.GetOr("unknown");
    LowerInStatuses(status);
    if licenseExpired then 1
    else if Lower(status) in InvalidStatuses then 1
    else 0
  }

  /** Clear only for a business at least three years old, or at least one year old with prior contracts. */
  function CheckBusinessHistory(data: ApplicantRecord): (r: Bit)
    ensures r == 0 <==>
      data.businessAgeYears.GetOr(0) >= 3 ||
      (data.businessAgeYears.GetOr(0) >= 1 && data.hasPriorContracts.GetOr(false))
  {
    var businessAge := data.businessAgeYears.GetOr(0);
    var hasPriorContracts := data.hasPriorContracts.GetOr(false);
    if businessAge < 1 then 1
    else if !hasPriorContracts && businessAge < 3 then 1
    else 0
  }

  /** The required documents, keyed as in the record. */
  datatype RequiredDoc = IdVerified | AddressVerified | IncomeDocumented

  const RequiredDocs: seq<RequiredDoc> := [IdVerified, AddressVerified, IncomeDocumented]

  /** A document counts as missing when its key is absent or false. */
  function IsMissingIn(data: ApplicantRecord): RequiredDoc -> bool {
    (doc: RequiredDoc) =>
      match doc
      case IdVerified => !data.idVerified.GetOr(false)
      case AddressVerified => !data.addressVerified.GetOr(false)
      case IncomeDocumented => !data.incomeDocumented.GetOr(false)
  }

  /** Clear only when the id is verified and at least one of address and income is documented. */
  function CheckDocumentationQuality(data: ApplicantRecord): (r: Bit)
    ensures r == 0 <==>
      data.idVerified.GetOr(false) &&
      (data.addressVerified.GetOr(false) || data.incomeDocumented.GetOr(false))
  {
    var missingDocs := Filter(RequiredDocs, IsMissingIn(data));
    Filter3(IdVerified, AddressVerified, IncomeDocumented, IsMissingIn(data));
    assert missingDocs ==
      (if !data.idVerified.GetOr(false) then [IdVerified] else []) +
      (if !data.addressVerified.GetOr(false) then [AddressVerified] else []) +
      (if !data.incomeDocumented.GetOr(false) then [IncomeDocumented] else []);
    if |missingDocs| >= 2 then 1
    else if IdVerified in missingDocs then 1
    else 0
  }

  /** The zip code is one of the high-risk zips; with no zip the check never fires. */
  function CheckGeographicFraudPatterns(data: ApplicantRecord): (r: Bit)
    ensures r == 1 <==> data.zipCode.Some? && data.zipCode.value in HighRiskZips
  {
    if data.zipCode.GetOr("") in HighRiskZips then 1 else 0
  }

  /** The six check results, in scoring order. */
  datatype CheckResults = CheckResults(
    duplicate: Bit, income: Bit, credential: Bit, business: Bit, documentation: Bit, geographic: Bit)
  {
    function Get(k: nat): Bit
      requires k < 6
    {
      if k == 0 then duplicate else if k == 1 then income else if k == 2 then credential
      else if k == 3 then business else if k == 4 then documentation else geographic
    }
  }

  /** The weight of check `k`. */
  function Weight(k: nat): nat
    requires k < 6
  {
    [25, 20, 20, 15, 10, 10][k]
  }

  function ChecksOf(data: ApplicantRecord): CheckResults {
    CheckResults(
      CheckDuplicateApplications(data), CheckIncomeVerification(data), CheckCredentialValidity(data),
      CheckBusinessHistory(data), CheckDocumentationQuality(data), CheckGeographicFraudPatterns(data))
  }

  /** The weighted total of the checks, between 0 and 100. */
  function WeightedScore(c: CheckResults): (score: int)
    ensures 0 <= score <= 100
  {
    25 * c.duplicate + 20 * c.income + 20 * c.credential
      + 15 * c.business + 10 * c.documentation + 10 * c.geographic
  }

  /** Every check has result `b`. */
  predicate AllChecks(c: CheckResults, b: Bit) {
    c.duplicate == b && c.income == b && c.credential == b
      && c.business == b && c.documentation == b && c.geographic == b
  }

  lemma AllChecksIff(c: CheckResults, b: Bit)
    ensures AllChecks(c, b) <==> forall k :: 0 <= k < 6 ==> c.Get(k) == b
  {
    if forall k :: 0 <= k < 6 ==> c.Get(k) == b {
      assert c.Get(0) == b && c.Get(1) == b && c.Get(2) == b;
      assert c.Get(3) == b && c.Get(4) == b && c.Get(5) == b;
    }
  }

  /** The score is 0 exactly when no check fires. */
  lemma ScoreZeroIff(c: CheckResults)
    ensures WeightedScore(c) == 0 <==> forall k :: 0 <= k < 6 ==> c.Get(k) == 0
  {
    AllChecksIff(c, 0);
  }

  /** The score is 100 exactly when every check fires. */
  lemma ScoreFullIff(c: CheckResults)
    ensures WeightedScore(c) == 100 <==> forall k :: 0 <= k < 6 ==> c.Get(k) == 1
  {
    AllChecksIff(c, 1);
  }



  datatype RiskLevel = LowRisk | MediumRisk | HighRisk {
    function Label(): string {
      match this
      case LowRisk => "LOW_RISK"
      case MediumRisk => "MEDIUM_RISK"
      case HighRisk => "HIGH_RISK"
    }

    /** Severity order of the tiers. */
    function Rank(): nat {
      match this
      case LowRisk => 0
      case MediumRisk => 1
      case HighRisk => 2
    }
  }

  /** The tier of a score: HIGH_RISK from 70, MEDIUM_RISK from 40 below 70, LOW_RISK below 40. */
  function Tier(score: int): (level: RiskLevel)
    ensures level == HighRisk <==> score >= 70
    ensures level == MediumRisk <==> 40 <= score < 70
    ensures level == LowRisk <==> score < 40
  {
    if score >= 70 then HighRisk
    else if score >= 40 then MediumRisk
    else LowRisk
  }

  /** The score of a record, as the scorer accumulates it. */
  function RiskScore(data: ApplicantRecord): int {
    WeightedScore(ChecksOf(data))
  }

  /** `calculate_risk_score`: accumulates the weighted checks into a score and returns its tier. */
  method CalculateRiskScore(data: ApplicantRecord) returns (level: RiskLevel, score: int)
    ensures score == WeightedScore(ChecksOf(data))
    ensures 0 <= score <= 100
    ensures level == Tier(score)
  {
    var c := ChecksOf(data);
    score := 0;
    score := score + c.duplicate * 25;
    score := score + c.income * 20;
    score := score + c.credential * 20;
    score := score + c.business * 15;
    score := score + c.documentation * 10;
    score := score + c.geographic * 10;

    if score >= 70 {
      level := HighRisk;
    } else if score >= 40 {
      level := MediumRisk;
    } else {
      level := LowRisk;
    }
  }

  /** The checks with check `k` raised to 1 and the others unchanged. */
  function Raise(c: CheckResults, k: nat): (r: CheckResults)
    requires k < 6
    ensures r.Get(k) == 1
    ensures forall j :: 0 <= j < 6 && j != k ==> r.Get(j) == c.Get(j)
  {
    if k == 0 then c.(duplicate := 1) else if k == 1 then c.(income := 1)
    else if k == 2 then c.(credential := 1) else if k == 3 then c.(business := 1)
    else if k == 4 then c.(documentation := 1) else c.(geographic := 1)
  }

  /** Tiers never go down as the score goes up. */
  lemma TierMonotone(s1: int, s2: int)
    requires s1 <= s2
    ensures Tier(s1).Rank() <= Tier(s2).Rank()
  {
  }

  /** Raising check `k` adds its weight when it was 0 and changes nothing when it was 1. */
  lemma RaiseDelta(c: CheckResults, k: nat)
    requires k < 6
    ensures WeightedScore(Raise(c, k)) == WeightedScore(c) + (if c.Get(k) == 0 then Weight(k) else 0)
  {
    if k == 0 {
      assert Raise(c, k) == c.(duplicate := 1);
    } else if k == 1 {
      assert Raise(c, k) == c.(income := 1);
    } else if k == 2 {
      assert Raise(c, k) == c.(credential := 1);
    } else if k == 3 {
      assert Raise(c, k) == c.(business := 1);
    } else if k == 4 {
      assert Raise(c, k) == c.(documentation := 1);
    } else {
      assert Raise(c, k) == c.(geographic := 1);
    }
  }

  /**
   * Raising one check from 0 to 1 with the others fixed adds exactly that check's weight
   * (and a check already at 1 changes nothing), so the score and the tier never go down.
   */
  lemma RaiseNeverLowers(c: CheckResults, k: nat)
    requires k < 6
    ensures WeightedScore(Raise(c, k)) == WeightedScore(c) + (if c.Get(k) == 0 then Weight(k) else 0)
    ensures WeightedScore(c) <= WeightedScore(Raise(c, k))
    ensures Tier(WeightedScore(c)).Rank() <= Tier(WeightedScore(Raise(c, k))).Rank()
  {
    RaiseDelta(c, k);
    TierMonotone(WeightedScore(c), WeightedScore(Raise(c, k)));
  }


  /** The empty record fails the income (no W-2), business (age 0) and documentation checks: 45, medium risk. */
  lemma EmptyRecordScore()
    ensures ChecksOf(EmptyRecord) == CheckResults(0, 1, 0, 1, 1, 0)
    ensures RiskScore(EmptyRecord) == 45
    ensures Tier(RiskScore(EmptyRecord)) == MediumRisk
  {
    assert "unknown" != "revoked";
    assert Lower("unknown") == "unknown";
  }

  /** The record the audit screen scores fails all six checks: 100, high risk. */
  lemma TestRecordScore()
    ensures ChecksOf(TestRecord) == CheckResults(1, 1, 1, 1, 1, 1)
    ensures RiskScore(TestRecord) == 100
    ensures Tier(RiskScore(TestRecord)) == HighRisk
  {
  }
}
