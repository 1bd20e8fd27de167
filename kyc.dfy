/**
 * The KYC page: the five-field identity form with its input filters, the
 * all-fields validation, the submit that stores an approved record, and the
 * choice of what the page shows for the stored record's status.
 *
 * The persistence layer is replaced by the page's copy of the user's first
 * KYC record (`kycStatus`); `new Date(date_of_birth)` and `new Date()` are
 * passed in as millisecond timestamps.
 */
module Kyc {
  import opened FormValues
  import opened Chars

  datatype KycForm = KycForm(
    fullName: string,
    dateOfBirth: string,
    aadharNumber: string,
    panNumber: string,
    address: string)

  const EmptyForm: KycForm := KycForm("", "", "", "", "")

  /** The keys of the `errors` object. */
  datatype KycField = FullName | DateOfBirth | AadharNumber | PanNumber | Address

  /** The stored KYCVerification record. */
  datatype KycRecord = KycRecord(
    id: string,
    form: KycForm,
    aadharFrontUrl: string,
    aadharBackUrl: string,
    panCardUrl: string,
    status: string,
    rejectionReason: string)

  // ---------------------------------------------------------------------
  // Field formats
  // ---------------------------------------------------------------------

  /** `^\d{12}$` */
  const AadharPattern: seq<CharClass> := Repeat(Digit, 12)

  /** `^[A-Z]{5}[0-9]{4}[A-Z]{1}$` */
  const PanPattern: seq<CharClass> := Repeat(UpperLetter, 5) + Repeat(Digit, 4) + Repeat(UpperLetter, 1)

  /** An Aadhar number: exactly twelve digits. */
  predicate ValidAadhar(s: string) {
    |s| == 12 && AllDigits(s)
  }

  /** A PAN: five capitals, four digits, one capital. */
  predicate ValidPan(s: string) {
    && |s| == 10
    && (forall i :: 0 <= i < 5 ==> IsUpper(s[i]))
    && (forall i :: 5 <= i < 9 ==> IsDigit(s[i]))
    && IsUpper(s[9])
  }

  /** The Aadhar check is the anchored match of its regular expression. */
  lemma ValidAadharIsPattern(s: string)
    ensures ValidAadhar(s) <==> Matches(s, AadharPattern)
  {
    MatchesIff(s, AadharPattern);
  }

  /** The PAN check is the anchored match of its regular expression. */
  lemma ValidPanIsPattern(s: string)
    ensures ValidPan(s) <==> Matches(s, PanPattern)
  {
    MatchesIff(s, PanPattern);
    assert forall i :: 0 <= i < 5 ==> PanPattern[i] == UpperLetter;
    assert forall i :: 5 <= i < 9 ==> PanPattern[i] == Digit;
    assert PanPattern[9] == UpperLetter;
  }

  lemma FormatExamples()
    ensures !ValidAadhar("12345")
    ensures !ValidPan("abcde1234f")
    ensures ValidPan("ABCDE1234F")
    ensures ValidAadhar("123456789012")
  {
    var aadhar := "123456789012";
    assert aadhar[0] == '1' && aadhar[1] == '2' && aadhar[2] == '3' && aadhar[3] == '4';
    assert aadhar[4] == '5' && aadhar[5] == '6' && aadhar[6] == '7' && aadhar[7] == '8';
    assert aadhar[8] == '9' && aadhar[9] == '0' && aadhar[10] == '1' && aadhar[11] == '2';
    var pan := "ABCDE1234F";
    assert pan[0] == 'A' && pan[1] == 'B' && pan[2] == 'C' && pan[3] == 'D' && pan[4] == 'E';
    assert pan[5] == '1' && pan[6] == '2' && pan[7] == '3' && pan[8] == '4' && pan[9] == 'F';
  }

  // ---------------------------------------------------------------------
  // Input filters of the onChange handlers
  // ---------------------------------------------------------------------

  /** `maxLength` of the Aadhar input. */
  const AadharMaxLength: nat := 12

  /**
   * Aadhar input: the browser keeps at most twelve characters of an edit
   * (`maxLength`), then `value.replace(/\D/g, '').slice(0, 12)` keeps the
   * digits among them, in order.
   */
  function SanitizeAadhar(raw: string): (s: string)
    ensures AllDigits(s) && |s| <= AadharMaxLength
    ensures s == KeepDigits(Take(raw, AadharMaxLength))
    ensures Subsequence(s, Take(raw, AadharMaxLength))
  {
    Take(KeepDigits(Take(raw, AadharMaxLength)), 12)
  }

  /** PAN input: `value.toUpperCase().slice(0, 10)`. */
  function SanitizePan(raw: string): (s: string)
    ensures NoLower(s)
    ensures |s| == if |raw| < 10 then |raw| else 10
    ensures s == Upper(raw)[..|s|]
  {
    Take(Upper(raw), 10)
  }

  /**
   * The filtered Aadhar field passes validation iff the first twelve
   * characters of the edit are all digits.
   */
  lemma SanitizedAadharValid(raw: string)
    ensures ValidAadhar(SanitizeAadhar(raw)) <==> |raw| >= 12 && AllDigits(raw[..12])
  {
    var t := Take(raw, AadharMaxLength);
    if |raw| >= 12 && AllDigits(raw[..12]) {
      KeepDigitsOfDigits(t);
    }
    if ValidAadhar(SanitizeAadhar(raw)) {
      KeepDigitsShorter(t);
    }
  }

  /**
   * Pasting the number in the placeholder's own grouping fails validation:
   * `maxLength` keeps "1234 5678 90", whose ten digits are too few.
   */
  lemma PastedGroupedAadhar()
    ensures !ValidAadhar(SanitizeAadhar("1234 5678 9012"))
  {
    var raw := "1234 5678 9012";
    SanitizedAadharValid(raw);
    assert !IsDigit(raw[..12][4]);
  }

  /** Filtering an already-filtered field changes nothing. */
  lemma SanitizersIdempotent(raw: string)
    ensures SanitizeAadhar(SanitizeAadhar(raw)) == SanitizeAadhar(raw)
    ensures SanitizePan(SanitizePan(raw)) == SanitizePan(raw)
  {
    KeepDigitsOfDigits(SanitizeAadhar(raw));
    var p := SanitizePan(raw);
    assert Upper(p) == p by {
      assert forall i :: 0 <= i < |p| ==> Upper(p)[i] == p[i];
    }
  }

  // ---------------------------------------------------------------------
  // Validation
  // ---------------------------------------------------------------------

  /** `365.25 * 24 * 60 * 60 * 1000`. */
  const YearMs: int := 31557600000

  /** `Math.floor((now - birthDate) / YearMs)`. */
  function AgeYears(nowMs: int, birthMs: int): int {
    (nowMs - birthMs) / YearMs
  }

  /** Under 18 is the same as fewer than 18 Julian years of 365.25 days having elapsed. */
  lemma UnderageIff(nowMs: int, birthMs: int)
    ensures AgeYears(nowMs, birthMs) < 18 <==> nowMs - birthMs < 18 * YearMs
  {
  }

  /**
   * The date-of-birth check. It runs only for a non-empty field; an
   * unparseable date (`birthMs` None, JavaScript's Invalid Date) gives a
   * NaN age, and `NaN < 18` is false.
   */
  predicate Underage(form: KycForm, birthMs: Option<int>, nowMs: int) {
    form.dateOfBirth != "" && birthMs.Some? && AgeYears(nowMs, birthMs.value) < 18
  }

  function Message(f: KycField): string {
    match f
    case AadharNumber => "Aadhar number must be 12 digits"
    case PanNumber => "Invalid PAN format (e.g., ABCDE1234F)"
    case DateOfBirth => "You must be at least 18 years old"
    case FullName => "Please provide your full name"
    case Address => "Please provide a complete address"
  }

  /** Every field check passes. */
  predicate AllFieldsValid(form: KycForm, birthMs: Option<int>, nowMs: int) {
    && ValidAadhar(form.aadharNumber)
    && ValidPan(form.panNumber)
    && !Underage(form, birthMs, nowMs)
    && |form.fullName| >= 3
    && |form.address| >= 10
  }

  /**
   * The body of `validateForm`: five independent checks, each adding its own
   * field to `newErrors`; no check stops the others. The message shown for a
   * field is `Message(field)`, so the error object is modelled by its keys.
   */
  method CollectErrors(form: KycForm, birthMs: Option<int>, nowMs: int) returns (newErrors: set<KycField>)
    ensures AadharNumber in newErrors <==> !ValidAadhar(form.aadharNumber)
    ensures PanNumber in newErrors <==> !ValidPan(form.panNumber)
    ensures DateOfBirth in newErrors <==> Underage(form, birthMs, nowMs)
    ensures FullName in newErrors <==> |form.fullName| < 3
    ensures Address in newErrors <==> |form.address| < 10
    ensures newErrors == {} <==> AllFieldsValid(form, birthMs, nowMs)
  {
    newErrors := {};
    if !ValidAadhar(form.aadharNumber) {
      newErrors := newErrors + {AadharNumber};
    }
    if !ValidPan(form.panNumber) {
      newErrors := newErrors + {PanNumber};
    }
    if form.dateOfBirth != "" && birthMs.Some? {
      var age := AgeYears(nowMs, birthMs.value);
      if age < 18 {
        newErrors := newErrors + {DateOfBirth};
      }
    }
    if form.fullName == "" || |form.fullName| < 3 {
      newErrors := newErrors + {FullName};
    }
    if form.address == "" || |form.address| < 10 {
      newErrors := newErrors + {Address};
    }
  }

  /** Two examples: a five-digit Aadhar is reported; a well-formed form passes. */
  method ValidationExamples() returns (short: set<KycField>, good: set<KycField>)
    ensures AadharNumber in short
    ensures good == {}
  {
    FormatExamples();
    short := CollectErrors(KycForm("Asha Rao", "1990-01-01", "12345", "ABCDE1234F", "12 MG Road, Pune"),
                           Some(631152000000), 1760400000000);
    good := CollectErrors(KycForm("Asha Rao", "1990-01-01", "123456789012", "ABCDE1234F", "12 MG Road, Pune"),
                          Some(631152000000), 1760400000000);
  }

  // ---------------------------------------------------------------------
  // Status display
  // ---------------------------------------------------------------------

  datatype Badge = PendingBadge | UnderReviewBadge | ApprovedBadge | RejectedBadge

  predicate KnownStatus(status: string) {
    status == "pending" || status == "under_review" || status == "approved" || status == "rejected"
  }

  /** `statusConfig[status] || statusConfig.pending`. */
  function StatusBadge(status: string): (b: Badge)
    ensures b == UnderReviewBadge <==> status == "under_review"
    ensures b == ApprovedBadge <==> status == "approved"
    ensures b == RejectedBadge <==> status == "rejected"
    ensures b == PendingBadge <==> !KnownStatus(status) || status == "pending"
  {
    if status == "under_review" then UnderReviewBadge
    else if status == "approved" then ApprovedBadge
    else if status == "rejected" then RejectedBadge
    else PendingBadge
  }

  /** The form is rendered when there is no record, or it was rejected, or it is pending. */
  predicate ShowsForm(rec: Option<KycRecord>) {
    rec.None? || rec.value.status == "rejected" || rec.value.status == "pending"
  }

  predicate ShowsApprovedCard(rec: Option<KycRecord>) {
    rec.Some? && rec.value.status == "approved"
  }

  predicate ShowsReviewCard(rec: Option<KycRecord>) {
    rec.Some? && rec.value.status == "under_review"
  }

  /**
   * For no record or a known status exactly one of form, approved card and
   * review card is shown. An unknown status is badged as pending, yet shows
   * neither the form nor a card.
   */
  lemma ViewsForStatus(rec: Option<KycRecord>)
    ensures rec.None? || KnownStatus(rec.value.status) ==>
      (if ShowsForm(rec) then 1 else 0) + (if ShowsApprovedCard(rec) then 1 else 0)
        + (if ShowsReviewCard(rec) then 1 else 0) == 1
    ensures rec.Some? && !KnownStatus(rec.value.status) ==>
      StatusBadge(rec.value.status) == PendingBadge
      && !ShowsForm(rec) && !ShowsApprovedCard(rec) && !ShowsReviewCard(rec)
    ensures ShowsForm(rec) <==>
      rec.None? || (StatusBadge(rec.value.status) in {PendingBadge, RejectedBadge} && KnownStatus(rec.value.status))
  {
  }

  // ---------------------------------------------------------------------
  // Submission
  // ---------------------------------------------------------------------

  /**
   * The record written by `handleSubmit`: the form fields, the three
   * document URLs set to "verified" and status "approved". An update keeps
   * the existing id and rejection reason; a create takes the id the store
   * assigns.
   */
  function Approved(existing: Option<KycRecord>, form: KycForm, newId: string): (r: KycRecord)
    ensures r.form == form && r.status == "approved"
    ensures r.aadharFrontUrl == "verified" && r.aadharBackUrl == "verified" && r.panCardUrl == "verified"
    ensures existing.Some? ==> r.id == existing.value.id && r.rejectionReason == existing.value.rejectionReason
    ensures existing.None? ==> r.id == newId && r.rejectionReason == ""
    ensures !ShowsForm(Some(r)) && ShowsApprovedCard(Some(r))
  {
    match existing
    case Some(rec) => rec.(form := form, aadharFrontUrl := "verified", aadharBackUrl := "verified",
                           panCardUrl := "verified", status := "approved")
    case None => KycRecord(newId, form, "verified", "verified", "verified", "approved", "")
  }

  datatype SubmitOutcome = Invalid | Verified | SaveFailed

  class KycPage {
    var kycStatus: Option<KycRecord>
    var formData: KycForm
    var errors: set<KycField>
    var submitting: bool
    var loading: bool

    constructor ()
      ensures kycStatus == None && formData == EmptyForm && errors == {}
      ensures !submitting && loading
    {
      kycStatus := None;
      formData := EmptyForm;
      errors := {};
      submitting := false;
      loading := true;
    }

    /** `loadKYCStatus` once the user's records have arrived: the first one fills the form. */
    method LoadKycStatus(records: seq<KycRecord>)
      modifies this`kycStatus, this`formData, this`loading
      ensures |records| > 0 ==> kycStatus == Some(records[0]) && formData == records[0].form
      ensures |records| == 0 ==> kycStatus == old(kycStatus) && formData == old(formData)
      ensures !loading
    {
      if |records| > 0 {
        kycStatus := Some(records[0]);
        formData := records[0].form;
      }
      loading := false;
    }

    /** The five `onChange` handlers: Aadhar and PAN are filtered, the rest stored as typed. */
    method HandleFieldChange(field: KycField, raw: string)
      modifies this`formData
      ensures formData == match field
        case FullName => old(formData).(fullName := raw)
        case DateOfBirth => old(formData).(dateOfBirth := raw)
        case AadharNumber => old(formData).(aadharNumber := SanitizeAadhar(raw))
        case PanNumber => old(formData).(panNumber := SanitizePan(raw))
        case Address => old(formData).(address := raw)
    {
      match field {
        case FullName => formData := formData.(fullName := raw);
        case DateOfBirth => formData := formData.(dateOfBirth := raw);
        case AadharNumber => formData := formData.(aadharNumber := SanitizeAadhar(raw));
        case PanNumber => formData := formData.(panNumber := SanitizePan(raw));
        case Address => formData := formData.(address := raw);
      }
    }

    /** `validateForm`: store every field error and report whether there were none. */
    method ValidateForm(birthMs: Option<int>, nowMs: int) returns (ok: bool)
      modifies this`errors
      ensures ok <==> errors == {}
      ensures ok <==> AllFieldsValid(formData, birthMs, nowMs)
      ensures AadharNumber in errors <==> !ValidAadhar(formData.aadharNumber)
      ensures PanNumber in errors <==> !ValidPan(formData.panNumber)
      ensures DateOfBirth in errors <==> Underage(formData, birthMs, nowMs)
      ensures FullName in errors <==> |formData.fullName| < 3
      ensures Address in errors <==> |formData.address| < 10
    {
      var newErrors := CollectErrors(formData, birthMs, nowMs);
      errors := newErrors;
      ok := newErrors == {};
    }

    /**
     * `handleSubmit`: an invalid form writes nothing; a valid one is stored
     * as approved (updating the existing record or creating one) and then
     * reloaded. `saved` says whether the store accepted the write.
     */
    method HandleSubmit(birthMs: Option<int>, nowMs: int, newId: string, saved: bool) returns (outcome: SubmitOutcome)
      modifies this
      ensures outcome == Invalid <==> !AllFieldsValid(old(formData), birthMs, nowMs)
      ensures outcome != Invalid ==> errors == {}
      ensures outcome == Invalid ==> (AadharNumber in errors <==> !ValidAadhar(old(formData).aadharNumber))
      ensures outcome == Invalid ==> (PanNumber in errors <==> !ValidPan(old(formData).panNumber))
      ensures outcome == Invalid ==> (DateOfBirth in errors <==> Underage(old(formData), birthMs, nowMs))
      ensures outcome == Invalid ==> (FullName in errors <==> |old(formData).fullName| < 3)
      ensures outcome == Invalid ==> (Address in errors <==> |old(formData).address| < 10)
      ensures outcome == Verified <==> AllFieldsValid(old(formData), birthMs, nowMs) && saved
      ensures outcome == Verified ==> kycStatus == Some(Approved(old(kycStatus), old(formData), newId))
      ensures outcome == Verified ==> !ShowsForm(kycStatus)
      ensures outcome != Verified ==> kycStatus == old(kycStatus)
      ensures formData == old(formData)
      ensures outcome == Invalid ==> submitting == old(submitting)
      ensures outcome != Invalid ==> !submitting
      ensures loading == (if outcome == Verified then false else old(loading))
    {
      var ok := ValidateForm(birthMs, nowMs);
      if !ok {
        return Invalid;
      }
      submitting := true;
      if saved {
        var stored := Approved(kycStatus, formData, newId);
        LoadKycStatus([stored]);
        outcome := Verified;
      } else {
        outcome := SaveFailed;
      }
      submitting := false;
    }
  }
}
