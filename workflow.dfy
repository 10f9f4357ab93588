/**
 * The receipt generator page: a five-step wizard (upload a payment screenshot, confirm the
 * payment, enter the patient, preview the breakdown, generate the receipt). The page's React
 * state is the fields of `ReceiptGenerator`, and each event handler is a method that changes
 * them. What a handler awaits — reading the screenshot, loading a spreadsheet file, saving the
 * receipt — is passed in as its outcome. Each handler is specified by a function from the
 * page's state before to its state after (`PageState`), and the invariant the wizard keeps,
 * `Consistent`, is proved to survive every one of them.
 */
module Workflow {
  import opened Wrappers
  import opened Types
  import opened BreakdownEngine
  import opened BreakdownValidator

  datatype Step = Upload | Confirm | Patient | Preview | Generate

  /** The steps in the order the progress bar shows them. */
  const Steps: seq<Step> := [Upload, Confirm, Patient, Preview, Generate]

  /** `Steps.indexOf(step)`: the position of the first occurrence of `step`. */
  function StepIndex(step: Step): (k: nat)
    ensures k < |Steps| && Steps[k] == step
    ensures forall j | 0 <= j < k :: Steps[j] != step
  {
    match step
    case Upload => 0
    case Confirm => 1
    case Patient => 2
    case Preview => 3
    case Generate => 4
  }

  /** The steps are all different, so each position names its own step. */
  lemma IndexOfStep(k: nat)
    requires k < |Steps|
    ensures StepIndex(Steps[k]) == k
  {
  }

  /** How the progress bar draws a step. */
  datatype Marker = Current | Completed | Pending

  /** The marker at position `idx`: the current step is highlighted, the ones before it ticked. */
  function MarkerAt(idx: nat, step: Step): Marker
    requires idx < |Steps|
  {
    if Steps[idx] == step then Current
    else if idx < StepIndex(step) then Completed
    else Pending
  }

  /** Exactly the current step is highlighted, and exactly the steps before it are ticked. */
  lemma ProgressBar(step: Step, idx: nat)
    requires idx < |Steps|
    ensures MarkerAt(idx, step) == Current <==> idx == StepIndex(step)
    ensures MarkerAt(idx, step) == Completed <==> idx < StepIndex(step)
    ensures MarkerAt(idx, step) == Pending <==> idx > StepIndex(step)
  {
    IndexOfStep(idx);
  }

  /** The patient the page starts with and returns to: every field blank, program TRT. */
  const BlankPatient := PatientDetails("", "", "", "", "", [], TRT)

  /** The checks `handlePatientSubmit` makes first: every required field filled in, some medication listed. */
  predicate PatientComplete(p: PatientDetails) {
    && p.name != "" && p.dateOfBirth != "" && p.coverageStartDate != "" && p.coverageEndDate != ""
    && p.state != "" && |p.medication| > 0
  }

  const DefaultLoadError := "Failed to load spreadsheet. Please upload it manually below."
  const UploadLoadError := "Failed to load spreadsheet. Please check the file format."

  datatype Provider = Provider(name: string, npi: Option<string>)

  /** What is handed to the receipt store and to the download buttons. */
  datatype ReceiptData = ReceiptData(
    patient: PatientDetails,
    payment: StripePaymentData,
    breakdown: Breakdown,
    generatedAt: string,
    billingProvider: Option<Provider>,
    renderingProvider: Option<Provider>)

  const BillingProvider := Provider("Fountain Vitality", None)
  const RenderingProvider := Provider(ProviderDescription, Some("1234567890"))

  /** The page's state, one component per `useState`. */
  datatype PageState = PageState(
    step: Step,
    spreadsheet: Option<SpreadsheetData>,
    spreadsheetError: Option<string>,
    payment: Option<StripePaymentData>,
    patient: PatientDetails,
    breakdown: Option<Breakdown>,
    validationResult: Option<ValidationResult>,
    processing: bool)

  /**
   * What every reachable state satisfies: each step past the upload has the records its panel
   * shows, and a validation result is present exactly with a breakdown and is that breakdown's.
   */
  predicate Consistent(s: PageState) {
    && ((s.step == Confirm || s.step == Patient) ==> s.payment.Some?)
    && (s.step == Preview ==> s.payment.Some? && s.spreadsheet.Some? && s.breakdown.Some?)
    && (s.step == Generate ==> s.payment.Some? && s.breakdown.Some?)
    && (s.breakdown.Some? <==> s.validationResult.Some?)
    && (s.breakdown.Some? ==> s.validationResult.value == Validate(s.breakdown.value))
  }

  /** The state before anything has happened: the upload step, nothing loaded, a blank patient. */
  const Initial := PageState(Upload, None, None, None, BlankPatient, None, None, false)

  /** The default spreadsheet requested on mount arrives (`loaded`), or its failure is reported. */
  function Mounted(s: PageState, loaded: Option<SpreadsheetData>): (r: PageState)
    ensures Consistent(s) ==> Consistent(r)
    ensures r.spreadsheet.Some? <==> loaded.Some? || s.spreadsheet.Some?
    ensures r.step == s.step && r.payment == s.payment && r.breakdown == s.breakdown
  {
    if loaded.Some? then s.(spreadsheet := loaded)
    else s.(spreadsheetError := Some(DefaultLoadError))
  }

  /**
   * `handleUpload`: with no file nothing happens; otherwise the payment read from the first
   * file (`parsed`, `None` when reading failed) is taken and the wizard moves on to the
   * confirmation, or stays where it was. The spinner is off once the read is over.
   */
  function Uploaded(s: PageState, fileCount: nat, parsed: Option<StripePaymentData>): (r: PageState)
    ensures Consistent(s) ==> Consistent(r)
    ensures r.step == Confirm <==> (fileCount > 0 && parsed.Some?) || s.step == Confirm
    ensures r.payment == if fileCount > 0 && parsed.Some? then parsed else s.payment
    ensures fileCount > 0 ==> !r.processing
    ensures fileCount == 0 ==> r == s
    ensures parsed.None? ==> r == s.(processing := r.processing)
  {
    if fileCount == 0 then s
    else if parsed.Some? then s.(payment := parsed, step := Confirm, processing := false)
    else s.(processing := false)
  }

  /** `handleSpreadsheetUpload`: a file that loads replaces the spreadsheet and clears the error. */
  function SpreadsheetUploaded(s: PageState, loaded: Option<SpreadsheetData>): (r: PageState)
    ensures Consistent(s) ==> Consistent(r)
    ensures r.spreadsheet == if loaded.Some? then loaded else s.spreadsheet
    ensures r.spreadsheetError.None? <==> loaded.Some?
    ensures !r.processing && r.step == s.step && r.breakdown == s.breakdown
  {
    if loaded.Some? then s.(spreadsheet := loaded, spreadsheetError := None, processing := false)
    else s.(spreadsheetError := Some(UploadLoadError), processing := false)
  }

  /** `setPayment({ ...payment, ...updates })`, from the confirmation panel and the payment form. */
  function PaymentEdited(s: PageState, updated: StripePaymentData): (r: PageState)
    ensures Consistent(s) ==> Consistent(r)
    ensures r.payment == Some(updated) && r.step == s.step && r.breakdown == s.breakdown
  {
    s.(payment := Some(updated))
  }

  /** `setPatient({ ...patient, ...updates })`, from the patient form. */
  function PatientEdited(s: PageState, updated: PatientDetails): (r: PageState)
    ensures Consistent(s) ==> Consistent(r)
    ensures r.patient == updated && r.step == s.step && r.breakdown == s.breakdown
  {
    s.(patient := updated)
  }

  /** `handleConfirmPayment`: on to the patient step, when there is a payment. */
  function Confirmed(s: PageState): (r: PageState)
    ensures Consistent(s) ==> Consistent(r)
    ensures r.step == Patient <==> s.payment.Some? || s.step == Patient
    ensures r.payment == s.payment && r.patient == s.patient && r.breakdown == s.breakdown
    ensures s.payment.None? ==> r == s
  {
    if s.payment.None? then s else s.(step := Patient)
  }

  /** Whether `handlePatientSubmit` gets past its checks. */
  predicate ReadyToCalculate(s: PageState) {
    s.payment.Some? && s.spreadsheet.Some? && PatientComplete(s.patient)
  }

  /**
   * `handlePatientSubmit`: without a payment and a spreadsheet, or with a required patient
   * field blank or no medication, nothing changes; otherwise the breakdown of the records
   * entered is calculated and validated, and the wizard moves to the preview.
   */
  function Submitted(s: PageState): (r: PageState)
    ensures Consistent(s) ==> Consistent(r)
    ensures !ReadyToCalculate(s) ==> r == s
    ensures ReadyToCalculate(s) ==>
      && r.step == Preview
      && r.breakdown == Some(BreakdownOf(s.payment.value, s.patient, s.spreadsheet.value))
      && r.validationResult == Some(Validate(r.breakdown.value))
    ensures r.spreadsheet == s.spreadsheet && r.payment == s.payment && r.patient == s.patient
  {
    if !ReadyToCalculate(s) then s
    else
      var b := BreakdownOf(s.payment.value, s.patient, s.spreadsheet.value);
      s.(breakdown := Some(b), validationResult := Some(Validate(b)), step := Preview)
  }

  /**
   * The receipt `handleGenerate` builds and hands to the store: the page's records, the time
   * it is generated, and the two providers. There is none without a payment and a breakdown.
   */
  function ReceiptOf(s: PageState, generatedAt: string): (r: Option<ReceiptData>)
    ensures r.Some? <==> s.payment.Some? && s.breakdown.Some?
    ensures r.Some? ==>
      && r.value.patient == s.patient && r.value.payment == s.payment.value
      && r.value.breakdown == s.breakdown.value && r.value.generatedAt == generatedAt
      && r.value.billingProvider == Some(Provider("Fountain Vitality", None))
      && r.value.renderingProvider == Some(Provider(ProviderDescription, Some("1234567890")))
  {
    if s.payment.None? || s.breakdown.None? then None
    else Some(ReceiptData(s.patient, s.payment.value, s.breakdown.value, generatedAt,
                          Some(BillingProvider), Some(RenderingProvider)))
  }

  /**
   * `handleGenerate`: with a payment and a breakdown the wizard moves to the last step, whether
   * the store took the receipt or failed (its error is caught and only logged).
   */
  function Generated(s: PageState): (r: PageState)
    ensures Consistent(s) ==> Consistent(r)
    ensures r.step == Generate <==> (s.payment.Some? && s.breakdown.Some?) || s.step == Generate
    ensures r.payment == s.payment && r.patient == s.patient && r.breakdown == s.breakdown
    ensures s.payment.None? || s.breakdown.None? ==> r == s
  {
    if s.payment.None? || s.breakdown.None? then s else s.(step := Generate)
  }

  /** "Start New Receipt": back to the upload with the records cleared; the spreadsheet stays. */
  function Restarted(s: PageState): (r: PageState)
    ensures Consistent(r)
    ensures r.step == Upload && r.payment.None? && r.breakdown.None? && r.validationResult.None?
    ensures r.patient == BlankPatient && r.spreadsheet == s.spreadsheet
  {
    s.(step := Upload, payment := None, patient := BlankPatient, breakdown := None, validationResult := None)
  }

  class ReceiptGenerator {
    var step: Step
    var spreadsheet: Option<SpreadsheetData>
    var spreadsheetError: Option<string>
    var payment: Option<StripePaymentData>
    var patient: PatientDetails
    var breakdown: Option<Breakdown>
    var validationResult: Option<ValidationResult>
    var processing: bool

    /** The page's state as a value. */
    function State(): PageState
      reads this
    {
      PageState(step, spreadsheet, spreadsheetError, payment, patient, breakdown, validationResult, processing)
    }

    ghost predicate Valid()
      reads this
    {
      Consistent(State())
    }

    /** The page as first rendered, before the default spreadsheet has arrived. */
    constructor()
      ensures Valid() && State() == Initial
    {
      step := Upload;
      spreadsheet := None;
      spreadsheetError := None;
      payment := None;
      patient := BlankPatient;
      breakdown := None;
      validationResult := None;
      processing := false;
    }

    /** The mount effect's outcome: the default spreadsheet, or the failure message. */
    method LoadDefaultSpreadsheet(loaded: Option<SpreadsheetData>)
      requires Valid()
      modifies this
      ensures Valid() && State() == Mounted(old(State()), loaded)
    {
      if loaded.Some? {
        spreadsheet := loaded;
      } else {
        spreadsheetError := Some(DefaultLoadError);
      }
    }

    method HandleUpload(fileCount: nat, parsed: Option<StripePaymentData>)
      requires Valid()
      modifies this
      ensures Valid() && State() == Uploaded(old(State()), fileCount, parsed)
    {
      if fileCount == 0 {
        return;
      }
      processing := true;
      if parsed.Some? {
        payment := parsed;
        step := Confirm;
      }
      processing := false;
    }

    method HandleSpreadsheetUpload(loaded: Option<SpreadsheetData>)
      requires Valid()
      modifies this
      ensures Valid() && State() == SpreadsheetUploaded(old(State()), loaded)
    {
      processing := true;
      if loaded.Some? {
        spreadsheet := loaded;
        spreadsheetError := None;
      } else {
        spreadsheetError := Some(UploadLoadError);
      }
      processing := false;
    }

    method UpdatePayment(updated: StripePaymentData)
      requires Valid()
      modifies this
      ensures Valid() && State() == PaymentEdited(old(State()), updated)
    {
      payment := Some(updated);
    }

    method UpdatePatient(updated: PatientDetails)
      requires Valid()
      modifies this
      ensures Valid() && State() == PatientEdited(old(State()), updated)
    {
      patient := updated;
    }

    method HandleConfirmPayment()
      requires Valid()
      modifies this
      ensures Valid() && State() == Confirmed(old(State()))
    {
      if payment.None? {
        return;
      }
      step := Patient;
    }

    method HandlePatientSubmit()
      requires Valid()
      modifies this
      ensures Valid() && State() == Submitted(old(State()))
    {
      if payment.None? || spreadsheet.None? {
        return;
      }
      if patient.name == "" || patient.dateOfBirth == "" || patient.coverageStartDate == "" ||
         patient.coverageEndDate == "" || patient.state == "" || |patient.medication| == 0 {
        return;
      }
      var calculated := CalculateBreakdown(payment.value, patient, spreadsheet.value);
      breakdown := Some(calculated);
      var validation := ValidateBreakdown(calculated);
      validationResult := Some(validation);
      step := Preview;
    }

    /** Returns the receipt handed to the store, if one was built. */
    method HandleGenerate(generatedAt: string) returns (receipt: Option<ReceiptData>)
      requires Valid()
      modifies this
      ensures Valid() && State() == Generated(old(State()))
      ensures receipt == ReceiptOf(old(State()), generatedAt)
    {
      if payment.None? || breakdown.None? {
        return None;
      }
      receipt := Some(ReceiptData(patient, payment.value, breakdown.value, generatedAt,
                                  Some(BillingProvider), Some(RenderingProvider)));
      step := Generate;
    }

    method StartNewReceipt()
      requires Valid()
      modifies this
      ensures Valid() && State() == Restarted(old(State()))
    {
      step := Upload;
      payment := None;
      patient := BlankPatient;
      breakdown := None;
      validationResult := None;
    }
  }

  // ----- The wizard as a whole -----

  /** The page starts consistent. */
  lemma InitialConsistent()
    ensures Consistent(Initial) && Initial.step == Upload
  {
  }

  /**
   * After "Start New Receipt" the patient has to be entered again: submitting straight away
   * changes nothing, and so does generating.
   */
  lemma RestartNeedsPatient(s: PageState)
    ensures Submitted(Restarted(s)) == Restarted(s)
    ensures Generated(Restarted(s)) == Restarted(s)
  {
    assert !PatientComplete(BlankPatient);
  }

  /**
   * From the preview of a consistent page, generating always reaches the last step and hands
   * over a receipt of exactly the breakdown previewed, whose validation is the one shown.
   */
  lemma PreviewGenerates(s: PageState, generatedAt: string)
    requires Consistent(s) && s.step == Preview
    ensures Generated(s).step == Generate
    ensures ReceiptOf(s, generatedAt).Some?
    ensures ReceiptOf(s, generatedAt).value.breakdown == s.breakdown.value
    ensures s.validationResult == Some(Validate(ReceiptOf(s, generatedAt).value.breakdown))
  {
  }

  /**
   * A whole run: the default spreadsheet loaded, a screenshot read, the payment confirmed, a
   * complete patient entered and submitted lead to the preview of that patient's breakdown, and
   * generating then hands over its receipt and reaches the last step.
   */
  lemma HappyPath(spreadsheet: SpreadsheetData, payment: StripePaymentData, patient: PatientDetails,
                  generatedAt: string)
    requires PatientComplete(patient)
    ensures var s := Submitted(PatientEdited(Confirmed(Uploaded(Mounted(Initial, Some(spreadsheet)), 1, Some(payment))), patient));
      && s.step == Preview
      && ReceiptOf(s, generatedAt) == Some(ReceiptData(patient, payment, BreakdownOf(payment, patient, spreadsheet),
                                                       generatedAt, Some(BillingProvider), Some(RenderingProvider)))
      && Generated(s).step == Generate
  {
    var s1 := Mounted(Initial, Some(spreadsheet));
    var s2 := Uploaded(s1, 1, Some(payment));
    var s3 := Confirmed(s2);
    var s4 := PatientEdited(s3, patient);
    assert ReadyToCalculate(s4);
  }
}
