/**
 * The records the breakdown calculator and validator exchange. Money is an exact `real`
 * (the source uses JavaScript numbers); strings are `seq<char>`.
 */
module Types {
  import opened Wrappers

  datatype ProgramType = TRT | HRT | Other

  /** The patient as entered in the form; `medication` keeps the order of entry. */
  datatype PatientDetails = PatientDetails(
    name: string,
    dateOfBirth: string,
    coverageStartDate: string,
    coverageEndDate: string,
    state: string,
    medication: seq<string>,
    programType: ProgramType)

  /** One payment as read from a payment screenshot; `planDuration` is in weeks. */
  datatype StripePaymentData = StripePaymentData(
    chargedAmount: real,
    chargeDate: string,
    planDuration: int,
    planName: Option<string>,
    confidence: real)

  datatype BreakdownLineItem = BreakdownLineItem(
    description: string,
    quantity: Option<nat>,
    unitPrice: real,
    total: real)

  datatype BreakdownSection = BreakdownSection(
    name: string,
    lineItems: seq<BreakdownLineItem>,
    subtotal: real)

  datatype ExceptionType = StateException | PlanMismatch | Reallocation | Validation

  /** The structured payload of an exception (`details`); the message text is not modelled. */
  datatype ExceptionDetails =
    | PlanDetails(planDuration: int)
    | StateDetails(state: string)
    | ReallocationDetails(calculatedTotal: real, stripeAmount: real, adjustment: real)

  datatype Exception = Exception(kind: ExceptionType, details: Option<ExceptionDetails>)

  /** The four standard sections always exist; discounts and the extra sections are optional. */
  datatype Breakdown = Breakdown(
    pharmacy: BreakdownSection,
    lab: BreakdownSection,
    provider: BreakdownSection,
    operational: BreakdownSection,
    discounts: Option<BreakdownSection>,
    additionalSections: Option<seq<BreakdownSection>>,
    total: real,
    exceptions: seq<Exception>)

  /**
   * One plan's costs: (category, amount) entries in spreadsheet column order. The type does not
   * require distinct categories; the loader's rows have them (`SpreadsheetLoader.LoadedCosts`).
   */
  type CostRow = seq<(string, real)>

  /** The cost table: plan key (such as "4w") to that plan's costs. */
  type SpreadsheetData = map<string, CostRow>

  /** `Math.abs` on an amount. */
  function Abs(x: real): real {
    if x < 0.0 then -x else x
  }

  /** Amounts closer than this (in dollars) count as equal, in the calculator and the checker alike. */
  const Tolerance: real := 0.01
}
