/**
 * What `calculateBreakdown` computes, stated against reference definitions that say which
 * column of the resolved cost row each part of the breakdown comes from.
 */
module EngineProperties {
  import opened Wrappers
  import opened Text
  import opened Dict
  import opened Types
  import opened BreakdownEngine

  /** The last entry of `categories` whose lower-cased name is `name`: the one whose write survives. */
  function LastNamed(categories: CostRow, name: string): (e: Option<(string, real)>)
    ensures e.Some? ==> e.value in categories && ToLower(e.value.0) == name
    ensures e.None? ==> forall k | 0 <= k < |categories| :: ToLower(categories[k].0) != name
    decreases |categories|
  {
    if categories == [] then None
    else if ToLower(categories[|categories| - 1].0) == name then Some(categories[|categories| - 1])
    else LastNamed(categories[..|categories| - 1], name)
  }

  /** The section the loop writes for an entry `e` whose lower-cased name is the standard category `name`. */
  function StandardSection(patient: PatientDetails, name: string, e: (string, real)): BreakdownSection {
    if name == "pharmacy" then PharmacySection(patient, e.0, e.1)
    else if name == "lab" then FlatSection(GetCategoryDisplayName(e.0), "Laboratory Services", CategoryCost(patient, "lab", e.1))
    else if name == "provider" then FlatSection(GetCategoryDisplayName(e.0), ProviderDescription, e.1)
    else FlatSection(GetCategoryDisplayName(e.0), GetCategoryDisplayName(e.0), e.1)
  }

  /** A standard section slot after the loop: what its last entry wrote, else what it held before. */
  function SlotAfter(initial: Option<BreakdownSection>, patient: PatientDetails, categories: CostRow, name: string)
    : Option<BreakdownSection>
  {
    match LastNamed(categories, name)
    case None => initial
    case Some(e) => Some(StandardSection(patient, name, e))
  }

  /** The extra sections the loop appends: one per non-standard entry with a positive amount, in order. */
  function ExtraSections(categories: CostRow): (r: seq<BreakdownSection>)
    ensures |r| <= |categories|
    decreases |categories|
  {
    if categories == [] then []
    else
      var e := categories[|categories| - 1];
      var name := GetCategoryDisplayName(e.0);
      ExtraSections(categories[..|categories| - 1]) +
        (if !IsStandard(ToLower(e.0)) && e.1 > 0.0 then [FlatSection(name, name, e.1)] else [])
  }

  /** The state exceptions the loop records: one per lab entry when the state is New York. */
  function StateExceptions(patient: PatientDetails, categories: CostRow): (r: seq<Exception>)
    ensures |r| <= |categories|
    ensures forall k | 0 <= k < |r| :: r[k] == StateExceptionFor(patient.state)
    decreases |categories|
  {
    if categories == [] then []
    else
      StateExceptions(patient, categories[..|categories| - 1]) +
        (if ToLower(categories[|categories| - 1].0) == "lab" && IsNewYork(patient.state)
         then [StateExceptionFor(patient.state)] else [])
  }

  /** How many entries lower-case to `name`. */
  function CountNamed(categories: CostRow, name: string): nat
    decreases |categories|
  {
    if categories == [] then 0
    else CountNamed(categories[..|categories| - 1], name) + (if ToLower(categories[|categories| - 1].0) == name then 1 else 0)
  }

  /** One iteration writes each standard slot exactly when the entry's lower-cased name is that category. */
  lemma SlotStep(s: CalcState, patient: PatientDetails, category: string, amount: real)
    ensures var r := ProcessCategory(s, patient, category, amount);
      var lower := ToLower(category);
      && r.pharmacy == (if lower == "pharmacy" then Some(StandardSection(patient, "pharmacy", (category, amount))) else s.pharmacy)
      && r.lab == (if lower == "lab" then Some(StandardSection(patient, "lab", (category, amount))) else s.lab)
      && r.provider == (if lower == "provider" then Some(StandardSection(patient, "provider", (category, amount))) else s.provider)
      && r.operational == (if lower == "operational" then Some(StandardSection(patient, "operational", (category, amount))) else s.operational)
  {
  }

  /** After the loop each standard section slot holds what its last entry wrote, else what it held before. */
  lemma {:induction false} PharmacyAfterLoop(s0: CalcState, patient: PatientDetails, categories: CostRow)
    requires SectionsWellFormed(s0)
    ensures ProcessCategories(s0, patient, categories).pharmacy == SlotAfter(s0.pharmacy, patient, categories, "pharmacy")
    decreases |categories|
  {
    if categories != [] {
      var init := categories[..|categories| - 1];
      var last := categories[|categories| - 1];
      PharmacyAfterLoop(s0, patient, init);
      SlotStep(ProcessCategories(s0, patient, init), patient, last.0, last.1);
    }
  }

  lemma {:induction false} LabAfterLoop(s0: CalcState, patient: PatientDetails, categories: CostRow)
    requires SectionsWellFormed(s0)
    ensures ProcessCategories(s0, patient, categories).lab == SlotAfter(s0.lab, patient, categories, "lab")
    decreases |categories|
  {
    if categories != [] {
      var init := categories[..|categories| - 1];
      var last := categories[|categories| - 1];
      LabAfterLoop(s0, patient, init);
      SlotStep(ProcessCategories(s0, patient, init), patient, last.0, last.1);
    }
  }

  lemma {:induction false} ProviderAfterLoop(s0: CalcState, patient: PatientDetails, categories: CostRow)
    requires SectionsWellFormed(s0)
    ensures ProcessCategories(s0, patient, categories).provider == SlotAfter(s0.provider, patient, categories, "provider")
    decreases |categories|
  {
    if categories != [] {
      var init := categories[..|categories| - 1];
      var last := categories[|categories| - 1];
      ProviderAfterLoop(s0, patient, init);
      SlotStep(ProcessCategories(s0, patient, init), patient, last.0, last.1);
    }
  }

  lemma {:induction false} OperationalAfterLoop(s0: CalcState, patient: PatientDetails, categories: CostRow)
    requires SectionsWellFormed(s0)
    ensures ProcessCategories(s0, patient, categories).operational == SlotAfter(s0.operational, patient, categories, "operational")
    decreases |categories|
  {
    if categories != [] {
      var init := categories[..|categories| - 1];
      var last := categories[|categories| - 1];
      OperationalAfterLoop(s0, patient, init);
      SlotStep(ProcessCategories(s0, patient, init), patient, last.0, last.1);
    }
  }

  /** One iteration appends an extra section exactly for a non-standard entry with a positive amount. */
  lemma ExtraStep(s: CalcState, patient: PatientDetails, category: string, amount: real)
    ensures var name := GetCategoryDisplayName(category);
      ProcessCategory(s, patient, category, amount).additionalSections
      == s.additionalSections + (if !IsStandard(ToLower(category)) && amount > 0.0 then [FlatSection(name, name, amount)] else [])
  {
  }

  /** After the loop the extra sections are the reference ones, appended in column order. */
  lemma {:induction false} ExtrasAfterLoop(s0: CalcState, patient: PatientDetails, categories: CostRow)
    requires SectionsWellFormed(s0)
    ensures ProcessCategories(s0, patient, categories).additionalSections
         == s0.additionalSections + ExtraSections(categories)
    decreases |categories|
  {
    if categories != [] {
      var init := categories[..|categories| - 1];
      var last := categories[|categories| - 1];
      ExtrasAfterLoop(s0, patient, init);
      ExtraStep(ProcessCategories(s0, patient, init), patient, last.0, last.1);
    }
  }

  /** One iteration records a state exception exactly for a lab entry of a New York patient. */
  lemma ExceptionStep(s: CalcState, patient: PatientDetails, category: string, amount: real)
    ensures ProcessCategory(s, patient, category, amount).exceptions
         == s.exceptions + (if ToLower(category) == "lab" && IsNewYork(patient.state) then [StateExceptionFor(patient.state)] else [])
  {
  }

  /** After the loop the exceptions are the initial ones followed by one state exception per New York lab entry. */
  lemma {:induction false} ExceptionsAfterLoop(s0: CalcState, patient: PatientDetails, categories: CostRow)
    requires SectionsWellFormed(s0)
    ensures ProcessCategories(s0, patient, categories).exceptions
         == s0.exceptions + StateExceptions(patient, categories)
    decreases |categories|
  {
    if categories != [] {
      var init := categories[..|categories| - 1];
      var last := categories[|categories| - 1];
      ExceptionsAfterLoop(s0, patient, init);
      assert ProcessCategories(s0, patient, categories)
          == ProcessCategory(ProcessCategories(s0, patient, init), patient, last.0, last.1);
      ExceptionStep(ProcessCategories(s0, patient, init), patient, last.0, last.1);
    }
  }

  /** One iteration records the entry's cost under its lower-cased name. */
  lemma CostStep(s: CalcState, patient: PatientDetails, category: string, amount: real)
    ensures ProcessCategory(s, patient, category, amount).categoryCosts
         == Put(s.categoryCosts, ToLower(category), CategoryCost(patient, ToLower(category), amount))
  {
  }

  /**
   * After the loop each lower-cased name is recorded with the cost of its last entry
   * (pharmacy scaled, New York lab zeroed), and names no entry has keep what they had.
   */
  lemma {:induction false} CostsAfterLoop(s0: CalcState, patient: PatientDetails, categories: CostRow, name: string)
    requires SectionsWellFormed(s0)
    ensures Get(ProcessCategories(s0, patient, categories).categoryCosts, name)
         == match LastNamed(categories, name)
            case None => Get(s0.categoryCosts, name)
            case Some(e) => Some(CategoryCost(patient, name, e.1))
    decreases |categories|
  {
    if categories != [] {
      var init := categories[..|categories| - 1];
      var last := categories[|categories| - 1];
      CostsAfterLoop(s0, patient, init, name);
      var before := ProcessCategories(s0, patient, init);
      CostStep(before, patient, last.0, last.1);
      PutGet(before.categoryCosts, ToLower(last.0), CategoryCost(patient, ToLower(last.0), last.1), name);
    }
  }

  /** The recorded costs never hold a name twice. */
  lemma {:induction false} CostKeysAfterLoop(s0: CalcState, patient: PatientDetails, categories: CostRow)
    requires SectionsWellFormed(s0)
    requires DistinctKeys(s0.categoryCosts)
    ensures DistinctKeys(ProcessCategories(s0, patient, categories).categoryCosts)
    decreases |categories|
  {
    if categories != [] {
      var init := categories[..|categories| - 1];
      var last := categories[|categories| - 1];
      CostKeysAfterLoop(s0, patient, init);
      var before := ProcessCategories(s0, patient, init);
      CostStep(before, patient, last.0, last.1);
      PutKeys(before.categoryCosts, ToLower(last.0), CategoryCost(patient, ToLower(last.0), last.1));
    }
  }

  /** The subtotal of an optional section, 0 when it is absent. */
  function SubtotalOr0(section: Option<BreakdownSection>): real {
    if section.Some? then section.value.subtotal else 0.0
  }

  /** The state the loop ends in, described by the reference definitions. */
  lemma OperationalOutcome(patient: PatientDetails, spreadsheet: SpreadsheetData, planDuration: int)
    ensures var s := Processed(patient, spreadsheet, planDuration);
      && s.operational == SlotAfter(None, patient, Categories(ResolveCosts(spreadsheet, planDuration)), "operational")
      && (s.operational.Some? ==> GetOr0(s.categoryCosts, "operational") == s.operational.value.subtotal)
  {
    var s0 := InitialState(spreadsheet, planDuration);
    var categories := Categories(ResolveCosts(spreadsheet, planDuration));
    OperationalAfterLoop(s0, patient, categories);
    CostsAfterLoop(s0, patient, categories, "operational");
  }

  lemma ProcessedOutcome(patient: PatientDetails, spreadsheet: SpreadsheetData, planDuration: int)
    ensures var s := Processed(patient, spreadsheet, planDuration);
      var categories := Categories(ResolveCosts(spreadsheet, planDuration));
      && s.pharmacy == SlotAfter(None, patient, categories, "pharmacy")
      && s.lab == SlotAfter(None, patient, categories, "lab")
      && s.provider == SlotAfter(None, patient, categories, "provider")
      && s.operational == SlotAfter(None, patient, categories, "operational")
      && s.additionalSections == ExtraSections(categories)
      && s.exceptions == InitialState(spreadsheet, planDuration).exceptions + StateExceptions(patient, categories)
      && DistinctKeys(s.categoryCosts)
      && (s.operational.Some? ==> GetOr0(s.categoryCosts, "operational") == s.operational.value.subtotal)
  {
    var s0 := InitialState(spreadsheet, planDuration);
    var categories := Categories(ResolveCosts(spreadsheet, planDuration));
    PharmacyAfterLoop(s0, patient, categories);
    LabAfterLoop(s0, patient, categories);
    ProviderAfterLoop(s0, patient, categories);
    OperationalAfterLoop(s0, patient, categories);
    ExtrasAfterLoop(s0, patient, categories);
    ExceptionsAfterLoop(s0, patient, categories);
    CostKeysAfterLoop(s0, patient, categories);
    OperationalOutcome(patient, spreadsheet, planDuration);
  }

  /** The total before reconciliation: `totalBeforeDiscount - discountAmount`. */
  function ComputedTotal(s: CalcState, baseCosts: CostRow): real {
    TotalBeforeDiscount(s) - DiscountAmount(baseCosts)
  }

  function ReallocationFor(computed: real, charged: real): Exception {
    Exception(Reallocation, Some(ReallocationDetails(computed, charged, charged - computed)))
  }

  /**
   * What happens after the loop. When the computed total is more than 0.01 from the charge,
   * the total becomes the charge, the operational subtotal grows by exactly the difference
   * (from 0 when there was no operational section) and one reallocation exception is added
   * last; otherwise the total is the computed one and the operational section and the
   * exceptions are left alone. The other sections pass through, absent ones as empty defaults.
   */
  lemma FinishOutcome(s: CalcState, baseCosts: CostRow, charged: real)
    requires SectionsWellFormed(s)
    requires s.operational.Some? ==> GetOr0(s.categoryCosts, "operational") == s.operational.value.subtotal
    ensures var b := Finish(s, baseCosts, charged);
      var computed := ComputedTotal(s, baseCosts);
      && Abs(b.total - charged) <= Tolerance
      && b.pharmacy == s.pharmacy.GetOr(EmptySection("Pharmacy Costs"))
      && b.lab == s.lab.GetOr(EmptySection("Lab Costs"))
      && b.provider == s.provider.GetOr(EmptySection("Clinical Provider Services"))
      && b.discounts == DiscountSection(DiscountAmount(baseCosts))
      && b.additionalSections == (if s.additionalSections == [] then None else Some(s.additionalSections))
      && (Abs(computed - charged) > Tolerance ==>
            && b.total == charged
            && SingleLine(b.operational)
            && b.operational.subtotal == SubtotalOr0(s.operational) + (charged - computed)
            && b.exceptions == s.exceptions + [ReallocationFor(computed, charged)])
      && (Abs(computed - charged) <= Tolerance ==>
            && b.total == computed
            && b.operational == s.operational.GetOr(EmptySection("Operational Costs"))
            && b.exceptions == s.exceptions)
  {
  }

  /** How many of `exceptions` are of the given kind. */
  function CountKind(exceptions: seq<Exception>, kind: ExceptionType): nat {
    if exceptions == [] then 0
    else (if exceptions[0].kind == kind then 1 else 0) + CountKind(exceptions[1..], kind)
  }

  lemma {:induction false} CountKindAppend(xs: seq<Exception>, ys: seq<Exception>, kind: ExceptionType)
    ensures CountKind(xs + ys, kind) == CountKind(xs, kind) + CountKind(ys, kind)
  {
    if xs != [] {
      CountKindAppend(xs[1..], ys, kind);
      assert (xs + ys)[1..] == xs[1..] + ys;
    } else {
      assert xs + ys == ys;
    }
  }

  /** There is one state exception per lab entry when the state is New York, and none otherwise. */
  lemma {:induction false} StateExceptionCount(patient: PatientDetails, categories: CostRow, kind: ExceptionType)
    ensures CountKind(StateExceptions(patient, categories), kind)
         == if kind == StateException && IsNewYork(patient.state) then CountNamed(categories, "lab") else 0
    decreases |categories|
  {
    if categories != [] {
      var init := categories[..|categories| - 1];
      StateExceptionCount(patient, init, kind);
      var last := if ToLower(categories[|categories| - 1].0) == "lab" && IsNewYork(patient.state)
                  then [StateExceptionFor(patient.state)] else [];
      CountKindAppend(StateExceptions(patient, init), last, kind);
    }
  }

  /** The pharmacy, lab and provider sections pass from the loop to the breakdown unchanged, absent ones as empty defaults. */
  lemma StandardSlots(payment: StripePaymentData, patient: PatientDetails, spreadsheet: SpreadsheetData)
    ensures var b := BreakdownOf(payment, patient, spreadsheet);
      var categories := LoopCategories(payment, spreadsheet);
      && b.pharmacy == SlotAfter(None, patient, categories, "pharmacy").GetOr(EmptySection("Pharmacy Costs"))
      && b.lab == SlotAfter(None, patient, categories, "lab").GetOr(EmptySection("Lab Costs"))
      && b.provider == SlotAfter(None, patient, categories, "provider").GetOr(EmptySection("Clinical Provider Services"))
  {
    ProcessedOutcome(patient, spreadsheet, payment.planDuration);
    FinishOutcome(Processed(patient, spreadsheet, payment.planDuration),
                  ResolveCosts(spreadsheet, payment.planDuration), payment.chargedAmount);
  }

  /** The breakdown's total always lands within 0.01 of the charged amount. */
  lemma TotalWithinTolerance(payment: StripePaymentData, patient: PatientDetails, spreadsheet: SpreadsheetData)
    ensures Abs(BreakdownOf(payment, patient, spreadsheet).total - payment.chargedAmount) <= Tolerance
  {
    ProcessedOutcome(patient, spreadsheet, payment.planDuration);
    FinishOutcome(Processed(patient, spreadsheet, payment.planDuration),
                  ResolveCosts(spreadsheet, payment.planDuration), payment.chargedAmount);
  }

  /** The categories `calculateBreakdown` loops over: the resolved row without its discount entries. */
  function LoopCategories(payment: StripePaymentData, spreadsheet: SpreadsheetData): CostRow {
    Categories(ResolveCosts(spreadsheet, payment.planDuration))
  }

  /**
   * The pharmacy section is one medication line whose quantity is the medication count
   * (1 for an empty list), whose unit price is the table value and whose total, like the
   * subtotal, is unit price times quantity.
   */
  lemma PharmacySectionShape(patient: PatientDetails, category: string, amount: real)
    ensures var section := PharmacySection(patient, category, amount);
      && section.name == GetCategoryDisplayName(category)
      && |section.lineItems| == 1
      && section.lineItems[0].description == MedicationDescription(patient)
      && section.lineItems[0].quantity == Some(MedicationCount(patient))
      && section.lineItems[0].unitPrice == amount
      && section.lineItems[0].total == amount * (MedicationCount(patient) as real)
      && section.subtotal == section.lineItems[0].total
  {
  }

  /**
   * The pharmacy section is the one the row's last pharmacy column (in any casing) gives,
   * or the empty default when the row has none.
   */
  lemma PharmacyFromRow(payment: StripePaymentData, patient: PatientDetails, spreadsheet: SpreadsheetData)
    ensures var b := BreakdownOf(payment, patient, spreadsheet);
      var last := LastNamed(LoopCategories(payment, spreadsheet), "pharmacy");
      && (last.None? ==> b.pharmacy == EmptySection("Pharmacy Costs"))
      && (last.Some? ==> b.pharmacy == PharmacySection(patient, last.value.0, last.value.1))
  {
    StandardSlots(payment, patient, spreadsheet);
  }

  /**
   * The lab section comes from the row's last lab column: a single "Laboratory Services"
   * line worth the table value, or 0 when the state is exactly "NY" or "New York"; in that
   * case each lab column also records one state exception, and otherwise none is recorded.
   */
  lemma LabFromRow(payment: StripePaymentData, patient: PatientDetails, spreadsheet: SpreadsheetData)
    ensures var b := BreakdownOf(payment, patient, spreadsheet);
      var last := LastNamed(LoopCategories(payment, spreadsheet), "lab");
      && (last.None? ==> b.lab == EmptySection("Lab Costs"))
      && (last.Some? ==>
            && b.lab.name == GetCategoryDisplayName(last.value.0)
            && b.lab.lineItems == [BreakdownLineItem("Laboratory Services", None, b.lab.subtotal, b.lab.subtotal)]
            && b.lab.subtotal == if IsNewYork(patient.state) then 0.0 else last.value.1)
  {
    StandardSlots(payment, patient, spreadsheet);
  }

  /** One state exception is recorded per lab column when the state is exactly "NY" or "New York", and none otherwise. */
  lemma StateExceptionsFromRow(payment: StripePaymentData, patient: PatientDetails, spreadsheet: SpreadsheetData)
    ensures CountKind(BreakdownOf(payment, patient, spreadsheet).exceptions, StateException)
         == if IsNewYork(patient.state) then CountNamed(LoopCategories(payment, spreadsheet), "lab") else 0
  {
    var computed := ComputedTotal(Processed(patient, spreadsheet, payment.planDuration),
                                  ResolveCosts(spreadsheet, payment.planDuration));
    var initial := if PlanKey(payment.planDuration) !in spreadsheet then [PlanMismatchException(payment.planDuration)] else [];
    var states := StateExceptions(patient, LoopCategories(payment, spreadsheet));
    var reallocation := if Reallocated(payment, patient, spreadsheet) then [ReallocationFor(computed, payment.chargedAmount)] else [];
    ExceptionOrder(payment, patient, spreadsheet);
    CountKindAppend(initial + states, reallocation, StateException);
    CountKindAppend(initial, states, StateException);
    StateExceptionCount(patient, LoopCategories(payment, spreadsheet), StateException);
    assert CountKind(reallocation, StateException) == 0;
    assert CountKind(initial, StateException) == 0;
  }

  /** The provider section is one "Duval Medical P.A." line worth the last provider column's value, or the empty default. */
  lemma ProviderFromRow(payment: StripePaymentData, patient: PatientDetails, spreadsheet: SpreadsheetData)
    ensures var b := BreakdownOf(payment, patient, spreadsheet);
      var last := LastNamed(LoopCategories(payment, spreadsheet), "provider");
      && (last.None? ==> b.provider == EmptySection("Clinical Provider Services"))
      && (last.Some? ==>
            && b.provider.name == GetCategoryDisplayName(last.value.0)
            && b.provider.lineItems == [BreakdownLineItem(ProviderDescription, None, last.value.1, last.value.1)]
            && b.provider.subtotal == last.value.1)
  {
    StandardSlots(payment, patient, spreadsheet);
  }

  /** Whether the computed total is more than 0.01 away from the charge, so that reconciliation runs. */
  predicate Reallocated(payment: StripePaymentData, patient: PatientDetails, spreadsheet: SpreadsheetData) {
    var computed := ComputedTotal(Processed(patient, spreadsheet, payment.planDuration),
                                  ResolveCosts(spreadsheet, payment.planDuration));
    Abs(computed - payment.chargedAmount) > Tolerance
  }

  /** The operational value before reconciliation: the last operational column's value, or 0. */
  function OperationalBefore(payment: StripePaymentData, spreadsheet: SpreadsheetData): real {
    var last := LastNamed(LoopCategories(payment, spreadsheet), "operational");
    if last.Some? then last.value.1 else 0.0
  }

  /**
   * The operational section. Without reconciliation it is one line worth the last operational
   * column's value (or the empty default). With reconciliation it is one line whose subtotal is
   * that value, or 0 when the row has no operational column, plus the whole difference between
   * the charge and the computed total; a section created this way is "Operational Services".
   */
  lemma OperationalFromRow(payment: StripePaymentData, patient: PatientDetails, spreadsheet: SpreadsheetData)
    ensures var b := BreakdownOf(payment, patient, spreadsheet);
      var last := LastNamed(LoopCategories(payment, spreadsheet), "operational");
      var computed := ComputedTotal(Processed(patient, spreadsheet, payment.planDuration),
                                    ResolveCosts(spreadsheet, payment.planDuration));
      && (!Reallocated(payment, patient, spreadsheet) && last.None? ==> b.operational == EmptySection("Operational Costs"))
      && (!Reallocated(payment, patient, spreadsheet) && last.Some? ==>
            var name := GetCategoryDisplayName(last.value.0);
            b.operational == FlatSection(name, name, last.value.1))
      && (Reallocated(payment, patient, spreadsheet) ==>
            && SingleLine(b.operational)
            && b.operational.lineItems[0].unitPrice == b.operational.subtotal
            && b.operational.subtotal
               == OperationalBefore(payment, spreadsheet) + (payment.chargedAmount - computed))
      && (Reallocated(payment, patient, spreadsheet) && last.None? ==>
            b.operational.name == "Operational Costs" && b.operational.lineItems[0].description == "Operational Services")
      && (Reallocated(payment, patient, spreadsheet) && last.Some? ==>
            b.operational.name == GetCategoryDisplayName(last.value.0)
            && b.operational.lineItems[0].description == GetCategoryDisplayName(last.value.0))
  {
    OperationalOutcome(patient, spreadsheet, payment.planDuration);
    FinishOutcome(Processed(patient, spreadsheet, payment.planDuration),
                  ResolveCosts(spreadsheet, payment.planDuration), payment.chargedAmount);
  }

  /**
   * Reconciliation: the total becomes exactly the charge and a reallocation exception is the
   * last one when the computed total is more than 0.01 away; otherwise the total is the
   * computed one and there is no reallocation exception.
   */
  lemma ReconciliationFromRow(payment: StripePaymentData, patient: PatientDetails, spreadsheet: SpreadsheetData)
    ensures var b := BreakdownOf(payment, patient, spreadsheet);
      var computed := ComputedTotal(Processed(patient, spreadsheet, payment.planDuration),
                                    ResolveCosts(spreadsheet, payment.planDuration));
      && (Reallocated(payment, patient, spreadsheet) ==>
            && b.total == payment.chargedAmount
            && |b.exceptions| > 0
            && b.exceptions[|b.exceptions| - 1] == ReallocationFor(computed, payment.chargedAmount)
            && CountKind(b.exceptions, Reallocation) == 1)
      && (!Reallocated(payment, patient, spreadsheet) ==>
            b.total == computed && CountKind(b.exceptions, Reallocation) == 0)
  {
    ReconciledTotal(payment, patient, spreadsheet);
    ReallocationException(payment, patient, spreadsheet);
  }

  /** The reconciliation part of `ReconciliationFromRow` that concerns the total. */
  lemma ReconciledTotal(payment: StripePaymentData, patient: PatientDetails, spreadsheet: SpreadsheetData)
    ensures var b := BreakdownOf(payment, patient, spreadsheet);
      var computed := ComputedTotal(Processed(patient, spreadsheet, payment.planDuration),
                                    ResolveCosts(spreadsheet, payment.planDuration));
      && (Reallocated(payment, patient, spreadsheet) ==> b.total == payment.chargedAmount)
      && (!Reallocated(payment, patient, spreadsheet) ==> b.total == computed)
  {
    OperationalOutcome(patient, spreadsheet, payment.planDuration);
    FinishOutcome(Processed(patient, spreadsheet, payment.planDuration),
                  ResolveCosts(spreadsheet, payment.planDuration), payment.chargedAmount);
  }

  /** The reconciliation part of `ReconciliationFromRow` that concerns the exceptions. */
  lemma ReallocationException(payment: StripePaymentData, patient: PatientDetails, spreadsheet: SpreadsheetData)
    ensures var b := BreakdownOf(payment, patient, spreadsheet);
      var computed := ComputedTotal(Processed(patient, spreadsheet, payment.planDuration),
                                    ResolveCosts(spreadsheet, payment.planDuration));
      && (Reallocated(payment, patient, spreadsheet) ==>
            && |b.exceptions| > 0
            && b.exceptions[|b.exceptions| - 1] == ReallocationFor(computed, payment.chargedAmount)
            && CountKind(b.exceptions, Reallocation) == 1)
      && (!Reallocated(payment, patient, spreadsheet) ==> CountKind(b.exceptions, Reallocation) == 0)
  {
    var computed := ComputedTotal(Processed(patient, spreadsheet, payment.planDuration),
                                  ResolveCosts(spreadsheet, payment.planDuration));
    var initial := if PlanKey(payment.planDuration) !in spreadsheet then [PlanMismatchException(payment.planDuration)] else [];
    var states := StateExceptions(patient, LoopCategories(payment, spreadsheet));
    var reallocation := if Reallocated(payment, patient, spreadsheet) then [ReallocationFor(computed, payment.chargedAmount)] else [];
    ExceptionOrder(payment, patient, spreadsheet);
    CountKindAppend(initial + states, reallocation, Reallocation);
    CountKindAppend(initial, states, Reallocation);
    StateExceptionCount(patient, LoopCategories(payment, spreadsheet), Reallocation);
    assert CountKind(reallocation, Reallocation) == |reallocation|;
    assert CountKind(initial, Reallocation) == 0;
  }


  /**
   * The exceptions come in a fixed order: the plan mismatch (exactly when the requested plan
   * key is missing, even if "4w" is missing too), then one state exception per New York lab
   * column, then the reallocation.
   */
  lemma ExceptionOrder(payment: StripePaymentData, patient: PatientDetails, spreadsheet: SpreadsheetData)
    ensures var b := BreakdownOf(payment, patient, spreadsheet);
      var computed := ComputedTotal(Processed(patient, spreadsheet, payment.planDuration),
                                    ResolveCosts(spreadsheet, payment.planDuration));
      b.exceptions
        == (if PlanKey(payment.planDuration) !in spreadsheet then [PlanMismatchException(payment.planDuration)] else [])
           + StateExceptions(patient, LoopCategories(payment, spreadsheet))
           + (if Reallocated(payment, patient, spreadsheet) then [ReallocationFor(computed, payment.chargedAmount)] else [])
  {
    ProcessedOutcome(patient, spreadsheet, payment.planDuration);
    FinishOutcome(Processed(patient, spreadsheet, payment.planDuration),
                  ResolveCosts(spreadsheet, payment.planDuration), payment.chargedAmount);
  }

  /** Exactly one plan-mismatch exception is recorded when the plan key is missing, and it comes first; otherwise none. */
  lemma PlanMismatchFirst(payment: StripePaymentData, patient: PatientDetails, spreadsheet: SpreadsheetData)
    ensures var b := BreakdownOf(payment, patient, spreadsheet);
      && (PlanKey(payment.planDuration) !in spreadsheet ==>
            |b.exceptions| > 0 && b.exceptions[0] == PlanMismatchException(payment.planDuration))
      && CountKind(b.exceptions, PlanMismatch) == if PlanKey(payment.planDuration) !in spreadsheet then 1 else 0
  {
    var b := BreakdownOf(payment, patient, spreadsheet);
    var computed := ComputedTotal(Processed(patient, spreadsheet, payment.planDuration),
                                  ResolveCosts(spreadsheet, payment.planDuration));
    var initial := if PlanKey(payment.planDuration) !in spreadsheet then [PlanMismatchException(payment.planDuration)] else [];
    var states := StateExceptions(patient, LoopCategories(payment, spreadsheet));
    var reallocation := if Reallocated(payment, patient, spreadsheet) then [ReallocationFor(computed, payment.chargedAmount)] else [];
    ExceptionOrder(payment, patient, spreadsheet);
    CountKindAppend(initial + states, reallocation, PlanMismatch);
    CountKindAppend(initial, states, PlanMismatch);
    StateExceptionCount(patient, LoopCategories(payment, spreadsheet), PlanMismatch);
    assert CountKind(reallocation, PlanMismatch) == 0;
  }

  /**
   * The row the calculator works on: the requested plan's when no plan mismatch is recorded;
   * otherwise the "4w" row, or an empty row when that is missing too.
   */
  lemma ResolvedRowFallback(payment: StripePaymentData, patient: PatientDetails, spreadsheet: SpreadsheetData)
    ensures var b := BreakdownOf(payment, patient, spreadsheet);
      var row := ResolveCosts(spreadsheet, payment.planDuration);
      && (CountKind(b.exceptions, PlanMismatch) == 0 ==>
            PlanKey(payment.planDuration) in spreadsheet && row == spreadsheet[PlanKey(payment.planDuration)])
      && (CountKind(b.exceptions, PlanMismatch) != 0 && "4w" in spreadsheet ==> row == spreadsheet["4w"])
      && (CountKind(b.exceptions, PlanMismatch) != 0 && "4w" !in spreadsheet ==> row == [])
  {
    PlanMismatchFirst(payment, patient, spreadsheet);
  }

  /**
   * The discount section: the "discount" value of the plan's row, or "Discount" when that is
   * missing or 0; the section is present exactly when that amount is positive, as one
   * "Discount" line worth its negation, and discount columns never become sections of their own.
   */
  lemma DiscountFromRow(payment: StripePaymentData, patient: PatientDetails, spreadsheet: SpreadsheetData)
    ensures var b := BreakdownOf(payment, patient, spreadsheet);
      var row := ResolveCosts(spreadsheet, payment.planDuration);
      var d := if GetOr0(row, "discount") != 0.0 then GetOr0(row, "discount") else GetOr0(row, "Discount");
      && (b.discounts.Some? <==> d > 0.0)
      && (d > 0.0 ==> b.discounts == Some(BreakdownSection("Discounts", [BreakdownLineItem("Discount", None, -d, -d)], -d)))
  {
    var row := ResolveCosts(spreadsheet, payment.planDuration);
    FinishDiscounts(Processed(patient, spreadsheet, payment.planDuration), row, payment.chargedAmount);
  }

  lemma FinishDiscounts(s: CalcState, baseCosts: CostRow, chargedAmount: real)
    requires SectionsWellFormed(s)
    ensures Finish(s, baseCosts, chargedAmount).discounts == DiscountSection(DiscountAmount(baseCosts))
  {
  }

  /** Every extra section is one line carrying its column's display name, worth that column's positive value. */
  lemma {:induction false} ExtraSectionsShape(categories: CostRow)
    ensures forall k | 0 <= k < |ExtraSections(categories)| ::
      var x := ExtraSections(categories)[k];
      && SingleLine(x) && x.subtotal > 0.0
      && x.lineItems[0] == BreakdownLineItem(x.name, None, x.subtotal, x.subtotal)
      && exists j | 0 <= j < |categories| ::
           GetCategoryDisplayName(categories[j].0) == x.name && categories[j].1 == x.subtotal && !IsStandard(ToLower(categories[j].0))
  {
    if categories != [] {
      var init := categories[..|categories| - 1];
      ExtraSectionsShape(init);
      forall k | 0 <= k < |ExtraSections(categories)|
        ensures var x := ExtraSections(categories)[k];
          exists j | 0 <= j < |categories| ::
            GetCategoryDisplayName(categories[j].0) == x.name && categories[j].1 == x.subtotal && !IsStandard(ToLower(categories[j].0))
      {
        if k < |ExtraSections(init)| {
          var x := ExtraSections(init)[k];
          var j :| 0 <= j < |init| && GetCategoryDisplayName(init[j].0) == x.name && init[j].1 == x.subtotal && !IsStandard(ToLower(init[j].0));
          assert categories[j] == init[j];
        } else {
          assert GetCategoryDisplayName(categories[|categories| - 1].0) == ExtraSections(categories)[k].name;
        }
      }
    }
  }

  /**
   * Columns outside the four standard categories with a positive value become one extra section
   * each, in column order; the breakdown lists them only when there is at least one.
   */
  lemma ExtraSectionsFromRow(payment: StripePaymentData, patient: PatientDetails, spreadsheet: SpreadsheetData)
    ensures var b := BreakdownOf(payment, patient, spreadsheet);
      var extras := ExtraSections(LoopCategories(payment, spreadsheet));
      && (b.additionalSections.Some? <==> extras != [])
      && (b.additionalSections.Some? ==> b.additionalSections.value == extras)
  {
    ProcessedOutcome(patient, spreadsheet, payment.planDuration);
    FinishOutcome(Processed(patient, spreadsheet, payment.planDuration),
                  ResolveCosts(spreadsheet, payment.planDuration), payment.chargedAmount);
  }

  /**
   * Shape of every breakdown: each standard section is either a single line whose line total
   * is its subtotal or the empty default with subtotal 0, and an extra-sections list is never empty.
   */
  lemma BreakdownShape(payment: StripePaymentData, patient: PatientDetails, spreadsheet: SpreadsheetData)
    ensures var b := BreakdownOf(payment, patient, spreadsheet);
      && (SingleLine(b.pharmacy) || (b.pharmacy.lineItems == [] && b.pharmacy.subtotal == 0.0))
      && (SingleLine(b.lab) || (b.lab.lineItems == [] && b.lab.subtotal == 0.0))
      && (SingleLine(b.provider) || (b.provider.lineItems == [] && b.provider.subtotal == 0.0))
      && (SingleLine(b.operational) || (b.operational.lineItems == [] && b.operational.subtotal == 0.0))
      && (b.additionalSections.Some? ==> |b.additionalSections.value| > 0)
  {
    var s := Processed(patient, spreadsheet, payment.planDuration);
    ProcessedOutcome(patient, spreadsheet, payment.planDuration);
    FinishOutcome(s, ResolveCosts(spreadsheet, payment.planDuration), payment.chargedAmount);
  }
}
