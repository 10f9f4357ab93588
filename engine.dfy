/**
 * The itemized-breakdown calculator (lib/breakdownEngine.ts).
 *
 * `CalculateBreakdown` is the imperative calculation: one pass over the cost row's
 * categories that fills the category-cost dictionary and the section dictionary and
 * appends to the extra sections and the exceptions, then the discount, the total and
 * the reconciliation against the charged amount. `BreakdownOf` is the same calculation
 * as a function; the method is proved to compute it, and the lemmas in EngineProperties
 * state what it computes.
 */
module BreakdownEngine {
  import opened Wrappers
  import opened Text
  import opened Dict
  import opened Types

  /** The known category display names. */
  const CategoryDisplayNames: map<string, string> := map[
    "pharmacy" := "Pharmacy Costs",
    "lab" := "Lab Costs",
    "provider" := "Clinical Provider Services",
    "operational" := "Operational Costs",
    "support" := "Support Services",
    "shipping" := "Shipping & Handling",
    "discount" := "Discounts"]

  /**
   * `getCategoryDisplayName`: the known name of the lower-cased category, else the
   * category with its first letter upper-cased and every `_` turned into a space.
   */
  function GetCategoryDisplayName(category: string): string {
    var lower := ToLower(category);
    if lower in CategoryDisplayNames then CategoryDisplayNames[lower]
    else if category == "" then ""
    else [UpperChar(category[0])] + ReplaceUnderscores(category[1..])
  }

  /** What `getCategoryDisplayName` returns, for known and for unknown categories. */
  lemma DisplayNameKnownOrFallback(category: string)
    ensures ToLower(category) in CategoryDisplayNames ==>
      GetCategoryDisplayName(category) == CategoryDisplayNames[ToLower(category)]
    ensures ToLower(category) !in CategoryDisplayNames ==>
      var name := GetCategoryDisplayName(category);
      && |name| == |category|
      && (|category| > 0 ==> name[0] == UpperChar(category[0]))
      && forall i | 1 <= i < |category| :: name[i] == (if category[i] == '_' then ' ' else category[i])
  {
    var lower := ToLower(category);
    if lower !in CategoryDisplayNames && category != "" {
      var tail := category[1..];
      var rest := ReplaceUnderscores(tail);
      var name := [UpperChar(category[0])] + rest;
      assert GetCategoryDisplayName(category) == name;
      forall i | 1 <= i < |category| ensures name[i] == (if category[i] == '_' then ' ' else category[i]) {
        assert name[i] == rest[i - 1] && tail[i - 1] == category[i];
      }
    }
  }

  const StandardCategories: seq<string> := ["pharmacy", "lab", "provider", "operational"]

  predicate IsStandard(categoryLower: string) {
    categoryLower in StandardCategories
  }

  /** The line-item description of the provider section. */
  const ProviderDescription: string := "Duval Medical P.A."

  /** The cost-table key of a plan duration: `${planDuration}w`. */
  function PlanKey(planDuration: int): string {
    IntToString(planDuration) + "w"
  }

  /** `spreadsheet[planKey] || spreadsheet['4w'] || {}`. */
  function ResolveCosts(spreadsheet: SpreadsheetData, planDuration: int): CostRow {
    var planKey := PlanKey(planDuration);
    if planKey in spreadsheet then spreadsheet[planKey]
    else if "4w" in spreadsheet then spreadsheet["4w"]
    else []
  }

  /** A category name that any casing of "discount" matches. */
  predicate IsDiscountCategory(category: string) {
    ToLower(category) == "discount"
  }

  /**
   * `Object.keys(baseCosts).filter(cat => cat.toLowerCase() !== 'discount')`, each key
   * paired with `baseCosts[key]` (the row's keys are distinct, so that is the entry's amount).
   */
  function Categories(baseCosts: CostRow): CostRow {
    if baseCosts == [] then []
    else
      (if IsDiscountCategory(baseCosts[0].0) then [] else [baseCosts[0]]) + Categories(baseCosts[1..])
  }

  /** The loop visits exactly the row's entries that are not a discount, each once, in column order. */
  lemma {:induction false} CategoriesAreNonDiscountEntries(baseCosts: CostRow)
    ensures forall e :: e in Categories(baseCosts) <==> e in baseCosts && !IsDiscountCategory(e.0)
    ensures |Categories(baseCosts)| <= |baseCosts|
  {
    if baseCosts != [] {
      CategoriesAreNonDiscountEntries(baseCosts[1..]);
      assert baseCosts == [baseCosts[0]] + baseCosts[1..];
    }
  }

  /** `patient.medication.length || 1`. */
  function MedicationCount(patient: PatientDetails): (n: nat)
    ensures n >= 1
    ensures |patient.medication| > 0 ==> n == |patient.medication|
  {
    if |patient.medication| == 0 then 1 else |patient.medication|
  }

  /** The lab rule's state test: exact equality with 'NY' or 'New York'. */
  predicate IsNewYork(state: string) {
    state == "NY" || state == "New York"
  }

  function MedicationDescription(patient: PatientDetails): string {
    "Medication (" + Join(patient.medication, ", ") + ")"
  }

  /** A section of one line item without a quantity whose unit price and total are `amount`. */
  function FlatSection(name: string, description: string, amount: real): BreakdownSection {
    BreakdownSection(name, [BreakdownLineItem(description, None, amount, amount)], amount)
  }

  function EmptySection(name: string): BreakdownSection {
    BreakdownSection(name, [], 0.0)
  }

  /** The pharmacy section: one medication line whose total is the unit price times the count. */
  function PharmacySection(patient: PatientDetails, category: string, amount: real): BreakdownSection {
    var cost := amount * (MedicationCount(patient) as real);
    BreakdownSection(GetCategoryDisplayName(category),
      [BreakdownLineItem(MedicationDescription(patient), Some(MedicationCount(patient)), amount, cost)], cost)
  }

  /** A section made of one line whose total equals the section's subtotal. */
  predicate SingleLine(section: BreakdownSection) {
    |section.lineItems| == 1 && section.lineItems[0].total == section.subtotal
  }

  predicate OptSingleLine(section: Option<BreakdownSection>) {
    section.Some? ==> SingleLine(section.value)
  }

  /**
   * The calculator's working state: `categoryCosts`, the four entries `categorySections`
   * can hold (pharmacy, lab, provider, operational), `additionalSections` and `exceptions`.
   */
  datatype CalcState = CalcState(
    categoryCosts: seq<(string, real)>,
    pharmacy: Option<BreakdownSection>,
    lab: Option<BreakdownSection>,
    provider: Option<BreakdownSection>,
    operational: Option<BreakdownSection>,
    additionalSections: seq<BreakdownSection>,
    exceptions: seq<Exception>)

  /** Every section the state holds is a single line whose total is its subtotal. */
  predicate SectionsWellFormed(s: CalcState) {
    && OptSingleLine(s.pharmacy)
    && OptSingleLine(s.lab)
    && OptSingleLine(s.provider)
    && OptSingleLine(s.operational)
    && forall k | 0 <= k < |s.additionalSections| :: SingleLine(s.additionalSections[k])
  }

  function PlanMismatchException(planDuration: int): Exception {
    Exception(PlanMismatch, Some(PlanDetails(planDuration)))
  }

  function StateExceptionFor(state: string): Exception {
    Exception(StateException, Some(StateDetails(state)))
  }

  /** The state before the category loop: only the plan_mismatch exception, if any. */
  function InitialState(spreadsheet: SpreadsheetData, planDuration: int): CalcState {
    CalcState([], None, None, None, None, [],
      if PlanKey(planDuration) !in spreadsheet then [PlanMismatchException(planDuration)] else [])
  }

  /** The cost the loop records for a category: pharmacy scaled, lab zeroed for New York. */
  function CategoryCost(patient: PatientDetails, categoryLower: string, amount: real): real {
    if categoryLower == "pharmacy" then amount * (MedicationCount(patient) as real)
    else if categoryLower == "lab" && IsNewYork(patient.state) then 0.0
    else amount
  }

  /** One iteration of the category loop. */
  function ProcessCategory(s: CalcState, patient: PatientDetails, category: string, amount: real): (r: CalcState)
    ensures SectionsWellFormed(s) ==> SectionsWellFormed(r)
  {
    var categoryLower := ToLower(category);
    var cost := CategoryCost(patient, categoryLower, amount);
    var s1 :=
      if categoryLower == "pharmacy" then
        s.(pharmacy := Some(PharmacySection(patient, category, amount)))
      else if categoryLower == "lab" then
        s.(lab := Some(FlatSection(GetCategoryDisplayName(category), "Laboratory Services", cost)),
           exceptions := s.exceptions + (if IsNewYork(patient.state) then [StateExceptionFor(patient.state)] else []))
      else if categoryLower == "provider" then
        s.(provider := Some(FlatSection(GetCategoryDisplayName(category), ProviderDescription, cost)))
      else if categoryLower == "operational" then
        s.(operational := Some(FlatSection(GetCategoryDisplayName(category), GetCategoryDisplayName(category), cost)))
      else if !IsStandard(categoryLower) && cost > 0.0 then
        s.(additionalSections := s.additionalSections +
          [FlatSection(GetCategoryDisplayName(category), GetCategoryDisplayName(category), cost)])
      else s;
    s1.(categoryCosts := Put(s.categoryCosts, categoryLower, cost))
  }

  /** The state after the loop has processed `categories`, in order, starting from `s0`. */
  function ProcessCategories(s0: CalcState, patient: PatientDetails, categories: CostRow): (s: CalcState)
    requires SectionsWellFormed(s0)
    ensures SectionsWellFormed(s)
    decreases |categories|
  {
    if categories == [] then s0
    else
      var last := categories[|categories| - 1];
      ProcessCategory(ProcessCategories(s0, patient, categories[..|categories| - 1]), patient, last.0, last.1)
  }

  /** Processing one more category is one more step of the loop. */
  lemma ProcessCategoriesSnoc(s0: CalcState, patient: PatientDetails, categories: CostRow, i: nat)
    requires SectionsWellFormed(s0)
    requires i < |categories|
    ensures ProcessCategories(s0, patient, categories[..i + 1])
         == ProcessCategory(ProcessCategories(s0, patient, categories[..i]), patient, categories[i].0, categories[i].1)
  {
    assert categories[..i + 1][..i] == categories[..i];
  }

  /** `baseCosts.discount || baseCosts.Discount || 0`. */
  function DiscountAmount(baseCosts: CostRow): real {
    var discount := GetOr0(baseCosts, "discount");
    if discount != 0.0 then discount else GetOr0(baseCosts, "Discount")
  }

  /** The discount section: present only for a positive discount, with the amount negated. */
  function DiscountSection(discountAmount: real): Option<BreakdownSection> {
    if discountAmount > 0.0 then Some(FlatSection("Discounts", "Discount", -discountAmount)) else None
  }

  function SumSubtotals(sections: seq<BreakdownSection>): real {
    if sections == [] then 0.0 else sections[0].subtotal + SumSubtotals(sections[1..])
  }

  /** `totalBeforeDiscount`: every recorded category cost plus every extra section's subtotal. */
  function TotalBeforeDiscount(s: CalcState): real {
    SumValues(s.categoryCosts) + SumSubtotals(s.additionalSections)
  }

  /**
   * Reconciliation: when the computed total is more than 0.01 away from the charge, the
   * whole difference goes into the operational section (created when absent), a
   * reallocation exception is recorded and the total becomes the charge.
   */
  function Reconcile(s: CalcState, finalTotal: real, stripeAmount: real): (r: (CalcState, real))
    requires SectionsWellFormed(s)
  {
    if Abs(finalTotal - stripeAmount) > Tolerance then
      var adjustment := stripeAmount - finalTotal;
      var s1 :=
        if s.operational.None? then
          s.(operational := Some(FlatSection("Operational Costs", "Operational Services", adjustment)))
        else
          var adjustedOperational := GetOr0(s.categoryCosts, "operational") + adjustment;
          s.(operational := Some(FlatSection(s.operational.value.name,
                                             s.operational.value.lineItems[0].description,
                                             adjustedOperational)),
             categoryCosts := Put(s.categoryCosts, "operational", adjustedOperational));
      (s1.(exceptions := s1.exceptions +
             [Exception(Reallocation, Some(ReallocationDetails(finalTotal, stripeAmount, adjustment)))]),
       stripeAmount)
    else
      (s, finalTotal)
  }

  /** The returned record: absent standard sections default to empty ones with subtotal 0. */
  function Assemble(s: CalcState, discounts: Option<BreakdownSection>, total: real): Breakdown {
    Breakdown(
      s.pharmacy.GetOr(EmptySection("Pharmacy Costs")),
      s.lab.GetOr(EmptySection("Lab Costs")),
      s.provider.GetOr(EmptySection("Clinical Provider Services")),
      s.operational.GetOr(EmptySection("Operational Costs")),
      discounts,
      if |s.additionalSections| > 0 then Some(s.additionalSections) else None,
      total,
      s.exceptions)
  }

  /** The state after the category loop of `calculateBreakdown`. */
  function Processed(patient: PatientDetails, spreadsheet: SpreadsheetData, planDuration: int): (s: CalcState)
    ensures SectionsWellFormed(s)
  {
    ProcessCategories(InitialState(spreadsheet, planDuration), patient, Categories(ResolveCosts(spreadsheet, planDuration)))
  }

  /** What `calculateBreakdown` does after its loop: discount, total, reconciliation, result. */
  function Finish(s: CalcState, baseCosts: CostRow, chargedAmount: real): (b: Breakdown)
    requires SectionsWellFormed(s)
  {
    var discountAmount := DiscountAmount(baseCosts);
    var reconciled := Reconcile(s, TotalBeforeDiscount(s) - discountAmount, chargedAmount);
    Assemble(reconciled.0, DiscountSection(discountAmount), reconciled.1)
  }

  /** `calculateBreakdown(payment, patient, spreadsheet)`. */
  function BreakdownOf(payment: StripePaymentData, patient: PatientDetails, spreadsheet: SpreadsheetData): (b: Breakdown)
  {
    Finish(Processed(patient, spreadsheet, payment.planDuration), ResolveCosts(spreadsheet, payment.planDuration),
           payment.chargedAmount)
  }

  /**
   * One iteration of `calculateBreakdown`'s category loop, run on the loop's variables
   * (`categoryCosts`, the section slots, `additionalSections`, `exceptions`) held in `s`.
   */
  method ApplyCategory(s: CalcState, patient: PatientDetails, category: string, amount: real)
    returns (r: CalcState)
    ensures r == ProcessCategory(s, patient, category, amount)
  {
    var categoryCosts, pharmacy, lab, provider, operational, additionalSections, exceptions :=
      s.categoryCosts, s.pharmacy, s.lab, s.provider, s.operational, s.additionalSections, s.exceptions;
    var categoryLower := ToLower(category);
    var cost := amount;

    if categoryLower == "pharmacy" {
      cost := cost * (MedicationCount(patient) as real);
      pharmacy := Some(BreakdownSection(GetCategoryDisplayName(category),
        [BreakdownLineItem(MedicationDescription(patient), Some(MedicationCount(patient)), amount, cost)],
        cost));
    } else if categoryLower == "lab" {
      if IsNewYork(patient.state) {
        cost := 0.0;
        exceptions := exceptions + [StateExceptionFor(patient.state)];
      }
      lab := Some(FlatSection(GetCategoryDisplayName(category), "Laboratory Services", cost));
    } else if categoryLower == "provider" {
      provider := Some(FlatSection(GetCategoryDisplayName(category), ProviderDescription, cost));
    } else if categoryLower == "operational" {
      operational := Some(FlatSection(GetCategoryDisplayName(category), GetCategoryDisplayName(category), cost));
    } else if !IsStandard(categoryLower) && cost > 0.0 {
      additionalSections := additionalSections +
        [FlatSection(GetCategoryDisplayName(category), GetCategoryDisplayName(category), cost)];
    }

    categoryCosts := Put(categoryCosts, categoryLower, cost);
    ghost var expected := ProcessCategory(s, patient, category, amount);
    assert cost == CategoryCost(patient, categoryLower, amount);
    assert categoryCosts == expected.categoryCosts;
    assert pharmacy == expected.pharmacy && lab == expected.lab;
    assert provider == expected.provider && operational == expected.operational;
    assert additionalSections == expected.additionalSections && exceptions == expected.exceptions;
    r := CalcState(categoryCosts, pharmacy, lab, provider, operational, additionalSections, exceptions);
  }

  /**
   * What `calculateBreakdown` does after its loop, from the loop's final state `s`: the
   * discount, the total, the reconciliation against the charge and the returned record.
   */
  method FinishBreakdown(s: CalcState, baseCosts: CostRow, stripeAmount: real) returns (breakdown: Breakdown)
    requires SectionsWellFormed(s)
    ensures breakdown == Finish(s, baseCosts, stripeAmount)
  {
    var discountAmount := GetOr0(baseCosts, "discount");
    if discountAmount == 0.0 {
      discountAmount := GetOr0(baseCosts, "Discount");
    }
    var discountSection := DiscountSection(discountAmount);

    var totalBeforeDiscount := SumValues(s.categoryCosts) + SumSubtotals(s.additionalSections);
    var finalTotal := totalBeforeDiscount - discountAmount;
    ghost var expected := Reconcile(s, finalTotal, stripeAmount);

    var state := s;
    var difference := Abs(finalTotal - stripeAmount);
    if difference > Tolerance {
      var adjustment := stripeAmount - finalTotal;
      if state.operational.None? {
        state := state.(operational := Some(FlatSection("Operational Costs", "Operational Services", adjustment)));
      } else {
        var adjustedOperational := GetOr0(state.categoryCosts, "operational") + adjustment;
        state := state.(
          operational := Some(FlatSection(state.operational.value.name,
                                          state.operational.value.lineItems[0].description,
                                          adjustedOperational)),
          categoryCosts := Put(state.categoryCosts, "operational", adjustedOperational));
      }
      state := state.(exceptions := state.exceptions +
        [Exception(Reallocation, Some(ReallocationDetails(finalTotal, stripeAmount, adjustment)))]);
      finalTotal := stripeAmount;
    }
    assert state == expected.0 && finalTotal == expected.1;

    breakdown := Breakdown(
      state.pharmacy.GetOr(EmptySection("Pharmacy Costs")),
      state.lab.GetOr(EmptySection("Lab Costs")),
      state.provider.GetOr(EmptySection("Clinical Provider Services")),
      state.operational.GetOr(EmptySection("Operational Costs")),
      discountSection,
      if |state.additionalSections| > 0 then Some(state.additionalSections) else None,
      finalTotal,
      state.exceptions);
  }

  /** `calculateBreakdown`, step by step as the source runs it. */
  method CalculateBreakdown(payment: StripePaymentData, patient: PatientDetails, spreadsheet: SpreadsheetData)
    returns (breakdown: Breakdown)
    ensures breakdown == BreakdownOf(payment, patient, spreadsheet)
    ensures Abs(breakdown.total - payment.chargedAmount) <= Tolerance
  {
    var exceptions: seq<Exception> := [];
    var planKey := PlanKey(payment.planDuration);

    var baseCosts: CostRow :=
      if planKey in spreadsheet then spreadsheet[planKey]
      else if "4w" in spreadsheet then spreadsheet["4w"]
      else [];

    if planKey !in spreadsheet {
      exceptions := exceptions + [PlanMismatchException(payment.planDuration)];
    }

    var categories := Categories(baseCosts);
    assert baseCosts == ResolveCosts(spreadsheet, payment.planDuration);
    assert CalcState([], None, None, None, None, [], exceptions) == InitialState(spreadsheet, payment.planDuration);
    var state := CalcState([], None, None, None, None, [], exceptions);
    ghost var s0 := state;
    var i := 0;
    while i < |categories|
      invariant 0 <= i <= |categories|
      invariant state == ProcessCategories(s0, patient, categories[..i])
    {
      state := ApplyCategory(state, patient, categories[i].0, categories[i].1);
      ProcessCategoriesSnoc(s0, patient, categories, i);
      i := i + 1;
    }
    assert categories[..i] == categories;
    assert state == Processed(patient, spreadsheet, payment.planDuration);

    breakdown := FinishBreakdown(state, baseCosts, payment.chargedAmount);
  }
}
