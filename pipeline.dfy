/**
 * What the checker says about the calculator's output. Every section of a computed breakdown
 * passes its check; the grand total differs from the checker's sum of subtotals by the amounts
 * the calculator counts outside the four standard sections: the costs of unknown categories
 * (counted once through the per-category costs and once more, when positive, through the extra
 * sections) and a negative discount.
 */
module Pipeline {
  import opened Wrappers
  import opened Text
  import opened Dict
  import opened Types
  import opened BreakdownEngine
  import opened EngineProperties
  import opened BreakdownValidator

  /** The per-category costs of the four standard categories (0 for an absent one). */
  function StandardSum(costs: seq<(string, real)>): real {
    GetOr0(costs, "pharmacy") + GetOr0(costs, "lab") + GetOr0(costs, "provider") + GetOr0(costs, "operational")
  }

  /** The per-category costs stored under any other key. */
  function OtherSum(costs: seq<(string, real)>): real {
    if costs == [] then 0.0 else (if IsStandard(costs[0].0) then 0.0 else costs[0].1) + OtherSum(costs[1..])
  }

  /** With distinct keys, the sum of all per-category costs splits into the standard ones and the others. */
  lemma {:induction false} SumSplit(costs: seq<(string, real)>)
    requires DistinctKeys(costs)
    ensures SumValues(costs) == StandardSum(costs) + OtherSum(costs)
  {
    if costs != [] {
      var rest := costs[1..];
      assert DistinctKeys(rest);
      SumSplit(rest);
      assert Get(rest, costs[0].0).None? by {
        forall i | 0 <= i < |rest| ensures rest[i].0 != costs[0].0 {
          assert rest[i] == costs[i + 1];
        }
      }
    }
  }

  /** When every non-standard key is `k`, the other costs are just the cost stored under `k`. */
  lemma {:induction false} OtherSumOnly(costs: seq<(string, real)>, k: string)
    requires DistinctKeys(costs)
    requires forall i | 0 <= i < |costs| :: !IsStandard(costs[i].0) ==> costs[i].0 == k
    ensures OtherSum(costs) == if IsStandard(k) then 0.0 else GetOr0(costs, k)
  {
    if costs != [] {
      var rest := costs[1..];
      assert DistinctKeys(rest);
      assert forall i | 0 <= i < |rest| :: rest[i] == costs[i + 1];
      OtherSumOnly(rest, k);
      if !IsStandard(costs[0].0) {
        assert Get(rest, k).None? by {
          forall i | 0 <= i < |rest| ensures rest[i].0 != k {
            assert rest[i] == costs[i + 1];
          }
        }
      }
    }
  }

  /** Every per-category cost key is the lower-cased name of a visited category. */
  predicate KeysFromCategories(costs: seq<(string, real)>, categories: CostRow) {
    forall i | 0 <= i < |costs| :: exists j | 0 <= j < |categories| :: costs[i].0 == ToLower(categories[j].0)
  }

  /** Recording a cost under the lower-cased name of one more category keeps every key a visited category's. */
  lemma KeysAfterPut(before: seq<(string, real)>, init: CostRow, categories: CostRow, key: string, v: real)
    requires KeysFromCategories(before, init)
    requires |categories| == |init| + 1 && categories[..|init|] == init && key == ToLower(categories[|init|].0)
    ensures KeysFromCategories(Put(before, key, v), categories)
  {
    var after := Put(before, key, v);
    PutKeys(before, key, v);
    forall i | 0 <= i < |after|
      ensures exists j | 0 <= j < |categories| :: after[i].0 == ToLower(categories[j].0)
    {
      if i < |before| {
        var j :| 0 <= j < |init| && before[i].0 == ToLower(init[j].0);
        assert after[i].0 == before[i].0 && categories[j] == categories[..|init|][j];
        assert 0 <= j < |categories| && after[i].0 == ToLower(categories[j].0);
      } else {
        var j := |init|;
        assert 0 <= j < |categories| && after[i].0 == ToLower(categories[j].0);
      }
    }
  }

  lemma {:induction false} CostKeysFromCategories(s0: CalcState, patient: PatientDetails, categories: CostRow)
    requires SectionsWellFormed(s0) && s0.categoryCosts == []
    ensures KeysFromCategories(ProcessCategories(s0, patient, categories).categoryCosts, categories)
    decreases |categories|
  {
    if categories != [] {
      var init := categories[..|categories| - 1];
      var last := categories[|categories| - 1];
      CostKeysFromCategories(s0, patient, init);
      var before := ProcessCategories(s0, patient, init);
      assert ProcessCategories(s0, patient, categories) == ProcessCategory(before, patient, last.0, last.1);
      CostStep(before, patient, last.0, last.1);
      KeysAfterPut(before.categoryCosts, init, categories, ToLower(last.0), CategoryCost(patient, ToLower(last.0), last.1));
    }
  }

  /** The recorded cost of a standard name is the subtotal of the section its last entry gives (0 for none). */
  lemma CostIsSlotSubtotal(patient: PatientDetails, spreadsheet: SpreadsheetData, planDuration: int, name: string)
    requires IsStandard(name)
    ensures GetOr0(Processed(patient, spreadsheet, planDuration).categoryCosts, name)
         == SubtotalOr0(SlotAfter(None, patient, Categories(ResolveCosts(spreadsheet, planDuration)), name))
  {
    var s0 := InitialState(spreadsheet, planDuration);
    var categories := Categories(ResolveCosts(spreadsheet, planDuration));
    CostsAfterLoop(s0, patient, categories, name);
    var last := LastNamed(categories, name);
    if last.Some? && name == "pharmacy" {
      PharmacySectionShape(patient, last.value.0, last.value.1);
    }
  }

  /** A standard category's per-category cost is its section's subtotal (0 for an absent section). */
  lemma {:induction false} StandardCostIsSubtotal(patient: PatientDetails, spreadsheet: SpreadsheetData, planDuration: int)
    ensures var s := Processed(patient, spreadsheet, planDuration);
      && GetOr0(s.categoryCosts, "pharmacy") == SubtotalOr0(s.pharmacy)
      && GetOr0(s.categoryCosts, "lab") == SubtotalOr0(s.lab)
      && GetOr0(s.categoryCosts, "provider") == SubtotalOr0(s.provider)
      && GetOr0(s.categoryCosts, "operational") == SubtotalOr0(s.operational)
  {
    var s0 := InitialState(spreadsheet, planDuration);
    var categories := Categories(ResolveCosts(spreadsheet, planDuration));
    PharmacyAfterLoop(s0, patient, categories);
    LabAfterLoop(s0, patient, categories);
    ProviderAfterLoop(s0, patient, categories);
    OperationalAfterLoop(s0, patient, categories);
    CostIsSlotSubtotal(patient, spreadsheet, planDuration, "pharmacy");
    CostIsSlotSubtotal(patient, spreadsheet, planDuration, "lab");
    CostIsSlotSubtotal(patient, spreadsheet, planDuration, "provider");
    CostIsSlotSubtotal(patient, spreadsheet, planDuration, "operational");
  }

  /** The checker's sum of the standard subtotals, before reconciliation, is the standard per-category costs. */
  function SlotSubtotals(s: CalcState): real {
    SubtotalOr0(s.pharmacy) + SubtotalOr0(s.lab) + SubtotalOr0(s.provider) + SubtotalOr0(s.operational)
  }

  /** The checker's expected total of a finished breakdown, from the state it was assembled from. */
  lemma FinishCalculated(s: CalcState, baseCosts: CostRow, charged: real)
    requires SectionsWellFormed(s)
    requires s.operational.Some? ==> GetOr0(s.categoryCosts, "operational") == s.operational.value.subtotal
    ensures var b := Finish(s, baseCosts, charged);
      var computed := ComputedTotal(s, baseCosts);
      var d := DiscountAmount(baseCosts);
      var discountPart := if d > 0.0 then -d else 0.0;
      && (Abs(computed - charged) > Tolerance ==> CalculatedTotal(b) == SlotSubtotals(s) + (charged - computed) + discountPart)
      && (Abs(computed - charged) <= Tolerance ==> CalculatedTotal(b) == SlotSubtotals(s) + discountPart)
  {
    FinishOutcome(s, baseCosts, charged);
  }

  /**
   * The difference between the calculator's total and the checker's sum of subtotals: the costs
   * stored under non-standard keys, plus the extra sections' subtotals, minus a non-positive
   * discount. It is the same whether or not reconciliation ran.
   */
  lemma TotalGap(payment: StripePaymentData, patient: PatientDetails, spreadsheet: SpreadsheetData)
    ensures var b := BreakdownOf(payment, patient, spreadsheet);
      var s := Processed(patient, spreadsheet, payment.planDuration);
      var d := DiscountAmount(ResolveCosts(spreadsheet, payment.planDuration));
      b.total - CalculatedTotal(b)
        == OtherSum(s.categoryCosts) + SumSubtotals(s.additionalSections) - (if d > 0.0 then 0.0 else d)
  {
    var s := Processed(patient, spreadsheet, payment.planDuration);
    var row := ResolveCosts(spreadsheet, payment.planDuration);
    ProcessedOutcome(patient, spreadsheet, payment.planDuration);
    StandardCostIsSubtotal(patient, spreadsheet, payment.planDuration);
    SumSplit(s.categoryCosts);
    FinishOutcome(s, row, payment.chargedAmount);
    FinishCalculated(s, row, payment.chargedAmount);
  }

  /** The sum of line totals of a section from the calculator is its subtotal. */
  lemma SectionPasses(section: BreakdownSection)
    requires SingleLine(section) || (section.lineItems == [] && section.subtotal == 0.0)
    ensures !Mismatched(section)
  {
    if SingleLine(section) {
      assert section.lineItems == [section.lineItems[0]];
      SingleItemTotal(section.lineItems[0]);
    }
  }

  /** Every section of a computed breakdown passes its check; only the total can be reported. */
  lemma SectionChecksPass(payment: StripePaymentData, patient: PatientDetails, spreadsheet: SpreadsheetData)
    ensures forall id: SectionId :: !SectionFails(BreakdownOf(payment, patient, spreadsheet), id)
    ensures forall e | e in Validate(BreakdownOf(payment, patient, spreadsheet)).errors :: e.TotalMismatch?
  {
    var b := BreakdownOf(payment, patient, spreadsheet);
    BreakdownShape(payment, patient, spreadsheet);
    DiscountFromRow(payment, patient, spreadsheet);
    SectionPasses(b.pharmacy);
    SectionPasses(b.lab);
    SectionPasses(b.provider);
    SectionPasses(b.operational);
    if b.discounts.Some? {
      SectionPasses(b.discounts.value);
    }
    forall e | e in Validate(b).errors ensures e.TotalMismatch? {
      if e.SectionMismatch? {
        SectionErrorIff(b, e.section);
      }
    }
  }

  /** A column of unknown category: neither one of the four standard categories nor a discount. */
  predicate Unknown(e: (string, real)) {
    !IsStandard(ToLower(e.0)) && !IsDiscountCategory(e.0)
  }

  /** The positive amounts of the unknown category columns of a row. */
  function UnknownPositiveTotal(row: CostRow): real
    decreases |row|
  {
    if row == [] then 0.0
    else
      var e := row[|row| - 1];
      UnknownPositiveTotal(row[..|row| - 1]) + (if Unknown(e) && e.1 > 0.0 then e.1 else 0.0)
  }

  /** The positive amounts of the non-standard entries of the visited categories. */
  function ExtraTotal(categories: CostRow): real
    decreases |categories|
  {
    if categories == [] then 0.0
    else
      var e := categories[|categories| - 1];
      ExtraTotal(categories[..|categories| - 1]) + (if !IsStandard(ToLower(e.0)) && e.1 > 0.0 then e.1 else 0.0)
  }

  lemma {:induction false} SumSubtotalsAppend(xs: seq<BreakdownSection>, ys: seq<BreakdownSection>)
    ensures SumSubtotals(xs + ys) == SumSubtotals(xs) + SumSubtotals(ys)
  {
    if xs != [] {
      SumSubtotalsAppend(xs[1..], ys);
      assert (xs + ys)[1..] == xs[1..] + ys;
    } else {
      assert xs + ys == ys;
    }
  }

  /** The extra sections add up to the positive amounts of the non-standard categories. */
  lemma {:induction false} ExtraSectionsTotal(categories: CostRow)
    ensures SumSubtotals(ExtraSections(categories)) == ExtraTotal(categories)
    decreases |categories|
  {
    if categories != [] {
      var init := categories[..|categories| - 1];
      var e := categories[|categories| - 1];
      var name := GetCategoryDisplayName(e.0);
      ExtraSectionsTotal(init);
      var tail := if !IsStandard(ToLower(e.0)) && e.1 > 0.0 then [FlatSection(name, name, e.1)] else [];
      SumSubtotalsAppend(ExtraSections(init), tail);
    }
  }

  lemma {:induction false} ExtraTotalAppend(xs: CostRow, ys: CostRow)
    ensures ExtraTotal(xs + ys) == ExtraTotal(xs) + ExtraTotal(ys)
    decreases |ys|
  {
    if ys == [] {
      assert xs + ys == xs;
    } else {
      ExtraTotalAppend(xs, ys[..|ys| - 1]);
      assert (xs + ys)[..|xs + ys| - 1] == xs + ys[..|ys| - 1];
    }
  }

  lemma {:induction false} UnknownPositiveTotalPrepend(e: (string, real), row: CostRow)
    ensures UnknownPositiveTotal([e] + row) == (if Unknown(e) && e.1 > 0.0 then e.1 else 0.0) + UnknownPositiveTotal(row)
    decreases |row|
  {
    if row != [] {
      UnknownPositiveTotalPrepend(e, row[..|row| - 1]);
      assert ([e] + row)[..|[e] + row| - 1] == [e] + row[..|row| - 1];
    } else {
      assert [e][..0] == [];
    }
  }

  /** Filtering out the discount columns, the extras that remain are those of the unknown columns. */
  lemma {:induction false} ExtraTotalOfRow(row: CostRow)
    ensures ExtraTotal(Categories(row)) == UnknownPositiveTotal(row)
  {
    if row != [] {
      var head := if IsDiscountCategory(row[0].0) then [] else [row[0]];
      ExtraTotalOfRow(row[1..]);
      ExtraTotalAppend(head, Categories(row[1..]));
      UnknownPositiveTotalPrepend(row[0], row[1..]);
      assert row == [row[0]] + row[1..];
      if head != [] {
        assert head[..0] == [];
      }
    }
  }

  /** When column `j` is the only unknown one, the positive unknown amounts are that column's, if positive. */
  lemma {:induction false} UnknownPositiveTotalOnly(row: CostRow, j: int)
    requires forall i | 0 <= i < |row| && i != j :: !Unknown(row[i])
    ensures UnknownPositiveTotal(row) == if 0 <= j < |row| && Unknown(row[j]) && row[j].1 > 0.0 then row[j].1 else 0.0
    decreases |row|
  {
    if row != [] {
      var init := row[..|row| - 1];
      assert forall i | 0 <= i < |init| :: init[i] == row[i];
      UnknownPositiveTotalOnly(init, j);
    }
  }

  /** The extra sections add up to the positive amounts of the row's unknown category columns. */
  lemma ExtrasFromRow(patient: PatientDetails, spreadsheet: SpreadsheetData, planDuration: int)
    ensures SumSubtotals(Processed(patient, spreadsheet, planDuration).additionalSections)
         == UnknownPositiveTotal(ResolveCosts(spreadsheet, planDuration))
  {
    var row := ResolveCosts(spreadsheet, planDuration);
    ProcessedOutcome(patient, spreadsheet, planDuration);
    ExtraSectionsTotal(Categories(row));
    ExtraTotalOfRow(row);
  }

  /** A row without unknown category columns stores no cost under a non-standard key. */
  lemma NoOtherCosts(patient: PatientDetails, spreadsheet: SpreadsheetData, planDuration: int)
    requires forall i | 0 <= i < |ResolveCosts(spreadsheet, planDuration)| :: !Unknown(ResolveCosts(spreadsheet, planDuration)[i])
    ensures OtherSum(Processed(patient, spreadsheet, planDuration).categoryCosts) == 0.0
  {
    var row := ResolveCosts(spreadsheet, planDuration);
    var categories := Categories(row);
    var costs := Processed(patient, spreadsheet, planDuration).categoryCosts;
    ProcessedOutcome(patient, spreadsheet, planDuration);
    CategoriesAreNonDiscountEntries(row);
    CostKeysFromCategories(InitialState(spreadsheet, planDuration), patient, categories);
    forall i | 0 <= i < |costs| ensures IsStandard(costs[i].0) {
      var j :| 0 <= j < |categories| && costs[i].0 == ToLower(categories[j].0);
      assert categories[j] in row;
    }
    OtherSumOnly(costs, "pharmacy");
  }

  /** The only visited category with a non-standard name is the row's only unknown column `j`. */
  lemma OnlyUnknownVisited(row: CostRow, j: nat)
    requires j < |row| && Unknown(row[j])
    requires forall i | 0 <= i < |row| && i != j :: !Unknown(row[i])
    ensures row[j] in Categories(row)
    ensures forall e | e in Categories(row) && !IsStandard(ToLower(e.0)) :: e == row[j]
  {
    CategoriesAreNonDiscountEntries(row);
    forall e | e in Categories(row) && !IsStandard(ToLower(e.0)) ensures e == row[j] {
      var i :| 0 <= i < |row| && row[i] == e;
    }
  }

  /** A row whose only unknown category column is `j` stores exactly that column's amount under non-standard keys. */
  lemma OneOtherCost(patient: PatientDetails, spreadsheet: SpreadsheetData, planDuration: int, j: nat)
    requires j < |ResolveCosts(spreadsheet, planDuration)| && Unknown(ResolveCosts(spreadsheet, planDuration)[j])
    requires forall i | 0 <= i < |ResolveCosts(spreadsheet, planDuration)| && i != j ::
      !Unknown(ResolveCosts(spreadsheet, planDuration)[i])
    ensures OtherSum(Processed(patient, spreadsheet, planDuration).categoryCosts)
         == ResolveCosts(spreadsheet, planDuration)[j].1
  {
    var row := ResolveCosts(spreadsheet, planDuration);
    var categories := Categories(row);
    var e := row[j];
    var key := ToLower(e.0);
    OnlyUnknownVisited(row, j);
    ProcessedOutcome(patient, spreadsheet, planDuration);
    var costs := Processed(patient, spreadsheet, planDuration).categoryCosts;
    CostKeysFromCategories(InitialState(spreadsheet, planDuration), patient, categories);
    forall i | 0 <= i < |costs| && !IsStandard(costs[i].0) ensures costs[i].0 == key {
      var k :| 0 <= k < |categories| && costs[i].0 == ToLower(categories[k].0);
      assert categories[k] in categories;
    }
    OtherSumOnly(costs, key);
    CostsAfterLoop(InitialState(spreadsheet, planDuration), patient, categories, key);
    var last := LastNamed(categories, key);
    assert last.Some? && last.value == e;
    assert key != "pharmacy" && key != "lab";
  }

  /**
   * On a row whose every column is a standard category or a discount, with a discount that is
   * not negative, the checker finds nothing wrong with the calculator's breakdown.
   */
  lemma ValidOnStandardRows(payment: StripePaymentData, patient: PatientDetails, spreadsheet: SpreadsheetData)
    requires forall i | 0 <= i < |ResolveCosts(spreadsheet, payment.planDuration)| ::
      !Unknown(ResolveCosts(spreadsheet, payment.planDuration)[i])
    requires DiscountAmount(ResolveCosts(spreadsheet, payment.planDuration)) >= 0.0
    ensures Validate(BreakdownOf(payment, patient, spreadsheet)).isValid
    ensures Validate(BreakdownOf(payment, patient, spreadsheet)).errors == []
  {
    var b := BreakdownOf(payment, patient, spreadsheet);
    NoOtherCosts(patient, spreadsheet, payment.planDuration);
    ExtrasFromRow(patient, spreadsheet, payment.planDuration);
    UnknownPositiveTotalOnly(ResolveCosts(spreadsheet, payment.planDuration), -1);
    TotalGap(payment, patient, spreadsheet);
    assert b.total == CalculatedTotal(b);
    SectionChecksPass(payment, patient, spreadsheet);
    OnlyTotalCanFail(b);
  }

  /**
   * When the row has exactly one unknown category column, worth `x` > 0, and the discount is
   * not negative, the calculator's total exceeds the checker's sum by exactly `2x`: that
   * category is counted once as a per-category cost and once as an extra section, while the
   * checker reads neither. With `x` > 0.005 the checker always reports the total, and nothing else.
   */
  lemma DoubleCountedCategory(payment: StripePaymentData, patient: PatientDetails, spreadsheet: SpreadsheetData, j: nat)
    requires j < |ResolveCosts(spreadsheet, payment.planDuration)|
    requires Unknown(ResolveCosts(spreadsheet, payment.planDuration)[j])
    requires ResolveCosts(spreadsheet, payment.planDuration)[j].1 > 0.0
    requires forall i | 0 <= i < |ResolveCosts(spreadsheet, payment.planDuration)| && i != j ::
      !Unknown(ResolveCosts(spreadsheet, payment.planDuration)[i])
    requires DiscountAmount(ResolveCosts(spreadsheet, payment.planDuration)) >= 0.0
    ensures var b := BreakdownOf(payment, patient, spreadsheet);
      b.total - CalculatedTotal(b) == 2.0 * ResolveCosts(spreadsheet, payment.planDuration)[j].1
    ensures ResolveCosts(spreadsheet, payment.planDuration)[j].1 > 0.005 ==>
      var b := BreakdownOf(payment, patient, spreadsheet);
      && Validate(b).errors == [TotalMismatch(CalculatedTotal(b), b.total)]
      && !Validate(b).isValid
  {
    var b := BreakdownOf(payment, patient, spreadsheet);
    OneOtherCost(patient, spreadsheet, payment.planDuration, j);
    ExtrasFromRow(patient, spreadsheet, payment.planDuration);
    UnknownPositiveTotalOnly(ResolveCosts(spreadsheet, payment.planDuration), j);
    TotalGap(payment, patient, spreadsheet);
    SectionChecksPass(payment, patient, spreadsheet);
    OnlyTotalCanFail(b);
  }
}
