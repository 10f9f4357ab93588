/**
 * The consistency checker run on every breakdown: it recomputes each section's sum of line
 * totals and the grand total from the section subtotals, within a tolerance of 0.01. The
 * result is specified by `Validate`; `ValidateBreakdown` builds it step by step and is proved
 * to compute it. Message text is not modelled: each error keeps the figures it reports.
 */
module BreakdownValidator {
  import opened Wrappers
  import opened Types

  /** The sections the checker visits, in the order it visits them. */
  datatype SectionId = PharmacySection | LabSection | ProviderSection | OperationalSection | DiscountsSection

  datatype ValidationError =
    | SectionMismatch(section: SectionId, lineItemsTotal: real, subtotal: real)
    | TotalMismatch(calculatedTotal: real, total: real)

  /** The one warning the checker issues: how many exceptions the calculation recorded. */
  datatype ValidationWarning = ExceptionsApplied(count: nat)

  datatype ValidationResult = ValidationResult(
    isValid: bool,
    errors: seq<ValidationError>,
    warnings: seq<ValidationWarning>)

  /** `lineItems.reduce((sum, item) => sum + item.total, 0)`, folding from the left. */
  function LineItemsTotal(items: seq<BreakdownLineItem>): real {
    if items == [] then 0.0 else LineItemsTotal(items[..|items| - 1]) + items[|items| - 1].total
  }

  /** The sum of line totals of a one-line section is that line's total. */
  lemma SingleItemTotal(item: BreakdownLineItem)
    ensures LineItemsTotal([item]) == item.total
  {
    assert [item][..0] == [];
  }

  /** Whether a section's line totals and its subtotal are more than 0.01 apart. */
  predicate Mismatched(section: BreakdownSection) {
    Abs(LineItemsTotal(section.lineItems) - section.subtotal) > Tolerance
  }

  /** The error a section contributes: none, or one mismatch carrying both figures. */
  function SectionErrors(id: SectionId, section: BreakdownSection): seq<ValidationError> {
    if Mismatched(section) then [SectionMismatch(id, LineItemsTotal(section.lineItems), section.subtotal)] else []
  }

  /** The total the checker expects: the four standard subtotals plus the discount subtotal, if any. */
  function CalculatedTotal(b: Breakdown): real {
    b.pharmacy.subtotal + b.lab.subtotal + b.provider.subtotal + b.operational.subtotal +
      (if b.discounts.Some? then b.discounts.value.subtotal else 0.0)
  }

  function TotalErrors(b: Breakdown): seq<ValidationError> {
    if Abs(CalculatedTotal(b) - b.total) > Tolerance then [TotalMismatch(CalculatedTotal(b), b.total)] else []
  }

  /** The errors of the five section checks, in the order they run. */
  function SectionChecks(b: Breakdown): seq<ValidationError> {
    SectionErrors(PharmacySection, b.pharmacy) +
    SectionErrors(LabSection, b.lab) +
    SectionErrors(ProviderSection, b.provider) +
    SectionErrors(OperationalSection, b.operational) +
    (if b.discounts.Some? then SectionErrors(DiscountsSection, b.discounts.value) else [])
  }

  function Errors(b: Breakdown): seq<ValidationError> {
    SectionChecks(b) + TotalErrors(b)
  }

  function Warnings(b: Breakdown): seq<ValidationWarning> {
    if |b.exceptions| > 0 then [ExceptionsApplied(|b.exceptions|)] else []
  }

  /** The result `validateBreakdown` returns. */
  function Validate(b: Breakdown): ValidationResult {
    var errors := Errors(b);
    ValidationResult(|errors| == 0, errors, Warnings(b))
  }

  /** One section check: `errors` with the section's mismatch pushed when there is one. */
  method CheckSection(errors: seq<ValidationError>, id: SectionId, section: BreakdownSection)
    returns (result: seq<ValidationError>)
    ensures result == errors + SectionErrors(id, section)
  {
    result := errors;
    var lineItemsTotal := LineItemsTotal(section.lineItems);
    if Abs(lineItemsTotal - section.subtotal) > 0.01 {
      result := result + [SectionMismatch(id, lineItemsTotal, section.subtotal)];
    }
  }

  /** `validateBreakdown`: checks the sections one after the other, pushing each error found. */
  method ValidateBreakdown(breakdown: Breakdown) returns (result: ValidationResult)
    ensures result == Validate(breakdown)
  {
    var errors: seq<ValidationError> := [];
    var warnings: seq<ValidationWarning> := [];

    errors := CheckSection(errors, PharmacySection, breakdown.pharmacy);
    errors := CheckSection(errors, LabSection, breakdown.lab);
    errors := CheckSection(errors, ProviderSection, breakdown.provider);
    errors := CheckSection(errors, OperationalSection, breakdown.operational);
    if breakdown.discounts.Some? {
      errors := CheckSection(errors, DiscountsSection, breakdown.discounts.value);
    }
    assert errors == SectionChecks(breakdown);

    var calculatedTotal :=
      breakdown.pharmacy.subtotal + breakdown.lab.subtotal + breakdown.provider.subtotal +
      breakdown.operational.subtotal + (if breakdown.discounts.Some? then breakdown.discounts.value.subtotal else 0.0);
    if Abs(calculatedTotal - breakdown.total) > 0.01 {
      errors := errors + [TotalMismatch(calculatedTotal, breakdown.total)];
    }

    if |breakdown.exceptions| > 0 {
      warnings := warnings + [ExceptionsApplied(|breakdown.exceptions|)];
    }

    result := ValidationResult(|errors| == 0, errors, warnings);
  }

  /** The position of a section's check in the fixed checking order. */
  function SectionRank(id: SectionId): nat {
    match id
    case PharmacySection => 0
    case LabSection => 1
    case ProviderSection => 2
    case OperationalSection => 3
    case DiscountsSection => 4
  }

  /** The position of an error's check in the fixed checking order; the total comes last. */
  function Rank(e: ValidationError): nat {
    match e
    case SectionMismatch(id, _, _) => SectionRank(id)
    case TotalMismatch(_, _) => 5
  }

  /** Whether a section check `id` of `b` finds a mismatch (the discounts only when present). */
  predicate SectionFails(b: Breakdown, id: SectionId) {
    match id
    case PharmacySection => Mismatched(b.pharmacy)
    case LabSection => Mismatched(b.lab)
    case ProviderSection => Mismatched(b.provider)
    case OperationalSection => Mismatched(b.operational)
    case DiscountsSection => b.discounts.Some? && Mismatched(b.discounts.value)
  }

  /** The section of `b` that the check `id` looks at (the discounts section only when present). */
  function SectionOf(b: Breakdown, id: SectionId): BreakdownSection
    requires id == DiscountsSection ==> b.discounts.Some?
  {
    match id
    case PharmacySection => b.pharmacy
    case LabSection => b.lab
    case ProviderSection => b.provider
    case OperationalSection => b.operational
    case DiscountsSection => b.discounts.value
  }

  /** The errors the check `id` contributes to the list. */
  function CheckErrors(b: Breakdown, id: SectionId): seq<ValidationError> {
    if id == DiscountsSection && b.discounts.None? then [] else SectionErrors(id, SectionOf(b, id))
  }

  /** The section checks' errors are the five checks' contributions, in order. */
  lemma SectionChecksParts(b: Breakdown)
    ensures SectionChecks(b) ==
      CheckErrors(b, PharmacySection) + CheckErrors(b, LabSection) + CheckErrors(b, ProviderSection) +
      CheckErrors(b, OperationalSection) + CheckErrors(b, DiscountsSection)
  {
  }

  /**
   * A check contributes at most one error, present exactly when the check fails; it names the
   * check's section, carries the two figures compared, and so has the check's rank.
   */
  lemma CheckErrorsShape(b: Breakdown, id: SectionId)
    ensures |CheckErrors(b, id)| <= 1
    ensures |CheckErrors(b, id)| == 1 <==> SectionFails(b, id)
    ensures forall x | x in CheckErrors(b, id) ::
      && (id == DiscountsSection ==> b.discounts.Some?)
      && x == SectionMismatch(id, LineItemsTotal(SectionOf(b, id).lineItems), SectionOf(b, id).subtotal)
      && Rank(x) == SectionRank(id)
  {
  }

  /** Only section errors come from the section checks, and only the total error from the total check. */
  lemma ErrorKinds(b: Breakdown)
    ensures Validate(b).errors == SectionChecks(b) + TotalErrors(b)
    ensures forall e | e in SectionChecks(b) :: e.SectionMismatch?
    ensures forall e | e in TotalErrors(b) :: e == TotalMismatch(CalculatedTotal(b), b.total)
  {
    SectionChecksParts(b);
    CheckErrorsShape(b, PharmacySection);
    CheckErrorsShape(b, LabSection);
    CheckErrorsShape(b, ProviderSection);
    CheckErrorsShape(b, OperationalSection);
    CheckErrorsShape(b, DiscountsSection);
  }

  /** Every error the check `id` contributes names the section `id`. */
  lemma CheckErrorsSection(b: Breakdown, id: SectionId)
    ensures forall x | x in CheckErrors(b, id) :: x.SectionMismatch? && x.section == id
  {
  }

  /** A section error naming `id` comes from the check `id`, and from nowhere else. */
  lemma SectionErrorSource(b: Breakdown, id: SectionId, e: ValidationError)
    requires e.SectionMismatch? && e.section == id
    ensures e in Validate(b).errors <==> e in CheckErrors(b, id)
  {
    assert Validate(b).errors == SectionChecks(b) + TotalErrors(b);
    assert e !in TotalErrors(b);
    SectionChecksParts(b);
    CheckErrorsSection(b, PharmacySection);
    CheckErrorsSection(b, LabSection);
    CheckErrorsSection(b, ProviderSection);
    CheckErrorsSection(b, OperationalSection);
    CheckErrorsSection(b, DiscountsSection);
  }

  /**
   * A section error is reported exactly when that section's line totals are more than 0.01
   * from its subtotal (an absent discounts section is never checked), and it carries the two
   * figures compared.
   */
  lemma SectionErrorIff(b: Breakdown, id: SectionId)
    ensures SectionFails(b, id) <==>
      exists e :: e in Validate(b).errors && e.SectionMismatch? && e.section == id
    ensures forall e | e in Validate(b).errors && e.SectionMismatch? && e.section == id ::
      && (id == DiscountsSection ==> b.discounts.Some?)
      && e == SectionMismatch(id, LineItemsTotal(SectionOf(b, id).lineItems), SectionOf(b, id).subtotal)
      && SectionFails(b, id)
  {
    CheckErrorsShape(b, id);
    forall e: ValidationError | e.SectionMismatch? && e.section == id
      ensures e in Validate(b).errors <==> e in CheckErrors(b, id)
    {
      SectionErrorSource(b, id, e);
    }
    if SectionFails(b, id) {
      var e := CheckErrors(b, id)[0];
      assert e in CheckErrors(b, id);
    }
  }

  /**
   * The total error is reported exactly when the four standard subtotals plus the discount
   * subtotal differ from the total by more than 0.01; the extra sections never enter it.
   */
  lemma TotalErrorIff(b: Breakdown)
    ensures (exists e :: e in Validate(b).errors && e.TotalMismatch?) <==> Abs(CalculatedTotal(b) - b.total) > Tolerance
    ensures forall e | e in Validate(b).errors && e.TotalMismatch? :: e == TotalMismatch(CalculatedTotal(b), b.total)
  {
    ErrorKinds(b);
    if Abs(CalculatedTotal(b) - b.total) > Tolerance {
      assert TotalErrors(b)[0] in Validate(b).errors;
    }
  }

  /** The extra sections do not affect the result. */
  lemma IgnoresAdditionalSections(b: Breakdown, extra: Option<seq<BreakdownSection>>)
    ensures Validate(b.(additionalSections := extra)) == Validate(b)
  {
  }

  /** Each error ranks strictly after the one before it. */
  predicate RankSorted(errors: seq<ValidationError>) {
    forall i, j | 0 <= i < j < |errors| :: Rank(errors[i]) < Rank(errors[j])
  }

  /** Appending at most one error of rank `k` to a sorted list of ranks below `k` keeps it sorted. */
  lemma SortedAppend(a: seq<ValidationError>, b: seq<ValidationError>, k: nat)
    requires RankSorted(a) && forall e | e in a :: Rank(e) < k
    requires |b| <= 1 && forall e | e in b :: Rank(e) == k
    ensures RankSorted(a + b) && forall e | e in a + b :: Rank(e) <= k
  {
    if |b| == 1 {
      forall i, j | 0 <= i < j < |a + b| ensures Rank((a + b)[i]) < Rank((a + b)[j]) {
        if j == |a| {
          assert (a + b)[i] == a[i] && (a + b)[j] == b[0];
        } else {
          assert (a + b)[i] == a[i] && (a + b)[j] == a[j];
        }
      }
    } else {
      assert a + b == a;
    }
  }

  /**
   * Errors come in the fixed order pharmacy, lab, provider, operational, discounts, total,
   * each at most once, so there are at most six.
   */
  lemma {:induction false} ErrorOrder(b: Breakdown)
    ensures RankSorted(Validate(b).errors)
    ensures |Validate(b).errors| <= 6
  {
    ErrorKinds(b);
    SectionChecksParts(b);
    var p := CheckErrors(b, PharmacySection);
    var l := CheckErrors(b, LabSection);
    var v := CheckErrors(b, ProviderSection);
    var o := CheckErrors(b, OperationalSection);
    var d := CheckErrors(b, DiscountsSection);
    var t := TotalErrors(b);
    CheckErrorsShape(b, PharmacySection);
    CheckErrorsShape(b, LabSection);
    CheckErrorsShape(b, ProviderSection);
    CheckErrorsShape(b, OperationalSection);
    CheckErrorsShape(b, DiscountsSection);
    SortedAppend([], p, 0);
    assert [] + p == p;
    SortedAppend(p, l, 1);
    SortedAppend(p + l, v, 2);
    SortedAppend(p + l + v, o, 3);
    SortedAppend(p + l + v + o, d, 4);
    SortedAppend(p + l + v + o + d, t, 5);
  }

  /** One warning exactly when exceptions were recorded, carrying their number; none otherwise. */
  lemma WarningIff(b: Breakdown)
    ensures |Validate(b).warnings| == (if |b.exceptions| > 0 then 1 else 0)
    ensures |b.exceptions| > 0 ==> Validate(b).warnings[0] == ExceptionsApplied(|b.exceptions|)
  {
  }

  /** The breakdown is valid exactly when no error was found; a warning never makes it invalid. */
  lemma ValidIffNoErrors(b: Breakdown)
    ensures Validate(b).isValid <==> Validate(b).errors == []
    ensures Validate(b).isValid <==>
      (forall id: SectionId :: !SectionFails(b, id)) && Abs(CalculatedTotal(b) - b.total) <= Tolerance
  {
    var errors := Validate(b).errors;
    forall id: SectionId ensures SectionFails(b, id) ==> errors != [] {
      SectionErrorIff(b, id);
    }
    TotalErrorIff(b);
    if errors != [] && Abs(CalculatedTotal(b) - b.total) <= Tolerance {
      var e := errors[0];
      assert e.SectionMismatch?;
      SectionErrorIff(b, e.section);
      assert SectionFails(b, e.section);
    }
  }

  /** When every section passes, the errors are the total's error alone (if any). */
  lemma OnlyTotalCanFail(b: Breakdown)
    requires forall id: SectionId :: !SectionFails(b, id)
    ensures Validate(b).errors == TotalErrors(b)
  {
    ErrorKinds(b);
    SectionChecksParts(b);
    assert !SectionFails(b, PharmacySection) && !SectionFails(b, LabSection);
    assert !SectionFails(b, ProviderSection) && !SectionFails(b, OperationalSection);
    assert !SectionFails(b, DiscountsSection);
  }
}
