# Itemized receipts: a verified model of the breakdown calculator

The system produces itemized medical receipts. An operator uploads a screenshot of a Stripe
payment. The plan duration is read from its text, and a cost spreadsheet gives the cost of each
category (pharmacy, lab, provider, operational, plus extra ones such as support or shipping) for
each plan duration. The operator confirms the payment and enters the patient. The calculator then
splits the charged amount into sections, and an independent checker validates that split before
the receipt is generated.

This project models that core in Dafny and proves properties of the model:

- **Types** (`types.dfy`): the record types — patient, payment, line item, section, breakdown,
  exception kinds with structured details, the cost table.
- **BreakdownEngine** (`engine.dfy`): `getCategoryDisplayName` and `calculateBreakdown`.
  - `CalculateBreakdown` is a method with the category loop. Its loop invariant ties the loop's
    variables to the prefix fold `ProcessCategories`, so the method's result is `BreakdownOf`.
  - **EngineProperties** (`engine_properties.dfy`) describes that result section by section.
    It uses independent reference definitions (`LastNamed`, `SlotAfter`, `ExtraSections`,
    `StateExceptions`) stated directly in terms of the resolved cost row.
- **BreakdownValidator** (`validator.dfy`): `validateBreakdown`. The method pushes errors one
  check at a time and is proved equal to the function `Validate`. Lemmas state each check as an
  if-and-only-if, and the fixed order of the errors.
- **Pipeline** (`pipeline.dfy`): the checker applied to the calculator's output.
  - When every column is a standard one and the discount is not negative, the checker finds
    nothing wrong.
  - When the row has exactly one unknown category, worth `x`, the calculator's total exceeds the
    checker's sum by exactly `2x`. That category is counted once through the per-category costs
    and once through its extra section.
- **SpreadsheetLoader** (`loader.dfy`): the row/column loop that turns a grid of cells into the
  cost table. It is written as nested loops and proved equal to `LoadSheet`.
- **Ocr** (`ocr.dfy`): `extractWeeks`.
  - The three regular expressions are modelled as a scanner: greedy digit run, then an optional
    space run or a hyphen, then a case-insensitive word.
  - `GreedyIsOnlyMatch` and `MatchIsRegexMatch` show the scanner agrees with the literal reading
    of each expression.
  - The method loops over the expressions with an early return.
- **PatientForm** (`medication.dfy`): the medication list of the patient form, as a class with
  `addMedication` and `removeMedication`.
- **Workflow** (`workflow.dfy`): the page's step machine (upload, confirm, patient, preview,
  generate).
  - The class `ReceiptGenerator` has the page's state fields. Each handler is a method whose new
    state is a transition function of the old one.
  - Every transition keeps the invariant `Consistent`: each step past the upload has the records
    its panel shows, and a breakdown always comes with its validation.
- **Text** and **Dict** (`text.dfy`, `dict.dfy`) hold helpers.
  - `Text`: JavaScript's `trim` whitespace set, ASCII case mapping, `${n}` rendering of integers.
  - `Dict`: a JavaScript object with insertion-ordered keys, as a sequence of pairs. `d[k] = v`
    overwrites in place or appends.

Modelling choices:

- Money is `real`, compared against the 0.01 tolerance exactly.
- A cost row is a sequence of `(category, amount)` pairs in column order, so the order of
  `Object.keys` is kept. The type does not demand distinct categories, and the engine's lemmas
  hold for any row; rows the loader builds have distinct ones (`SpreadsheetLoader.LoadedCosts`).
- A plan key is `IntToString(n) + "w"`.
- Exceptions keep their kind and structured details; their message text is dropped.
- Validation errors and warnings are structured values (section, the two figures compared; the
  number of exceptions) rather than formatted strings.

Where the source's behaviour is surprising, the model keeps it. These cases are proved as stated
properties:

- The New York test is exact equality with "NY" or "New York".
- Unknown categories that are not positive still enter the total.
- Positive extra categories are counted twice.
- The discount is read only from the keys `discount` and `Discount`, while every casing is
  filtered out of the categories.
- A negative discount makes no section but is still subtracted.
- `plan_mismatch` is raised even when the fallback `4w` is missing too.
- The checker ignores the extra sections.

## Model

| member | source | states |
|---|---|---|
| Text.Trim | lib/spreadsheetLoader.ts:32 | `trim` keeps exactly the characters between the leading and the trailing whitespace: everything before and after the result is whitespace, and the result neither starts nor ends with it; it is empty iff the string is all whitespace |
| Text.TrimIdempotent | app/app/components/PatientDetailsForm.tsx:33 | trimming twice is trimming once |
| Text.ToLower | lib/spreadsheetLoader.ts:38 | `toLowerCase` keeps the length |
| Text.ToLowerChars | lib/breakdownEngine.ts:60 | lower-casing maps each character on its own and leaves no upper-case letter |
| Text.LowerOfLowerCase | lib/breakdownEngine.ts:60 | lower-casing an already lower-case name changes nothing |
| Text.LowerChar | lib/breakdownEngine.ts:23 | one character lower-cased: an upper-case ASCII letter moves by 32, everything else is kept |
| Text.UpperChar | lib/breakdownEngine.ts:23 | one character upper-cased: a lower-case ASCII letter moves by 32, everything else is kept |
| Text.ReplaceUnderscores | lib/breakdownEngine.ts:23 | every `_` becomes a space, every other character is kept, same length |
| Text.NatToString | lib/breakdownEngine.ts:32 | `${n}` is a non-empty digit string without a leading zero whose base-10 value is `n` |
| Text.IntToString | lib/breakdownEngine.ts:32 | `${n}` starts with `-` exactly for negative numbers |
| Text.IntToStringInjective | lib/breakdownEngine.ts:32 | different plan durations give different plan keys |
| Dict.Get | lib/breakdownEngine.ts:35 | `d[k]` is absent iff no entry has key `k`, else it is the value of an entry under `k` |
| Dict.PutGet | lib/breakdownEngine.ts:144 | after `d[k] = v`, `k` maps to `v` and every other key to its old value |
| Dict.PutKeys | lib/breakdownEngine.ts:144 | `d[k] = v` appends a new key at the end and otherwise keeps every key in its position; keys stay distinct |
| Dict.PutEntries | lib/spreadsheetLoader.ts:43 | every entry after `d[k] = v` is the new one or an old one |
| Dict.SumAfterPut | lib/breakdownEngine.ts:165 | overwriting one entry changes the sum of values by exactly the difference |
| SpreadsheetLoader.CategoryNames | lib/spreadsheetLoader.ts:38 | one category name per header cell |
| SpreadsheetLoader.CategoryNameAt | lib/spreadsheetLoader.ts:38 | a column's category is its header trimmed and lower-cased, hence lower case |
| SpreadsheetLoader.CellValues | lib/spreadsheetLoader.ts:40 | one value per cell |
| SpreadsheetLoader.CellValueAt | lib/spreadsheetLoader.ts:40 | a column's value is its cell's number, 0 for a missing or unparseable cell |
| SpreadsheetLoader.ReadCategoryName | lib/spreadsheetLoader.ts:38 | the method computes the column's category name |
| SpreadsheetLoader.ReadRowCosts | lib/spreadsheetLoader.ts:34-46 | the column loop computes the row's costs `RowCosts` |
| SpreadsheetLoader.LoadSpreadsheet | lib/spreadsheetLoader.ts:21-51 | the row loop computes the cost table `LoadSheet` of the grid |
| SpreadsheetLoader.ColumnsCostsGet | lib/spreadsheetLoader.ts:37-46 | a category is stored iff some column read carries it and is non-zero or the discount; its value is the last such column's |
| SpreadsheetLoader.ColumnsCostsKeys | lib/spreadsheetLoader.ts:38-44 | every stored category is a non-empty lower-case name with a non-zero value unless it is `discount`; no name twice |
| SpreadsheetLoader.RowCostsGet | lib/spreadsheetLoader.ts:37-46 | a category is stored iff one of columns 1 to min(header length, row length) − 1 carries it with a non-zero value or is the discount; its value is the last such column's |
| SpreadsheetLoader.RowCostsKeys | lib/spreadsheetLoader.ts:38-44 | every cost of a row is under a non-empty lower-case category, non-zero unless it is the discount; no category twice |
| SpreadsheetLoader.ColumnsBeyondIgnored | lib/spreadsheetLoader.ts:37 | cells beyond the shorter of the header row and the data row are never read |
| SpreadsheetLoader.ColumnsPrefix | lib/spreadsheetLoader.ts:37 | the costs after `n` columns depend only on the first `m` >= `n` names and values |
| SpreadsheetLoader.RowsDataKeys | lib/spreadsheetLoader.ts:29-33 | every plan key is the non-empty trimmed key of a non-empty row after the header row, holding that row's costs |
| SpreadsheetLoader.RowsDataLastWins | lib/spreadsheetLoader.ts:48 | a keyed row is in the table with its own costs unless a later row has the same key |
| SpreadsheetLoader.LoadedKeys | lib/spreadsheetLoader.ts:24-33 | row 0 supplies the headers; plan keys come from rows 1 onwards, trimmed and non-empty |
| SpreadsheetLoader.LastRowWins | lib/spreadsheetLoader.ts:48 | each keyed data row is in the table with the costs its cells give under row 0's headers, unless a later row has the same key |
| SpreadsheetLoader.LoadedCosts | lib/spreadsheetLoader.ts:38-44 | every cost a loaded plan holds is under a distinct non-empty lower-case category, non-zero unless it is the discount |
| BreakdownEngine.DisplayNameKnownOrFallback | lib/breakdownEngine.ts:11-24 | a known lower-cased category gets its mapped name; any other non-empty one gets its first letter upper-cased and `_` turned into spaces |
| BreakdownEngine.CategoriesAreNonDiscountEntries | lib/breakdownEngine.ts:46-48 | the loop visits exactly the row's entries whose name, in any casing, is not "discount", each once, in column order |
| BreakdownEngine.MedicationCount | lib/breakdownEngine.ts:65 | the medication count, 1 for an empty list, is at least 1 |
| BreakdownEngine.ProcessCategory | lib/breakdownEngine.ts:59-145 | one iteration keeps every section the loop holds a single line whose total is its subtotal |
| BreakdownEngine.ProcessCategories | lib/breakdownEngine.ts:59-145 | the same for the whole loop |
| BreakdownEngine.ProcessCategoriesSnoc | lib/breakdownEngine.ts:59 | processing one more category is one more iteration |
| BreakdownEngine.Processed | lib/breakdownEngine.ts:31-145 | the loop's final state keeps the sections well formed |
| BreakdownEngine.ApplyCategory | lib/breakdownEngine.ts:60-144 | one iteration of the loop on its variables equals `ProcessCategory` |
| BreakdownEngine.FinishBreakdown | lib/breakdownEngine.ts:147-252 | the code after the loop (discount, total, reconciliation, assembly) equals `Finish` |
| BreakdownEngine.CalculateBreakdown | lib/breakdownEngine.ts:26-253 | the method returns `BreakdownOf` of its inputs, whose total lands within 0.01 of the charge |
| EngineProperties.LastNamed | lib/breakdownEngine.ts:59-66 | the last entry whose lower-cased name is the given one |
| EngineProperties.ExtraSections | lib/breakdownEngine.ts:130-142 | one extra section per non-standard entry with a positive amount, in order |
| EngineProperties.StateExceptions | lib/breakdownEngine.ts:80-88 | one state exception per lab entry when the state is New York, otherwise none |
| EngineProperties.SlotStep | lib/breakdownEngine.ts:64-128 | one iteration writes a standard slot exactly when the entry's lower-cased name is that category |
| EngineProperties.PharmacyAfterLoop | lib/breakdownEngine.ts:64-77 | after the loop the pharmacy slot holds what its last entry wrote, else what it held before |
| EngineProperties.LabAfterLoop | lib/breakdownEngine.ts:80-99 | the same for the lab slot |
| EngineProperties.ProviderAfterLoop | lib/breakdownEngine.ts:102-114 | the same for the provider slot |
| EngineProperties.OperationalAfterLoop | lib/breakdownEngine.ts:116-128 | the same for the operational slot |
| EngineProperties.ExtraStep | lib/breakdownEngine.ts:130-142 | one iteration appends an extra section exactly for a non-standard entry with a positive amount |
| EngineProperties.ExtrasAfterLoop | lib/breakdownEngine.ts:130-142 | after the loop the extra sections are the reference ones, in column order |
| EngineProperties.ExceptionStep | lib/breakdownEngine.ts:81-88 | one iteration records a state exception exactly for a lab entry of a New York patient |
| EngineProperties.ExceptionsAfterLoop | lib/breakdownEngine.ts:81-88 | after the loop the exceptions are the initial ones followed by one state exception per New York lab entry |
| EngineProperties.CostStep | lib/breakdownEngine.ts:144 | one iteration records the entry's cost under its lower-cased name |
| EngineProperties.CostsAfterLoop | lib/breakdownEngine.ts:59-145 | each lower-cased name holds the cost of its last entry (pharmacy scaled, New York lab zeroed); other names keep their old value |
| EngineProperties.CostKeysAfterLoop | lib/breakdownEngine.ts:144 | the recorded costs never hold a name twice |
| EngineProperties.OperationalOutcome | lib/breakdownEngine.ts:116-144 | after the loop the operational slot is the reference one, and its recorded cost is its subtotal |
| EngineProperties.ProcessedOutcome | lib/breakdownEngine.ts:31-145 | the loop's final state, slot by slot, is given by the reference definitions |
| EngineProperties.FinishOutcome | lib/breakdownEngine.ts:168-221 | beyond 0.01 from the charge the total becomes the charge, operational (or 0) grows by the difference and a reallocation is appended; otherwise nothing changes |
| EngineProperties.CountKindAppend | lib/breakdownEngine.ts:31 | counting exceptions of one kind distributes over appending |
| EngineProperties.StateExceptionCount | lib/breakdownEngine.ts:81-88 | the number of state exceptions is the number of lab entries for New York, else 0 |
| EngineProperties.StandardSlots | lib/breakdownEngine.ts:225-245 | pharmacy, lab and provider pass from the loop to the breakdown unchanged, absent ones as empty defaults |
| EngineProperties.TotalWithinTolerance | lib/breakdownEngine.ts:171-221 | the breakdown's total is always within 0.01 of the charged amount |
| EngineProperties.PharmacySectionShape | lib/breakdownEngine.ts:64-77 | a pharmacy section is one medication line: quantity the medication count (1 if none), unit price the table value, total and subtotal their product |
| EngineProperties.PharmacyFromRow | lib/breakdownEngine.ts:64-230 | the pharmacy section is the one the row's last pharmacy column gives, or the empty default |
| EngineProperties.LabFromRow | lib/breakdownEngine.ts:80-235 | the lab section is one "Laboratory Services" line of the table value, or of 0 when the state is exactly "NY" or "New York"; empty default without a lab column |
| EngineProperties.StateExceptionsFromRow | lib/breakdownEngine.ts:81-88 | one state exception per lab column exactly when the state is "NY" or "New York", none otherwise |
| EngineProperties.ProviderFromRow | lib/breakdownEngine.ts:102-240 | the provider section is one "Duval Medical P.A." line of the last provider column's value, or the empty default |
| EngineProperties.OperationalFromRow | lib/breakdownEngine.ts:116-245 | without reconciliation the operational section is one line of its column's value or the empty default; with it, a single line of that value (0 if absent) plus charged minus computed, keeping the column's display name and description, or named "Operational Costs" / "Operational Services" when created |
| EngineProperties.ReconciliationFromRow | lib/breakdownEngine.ts:171-221 | beyond 0.01 the total is exactly the charge and one reallocation exception comes last; otherwise the total is the computed total and no reallocation is recorded |
| EngineProperties.ReconciledTotal | lib/breakdownEngine.ts:169-220 | the total part of reconciliation |
| EngineProperties.ReallocationException | lib/breakdownEngine.ts:210-218 | the exception part of reconciliation: exactly one reallocation, last, carrying computed total, charge and adjustment |
| EngineProperties.ExceptionOrder | lib/breakdownEngine.ts:31-218 | exceptions come in a fixed order: the plan mismatch if any, then the state exceptions, then the reallocation if any |
| EngineProperties.PlanMismatchFirst | lib/breakdownEngine.ts:32-43 | exactly one plan-mismatch exception iff `${n}w` is missing (even if "4w" is too), and it is the first exception; otherwise none |
| EngineProperties.ResolvedRowFallback | lib/breakdownEngine.ts:35-43 | the row used is `table[${n}w]` when no plan mismatch is recorded; otherwise `table["4w"]`, or an empty row when that is missing too |
| EngineProperties.DiscountFromRow | lib/breakdownEngine.ts:148-161 | the discount is the row's `discount` value, else `Discount`, else 0; the section exists iff it is positive, with unit price, total and subtotal its negation |
| EngineProperties.FinishDiscounts | lib/breakdownEngine.ts:246 | the breakdown's discounts section is the one computed from the row |
| EngineProperties.ExtraSectionsShape | lib/breakdownEngine.ts:130-142 | every extra section is one line named by its column's display name, worth that column's positive value |
| EngineProperties.ExtraSectionsFromRow | lib/breakdownEngine.ts:130-247 | non-standard columns with a positive value become one extra section each, in column order; the field is absent when there are none |
| EngineProperties.BreakdownShape | lib/breakdownEngine.ts:225-250 | each standard section is a single line whose total is its subtotal or the empty default with subtotal 0; extra sections are absent rather than empty |
| Pipeline.SumSplit | lib/breakdownEngine.ts:165 | with distinct keys the sum of the per-category costs is the standard ones plus the others |
| Pipeline.OtherSumOnly | lib/breakdownEngine.ts:165 | when every non-standard key is one key, the other costs are its cost |
| Pipeline.KeysAfterPut | lib/breakdownEngine.ts:144 | recording a cost under a visited category's lower-cased name keeps every key a visited category's |
| Pipeline.CostKeysFromCategories | lib/breakdownEngine.ts:59-144 | every per-category cost key is the lower-cased name of a visited category |
| Pipeline.CostIsSlotSubtotal | lib/breakdownEngine.ts:64-144 | a standard name's recorded cost is the subtotal of the section its last entry gives (0 for none) |
| Pipeline.StandardCostIsSubtotal | lib/breakdownEngine.ts:64-144 | each standard category's per-category cost is its section's subtotal |
| Pipeline.FinishCalculated | lib/breakdownValidator.ts:71-76 | the checker's expected total of a breakdown, from the loop state it was built from |
| Pipeline.TotalGap | lib/breakdownEngine.ts:164-169 | the calculator's total minus the checker's sum of subtotals (lib/breakdownValidator.ts lines 71-76) is the non-standard costs plus the extra sections minus a negative discount |
| Pipeline.SectionPasses | lib/breakdownValidator.ts:13-68 | every section the calculator builds has line totals summing to its subtotal |
| Pipeline.SectionChecksPass | lib/breakdownValidator.ts:13-68 | no section check fails on calculator output; only the total can be reported |
| Pipeline.SumSubtotalsAppend | lib/breakdownEngine.ts:166 | the extra sections' sum distributes over appending |
| Pipeline.ExtraSectionsTotal | lib/breakdownEngine.ts:130-166 | the extra sections add up to the positive amounts of the non-standard categories |
| Pipeline.ExtraTotalOfRow | lib/breakdownEngine.ts:46-142 | once the discount columns are filtered out, the extras are those of the unknown columns |
| Pipeline.UnknownPositiveTotalOnly | lib/breakdownEngine.ts:130 | with a single unknown column, the positive unknown amounts are that column's, if positive |
| Pipeline.ExtrasFromRow | lib/breakdownEngine.ts:130-166 | the extra sections add up to the positive amounts of the row's unknown columns |
| Pipeline.NoOtherCosts | lib/breakdownEngine.ts:144 | a row without unknown columns stores no cost under a non-standard key |
| Pipeline.OnlyUnknownVisited | lib/breakdownEngine.ts:46-59 | the only visited non-standard name is that of the row's single unknown column |
| Pipeline.OneOtherCost | lib/breakdownEngine.ts:144 | a row whose only unknown column is `j` stores exactly that column's amount under non-standard keys |
| Pipeline.ValidOnStandardRows | lib/breakdownValidator.ts:13-95 | applied to the calculator's output (lib/breakdownEngine.ts lines 59-221), on a row with only standard and discount columns and a discount that is not negative, the checker finds no error |
| Pipeline.DoubleCountedCategory | lib/breakdownEngine.ts:144-166 | checked by lib/breakdownValidator.ts lines 71-82: one unknown column worth x > 0.005 and a discount that is not negative: the total exceeds the checker's sum by exactly 2x and the total error is reported |
| BreakdownValidator.SingleItemTotal | lib/breakdownValidator.ts:14-17 | the line-total sum of a one-line section is that line's total |
| BreakdownValidator.CheckSection | lib/breakdownValidator.ts:14-22 | one check appends the section's mismatch to the errors exactly when there is one |
| BreakdownValidator.ValidateBreakdown | lib/breakdownValidator.ts:9-96 | the method's result is `Validate` of the breakdown |
| BreakdownValidator.SectionChecksParts | lib/breakdownValidator.ts:13-68 | the section checks' errors are the five checks' contributions, in order |
| BreakdownValidator.CheckErrorsShape | lib/breakdownValidator.ts:13-68 | a check contributes at most one error, exactly when it fails, naming its section and the two figures compared |
| BreakdownValidator.ErrorKinds | lib/breakdownValidator.ts:13-82 | the section checks give only section errors; the total check gives only the total error with the expected total and the breakdown's |
| BreakdownValidator.CheckErrorsSection | lib/breakdownValidator.ts:13-68 | every error of check `id` names section `id` |
| BreakdownValidator.SectionErrorSource | lib/breakdownValidator.ts:13-68 | a section error naming `id` comes from check `id` and nowhere else |
| BreakdownValidator.SectionErrorIff | lib/breakdownValidator.ts:13-68 | a section error is reported iff that section's line totals are more than 0.01 from its subtotal; an absent discounts section is never checked |
| BreakdownValidator.TotalErrorIff | lib/breakdownValidator.ts:70-82 | the total error is reported iff the four standard subtotals plus the discount (or 0) differ from the total by more than 0.01 |
| BreakdownValidator.IgnoresAdditionalSections | lib/breakdownValidator.ts:71-76 | the extra sections do not affect the result |
| BreakdownValidator.SortedAppend | lib/breakdownValidator.ts:10 | appending at most one error of a higher rank keeps the errors in check order |
| BreakdownValidator.ErrorOrder | lib/breakdownValidator.ts:13-82 | errors come in the order pharmacy, lab, provider, operational, discounts, total, each at most once, so at most six |
| BreakdownValidator.WarningIff | lib/breakdownValidator.ts:84-89 | one warning carrying the exception count iff exceptions were recorded, none otherwise |
| BreakdownValidator.ValidIffNoErrors | lib/breakdownValidator.ts:91-95 | valid iff there are no errors; warnings never make it invalid |
| BreakdownValidator.OnlyTotalCanFail | lib/breakdownValidator.ts:13-82 | when every section passes, the errors are at most the total's |
| Ocr.DigitRunEnd | lib/ocr.ts:82-84 | the end of the digit run at `i`: everything before it is a digit, the character there is not |
| Ocr.SpaceRunEnd | lib/ocr.ts:82-83 | the end of the `\s` run at `i`, likewise |
| Ocr.SeparatorEnd | lib/ocr.ts:82-84 | where the word must start after `\s*` or `-` |
| Ocr.LeftmostMatch | lib/ocr.ts:88 | the first position from `from` on where the expression matches, and none matches before it |
| Ocr.Captured | lib/ocr.ts:90 | `match[1]` is a string of digits: the whole run at the match |
| Ocr.ExtractWeeks | lib/ocr.ts:79-98 | the loop over the expressions with its early return computes `Weeks` |
| Ocr.TryPatternsInRange | lib/ocr.ts:91-92 | every number the expressions give lies in 1..52 |
| Ocr.WeeksInRange | lib/ocr.ts:91-97 | `extractWeeks` gives null or an integer in 1..52 |
| Ocr.FirstPatternWins | lib/ocr.ts:87-97 | the result is null iff no expression yields a number, otherwise the number of the first that does |
| Ocr.WeeksPatternOrder | lib/ocr.ts:81-97 | the same, written out for "\d+\s*week", "\d+\s*w", "\d+-week" in that order |
| Ocr.LetterIsNoSeparator | lib/ocr.ts:82-84 | a letter is neither a digit, nor `\s`, nor `-` |
| Ocr.GreedyIsOnlyMatch | lib/ocr.ts:82-84 | a literal regular-expression match at `i` splits only as whole digit run plus whole space run, the split the scanner checks |
| Ocr.MatchIsRegexMatch | lib/ocr.ts:82-84 | conversely the scanner's split is a literal match |
| Ocr.LeftmostOnlyDecides | lib/ocr.ts:88-94 | only the leftmost match's digits decide; later matches are never looked at |
| Ocr.SameUpToCaseChar | lib/ocr.ts:82-84 | a digit, `\s` or `-` is equal to every character that lower-cases the same |
| Ocr.SameDigitRun | lib/ocr.ts:82-84 | strings equal up to case have the same digit runs |
| Ocr.SameSpaceRun | lib/ocr.ts:82-83 | strings equal up to case have the same space runs |
| Ocr.SameMatchAt | lib/ocr.ts:82-84 | an expression matches at `i` in both of two strings equal up to case, or in neither |
| Ocr.SameLeftmostMatch | lib/ocr.ts:88 | strings equal up to case have the same leftmost match |
| Ocr.SamePatternWeeks | lib/ocr.ts:88-92 | strings equal up to case give the same number for each expression |
| Ocr.SameTryPatterns | lib/ocr.ts:87-95 | strings equal up to case give the same result for a list of expressions |
| Ocr.CaseInsensitive | lib/ocr.ts:82-84 | changing the case of letters never changes the result |
| Ocr.SoleNumber | lib/ocr.ts:88 | when the only digits of the text are the run at `i`, an expression matches there or nowhere |
| Ocr.SpacedMatch | lib/ocr.ts:82-83 | digits, spaces (perhaps none) and the word: a `\s*` expression matches and captures the digits |
| Ocr.HyphenMatch | lib/ocr.ts:84 | digits, `-` and the word: the `-week` expression matches and captures the digits |
| Ocr.SpacedMissesHyphen | lib/ocr.ts:82-83 | digits directly followed by `-` are no `\s*` match |
| Ocr.NoMatchBefore | lib/ocr.ts:88 | with no digit before `i`, nothing matches before `i` |
| Ocr.WeeksOfPhrase | lib/ocr.ts:82-92 | "<n> week..." after a digit-free prefix gives `n` for `n` in 1..52, whatever follows |
| Ocr.DigitsOnlyThere | lib/ocr.ts:88 | with digit-free prefix and tail, the digits of the text are those between them |
| Ocr.ShortFormDigits | lib/ocr.ts:83 | in "<n> w..." with a digit-free tail the number is the only digit run |
| Ocr.ShortFormPatterns | lib/ocr.ts:82-83 | in that text the first two expressions can only give `n` |
| Ocr.WeeksOfShortForm | lib/ocr.ts:83-92 | "<n> w" with no other digit gives `n` for `n` in 1..52 |
| Ocr.HyphenFormDigits | lib/ocr.ts:84 | in "<n>-week..." with a digit-free tail the number is the only digit run |
| Ocr.HyphenFormPatterns | lib/ocr.ts:82-84 | in that text only the third expression matches, and it gives `n` |
| Ocr.WeeksOfHyphenForm | lib/ocr.ts:84-92 | "<n>-week" with no other digit gives `n` for `n` in 1..52 |
| Ocr.NoHyphenNoMatch | lib/ocr.ts:84 | without a `-` the third expression never matches |
| Ocr.SpacedOutOfRange | lib/ocr.ts:88-94 | a `\s*` expression whose leftmost match reads a number out of range yields nothing |
| Ocr.LeftmostOnly | lib/ocr.ts:87-97 | when the first number before "week" is out of range, the result is null whatever follows |
| Ocr.LeftmostOnlyExample | lib/ocr.ts:87-97 | "99 weeks, 4 weeks" gives null |
| PatientForm.PatientDetailsForm.constructor | app/app/components/PatientDetailsForm.tsx:26-30 | the form opens on the record's list with an empty text box |
| PatientForm.PatientDetailsForm.SetNewMedication | app/app/components/PatientDetailsForm.tsx:146 | typing sets the text box and leaves the list |
| PatientForm.PatientDetailsForm.AddMedication | app/app/components/PatientDetailsForm.tsx:32-37 | the list becomes `Added`; the box is cleared exactly when the input was accepted |
| PatientForm.PatientDetailsForm.RemoveMedication | app/app/components/PatientDetailsForm.tsx:39-41 | the list becomes `Removed`; the box is unchanged |
| PatientForm.AddedShape | app/app/components/PatientDetailsForm.tsx:33-36 | blank or duplicate input changes nothing; accepted input is appended, trimmed, after the old entries in order |
| PatientForm.AddedMembers | app/app/components/PatientDetailsForm.tsx:33-34 | a name is listed after adding iff it was before or is the accepted input |
| PatientForm.AddTwice | app/app/components/PatientDetailsForm.tsx:33 | adding the same input twice adds it once |
| PatientForm.AddedDistinct | app/app/components/PatientDetailsForm.tsx:33-34 | a duplicate-free list stays duplicate-free under add |
| PatientForm.RemovedMembers | app/app/components/PatientDetailsForm.tsx:40 | a name is listed after removing `med` iff it was before and is not `med` |
| PatientForm.RemovedAppend | app/app/components/PatientDetailsForm.tsx:40 | removing works entry by entry, so the remaining entries keep their order |
| PatientForm.RemovedMultiset | app/app/components/PatientDetailsForm.tsx:40 | every entry equal to `med` goes and every other stays as often as it occurred |
| PatientForm.RemoveAbsent | app/app/components/PatientDetailsForm.tsx:40 | removing an unlisted name changes nothing |
| PatientForm.RemovedDistinct | app/app/components/PatientDetailsForm.tsx:40 | a duplicate-free list stays duplicate-free under remove |
| PatientForm.AddThenRemove | app/app/components/PatientDetailsForm.tsx:32-41 | adding an accepted input and removing it gives the list back |
| PatientForm.AddedClean | app/app/components/PatientDetailsForm.tsx:33-34 | add keeps the list distinct, non-blank and trimmed |
| PatientForm.RemovedClean | app/app/components/PatientDetailsForm.tsx:40 | remove keeps the list distinct, non-blank and trimmed |
| Workflow.StepIndex | app/app/page.tsx:165-167 | `indexOf(step)` is the position of the step's first occurrence |
| Workflow.IndexOfStep | app/app/page.tsx:24-157 | the steps are distinct, so each position names its own step |
| Workflow.ProgressBar | app/app/page.tsx:157-179 | exactly the current step is highlighted, exactly the earlier ones ticked, the later ones pending |
| Workflow.Mounted | app/app/page.tsx:48-58 | the default spreadsheet arrives or its failure message is set; the step and records are unchanged |
| Workflow.Uploaded | app/app/page.tsx:60-75 | no file changes nothing; a parsed payment is taken and the step moves to confirm; a failed parse changes nothing but `processing`; `processing` ends cleared |
| Workflow.SpreadsheetUploaded | app/app/page.tsx:77-89 | a loaded file replaces the spreadsheet and clears the error; a failure sets the error and keeps the spreadsheet |
| Workflow.PaymentEdited | app/app/page.tsx:252-266 | the edited payment replaces the old one; the step is unchanged |
| Workflow.PatientEdited | app/app/page.tsx:271 | the edited patient replaces the old one; the step is unchanged |
| Workflow.Confirmed | app/app/page.tsx:91-94 | the step moves to patient exactly when a payment is set; without one nothing changes |
| Workflow.Submitted | app/app/page.tsx:96-121 | without payment and spreadsheet, or with a blank required field or no medication, nothing changes; otherwise the breakdown is calculated, validated and the step moves to preview |
| Workflow.ReceiptOf | app/app/page.tsx:124-138 | a receipt (the `ReceiptData` record of lib/types.ts lines 49-62) exists iff payment and breakdown are set; it carries them, the patient, the time and the two providers |
| Workflow.Generated | app/app/page.tsx:123-147 | with a payment and a breakdown the step moves to generate, whether saving fails or not; otherwise nothing changes |
| Workflow.Restarted | app/app/page.tsx:355-368 | back to upload with payment, breakdown and validation cleared and the patient blank with TRT; the spreadsheet stays |
| Workflow.ReceiptGenerator.constructor | app/app/page.tsx:27-46 | the page starts at upload with nothing loaded and a blank patient, in a consistent state |
| Workflow.ReceiptGenerator.LoadDefaultSpreadsheet | app/app/page.tsx:48-58 | the new state is `Mounted` of the old; consistency is kept |
| Workflow.ReceiptGenerator.HandleUpload | app/app/page.tsx:60-75 | the new state is `Uploaded` of the old; consistency is kept |
| Workflow.ReceiptGenerator.HandleSpreadsheetUpload | app/app/page.tsx:77-89 | the new state is `SpreadsheetUploaded` of the old; consistency is kept |
| Workflow.ReceiptGenerator.UpdatePayment | app/app/page.tsx:252-266 | the new state is `PaymentEdited` of the old; consistency is kept |
| Workflow.ReceiptGenerator.UpdatePatient | app/app/page.tsx:271 | the new state is `PatientEdited` of the old; consistency is kept |
| Workflow.ReceiptGenerator.HandleConfirmPayment | app/app/page.tsx:91-94 | the new state is `Confirmed` of the old; consistency is kept |
| Workflow.ReceiptGenerator.HandlePatientSubmit | app/app/page.tsx:96-121 | the new state is `Submitted` of the old, with the breakdown from `CalculateBreakdown` and its validation from `ValidateBreakdown` |
| Workflow.ReceiptGenerator.HandleGenerate | app/app/page.tsx:123-147 | the new state is `Generated` of the old, and the receipt handed over is `ReceiptOf` the old state |
| Workflow.ReceiptGenerator.StartNewReceipt | app/app/page.tsx:355-368 | the new state is `Restarted` of the old; consistency is kept |
| Workflow.InitialConsistent | app/app/page.tsx:27-46 | the initial page is consistent |
| Workflow.RestartNeedsPatient | app/app/page.tsx:96-368 | right after a restart, submitting and generating change nothing: the patient and payment must be entered again |
| Workflow.PreviewGenerates | app/app/page.tsx:123-147 | from the preview of a consistent page, generating reaches the last step with a receipt of exactly the breakdown previewed |
| Workflow.HappyPath | app/app/page.tsx:48-147 | loading, reading a screenshot, confirming and submitting a complete patient reach the preview of `BreakdownOf` that patient, payment and table, and generating then reaches the last step |

## Left out

- Case mapping beyond ASCII: `toLowerCase` and `toUpperCase` are modelled on ASCII letters only.
- JavaScript object quirks are not modelled: prototype keys such as `__proto__`, and integer-like keys that `Object.keys` lists first.
- Floating point: amounts are exact reals. IEEE rounding and `NaN` are not modelled. `parseFloat` of a cell is given to the model as an already-read number.
- Message text: exception, error and warning messages use `toFixed` and are dropped. Their kind and structured figures are kept. The two spreadsheet error messages of the page are kept word for word.
- Reading files: FileReader, XLSX parsing and fetch are left out. The loader works on a grid of already-read cells.
- The OCR engine and the other parsers: `performOCR`, `extractAmount`, `extractDate` and the Stripe screenshot parser are left out. Their result is a parameter: a payment, or none when reading fails.
- Saving the receipt: the IndexedDB store is left out. The page ignores the outcome of saving and logs only its error.
- The clock: `generatedAt` is a parameter.
- `alert` and `console` are left out.
- Workflow: `async`/`await` ordering and races between handlers are not modelled. Each handler's awaited outcome is a parameter, and the handler runs as one step, so the transient `processing = true` while a handler awaits is not part of the model.
- Rendering: the JSX, the receipt documents and the download buttons are left out.
- Ocr.WeeksOfShortForm: stated for texts with no other digit, not for every text containing "<n>w".
- Ocr.LeftmostOnly: stated for texts without a `-`, so that the third expression cannot match.
