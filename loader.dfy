/**
 * The conversion of the first worksheet of the cost spreadsheet into the cost table. Row 0
 * holds the headers (column 0 is the plan duration, every other column a cost category);
 * each later row is one plan. The workbook reader is not part of this model: the grid arrives
 * as cells already read, each with the two renderings the conversion uses.
 */
module SpreadsheetLoader {
  import opened Wrappers
  import opened Text
  import opened Dict
  import opened Types

  /**
   * One cell as the conversion sees it: `text` is `String(cell || '')` and `number` is
   * `parseFloat(String(cell || 0))`, `None` when that is not a number.
   */
  datatype Cell = Cell(text: string, number: Option<real>)

  type Grid = seq<seq<Cell>>

  /** `parseFloat(String(cell || 0)) || 0`: a missing or unparseable cell counts as 0. */
  function CellValue(cell: Cell): real {
    cell.number.GetOr(0.0)
  }

  /** `jsonData[0] || []`. */
  function Headers(grid: Grid): seq<Cell> {
    if |grid| > 0 then grid[0] else []
  }

  /** The category of each column: its header trimmed and lower-cased (see `CategoryNameAt`). */
  function CategoryNames(headers: seq<Cell>): (names: seq<string>)
    ensures |names| == |headers|
  {
    if headers == [] then []
    else CategoryNames(headers[..|headers| - 1]) + [ToLower(Trim(headers[|headers| - 1].text))]
  }

  lemma {:induction false} CategoryNameAt(headers: seq<Cell>, j: nat)
    requires j < |headers|
    ensures CategoryNames(headers)[j] == ToLower(Trim(headers[j].text))
    ensures IsLowerCase(CategoryNames(headers)[j])
  {
    if j < |headers| - 1 {
      CategoryNameAt(headers[..|headers| - 1], j);
    }
    ToLowerChars(Trim(headers[j].text));
  }

  /** The value of each cell of a row (see `CellValueAt`). */
  function CellValues(row: seq<Cell>): (values: seq<real>)
    ensures |values| == |row|
  {
    if row == [] then [] else CellValues(row[..|row| - 1]) + [CellValue(row[|row| - 1])]
  }

  lemma {:induction false} CellValueAt(row: seq<Cell>, j: nat)
    requires j < |row|
    ensures CellValues(row)[j] == CellValue(row[j])
  {
    if j < |row| - 1 {
      CellValueAt(row[..|row| - 1], j);
    }
  }

  /** The number of columns the inner loop may look at: `j < headers.length && j < row.length`. */
  function ColumnCount(headers: seq<Cell>, row: seq<Cell>): nat {
    if |headers| < |row| then |headers| else |row|
  }

  /** Whether column `j` is stored: a named category holding a non-zero value, or a discount. */
  predicate Stored(names: seq<string>, values: seq<real>, j: nat)
    requires j < |names| && j < |values|
  {
    names[j] != "" && (values[j] != 0.0 || names[j] == "discount")
  }

  /** The costs after reading columns 1 to `n` - 1. */
  function ColumnsCosts(names: seq<string>, values: seq<real>, n: nat): CostRow
    requires n <= 1 || (n <= |names| && n <= |values|)
  {
    if n <= 1 then []
    else
      var before := ColumnsCosts(names, values, n - 1);
      var j := n - 1;
      if Stored(names, values, j) then Put(before, names[j], values[j]) else before
  }

  /** The costs one data row contributes. */
  function RowCosts(headers: seq<Cell>, row: seq<Cell>): CostRow {
    ColumnsCosts(CategoryNames(headers), CellValues(row), ColumnCount(headers, row))
  }

  /** A row's plan key: column 0, trimmed. */
  function RowKey(row: seq<Cell>): string
    requires |row| > 0
  {
    Trim(row[0].text)
  }

  /** Whether row `row` makes a plan entry: it has cells and a non-empty key. */
  predicate IsPlanRow(row: seq<Cell>) {
    |row| > 0 && RowKey(row) != ""
  }

  /** The table after reading rows 1 to `n` - 1. */
  function RowsData(grid: Grid, headers: seq<Cell>, n: nat): SpreadsheetData
    requires n <= 1 || n <= |grid|
  {
    if n <= 1 then map[]
    else
      var before := RowsData(grid, headers, n - 1);
      var row := grid[n - 1];
      if IsPlanRow(row) then before[RowKey(row) := RowCosts(headers, row)] else before
  }

  /** The cost table a worksheet yields. */
  function LoadSheet(grid: Grid): SpreadsheetData {
    RowsData(grid, Headers(grid), |grid|)
  }

  /** `String(headers[j] || '').trim().toLowerCase()`. */
  method ReadCategoryName(headers: seq<Cell>, j: nat) returns (name: string)
    requires j < |headers|
    ensures name == CategoryNames(headers)[j]
  {
    name := ToLower(Trim(headers[j].text));
    CategoryNameAt(headers, j);
  }

  /** The column loop: the costs of one data row. */
  method ReadRowCosts(headers: seq<Cell>, row: seq<Cell>) returns (costs: CostRow)
    ensures costs == RowCosts(headers, row)
  {
    costs := [];
    ghost var names := CategoryNames(headers);
    ghost var values := CellValues(row);
    var j := 1;
    while j < |headers| && j < |row|
      invariant 1 <= j && (j <= ColumnCount(headers, row) || j == 1)
      invariant costs == ColumnsCosts(names, values, j)
    {
      var categoryName := ReadCategoryName(headers, j);
      if categoryName != "" {
        var value := row[j].number.GetOr(0.0);
        CellValueAt(row, j);
        if value != 0.0 || categoryName == "discount" {
          costs := Put(costs, categoryName, value);
        }
      }
      j := j + 1;
    }
    assert j == ColumnCount(headers, row) || ColumnCount(headers, row) <= 1;
  }

  /** The row loop of the conversion; each row with a key gets its costs from the column loop. */
  method LoadSpreadsheet(grid: Grid) returns (spreadsheetData: SpreadsheetData)
    ensures spreadsheetData == LoadSheet(grid)
  {
    spreadsheetData := map[];
    var headers := if |grid| > 0 then grid[0] else [];
    var i := 1;
    while i < |grid|
      invariant 1 <= i && (i <= |grid| || i == 1)
      invariant spreadsheetData == RowsData(grid, headers, i)
    {
      var row := grid[i];
      if |row| > 0 {
        var key := Trim(row[0].text);
        if key != "" {
          var costs := ReadRowCosts(headers, row);
          spreadsheetData := spreadsheetData[key := costs];
        }
      }
      i := i + 1;
    }
    assert RowsData(grid, headers, i) == LoadSheet(grid);
  }

  /**
   * The costs of a row, column by column: a category is stored exactly when some column read
   * carries it and is non-zero or a discount; its value is that of the last such column.
   */
  lemma {:induction false} ColumnsCostsGet(names: seq<string>, values: seq<real>, n: nat, c: string)
    requires n <= 1 || (n <= |names| && n <= |values|)
    ensures Get(ColumnsCosts(names, values, n), c).None? <==>
      forall j | 1 <= j < n :: !(Stored(names, values, j) && names[j] == c)
    ensures Get(ColumnsCosts(names, values, n), c).Some? ==>
      exists j | 1 <= j < n ::
        && Stored(names, values, j) && names[j] == c
        && Get(ColumnsCosts(names, values, n), c).value == values[j]
        && forall j' | j < j' < n :: !(Stored(names, values, j') && names[j'] == c)
  {
    if n > 1 {
      var before := ColumnsCosts(names, values, n - 1);
      ColumnsCostsGet(names, values, n - 1, c);
      var j := n - 1;
      if Stored(names, values, j) {
        PutGet(before, names[j], values[j], c);
      }
    }
  }

  /** Every stored category is a non-empty lower-case name with a non-zero value or the discount; no name twice. */
  lemma {:induction false} ColumnsCostsKeys(names: seq<string>, values: seq<real>, n: nat)
    requires n <= 1 || (n <= |names| && n <= |values|)
    requires forall j | 0 <= j < |names| :: IsLowerCase(names[j])
    ensures DistinctKeys(ColumnsCosts(names, values, n))
    ensures forall e | e in ColumnsCosts(names, values, n) ::
      e.0 != "" && IsLowerCase(e.0) && (e.1 != 0.0 || e.0 == "discount")
  {
    if n > 1 {
      var before := ColumnsCosts(names, values, n - 1);
      ColumnsCostsKeys(names, values, n - 1);
      var j := n - 1;
      if Stored(names, values, j) {
        PutKeys(before, names[j], values[j]);
        PutEntries(before, names[j], values[j]);
      }
    }
  }

  /**
   * The costs of a row: a category is stored exactly when one of columns 1 to the shorter of
   * the header row and the data row, less one, carries it with a non-zero value (any value for
   * the discount); the value is that of the last such column.
   */
  lemma {:induction false} RowCostsGet(headers: seq<Cell>, row: seq<Cell>, c: string)
    ensures Get(RowCosts(headers, row), c).None? ==>
      forall j | 1 <= j < ColumnCount(headers, row) :: !(Stored(CategoryNames(headers), CellValues(row), j) && CategoryNames(headers)[j] == c)
    ensures (forall j | 1 <= j < ColumnCount(headers, row) :: !(Stored(CategoryNames(headers), CellValues(row), j) && CategoryNames(headers)[j] == c))
      ==> Get(RowCosts(headers, row), c).None?
    ensures Get(RowCosts(headers, row), c).Some? ==>
      exists j | 1 <= j < ColumnCount(headers, row) ::
        && Stored(CategoryNames(headers), CellValues(row), j) && CategoryNames(headers)[j] == c
        && Get(RowCosts(headers, row), c).value == CellValues(row)[j]
        && forall j' | j < j' < ColumnCount(headers, row) :: !(Stored(CategoryNames(headers), CellValues(row), j') && CategoryNames(headers)[j'] == c)
  {
    ColumnsCostsGet(CategoryNames(headers), CellValues(row), ColumnCount(headers, row), c);
  }

  /** Every cost of a row is under a non-empty lower-case category, non-zero unless it is the discount; no category twice. */
  lemma RowCostsKeys(headers: seq<Cell>, row: seq<Cell>)
    ensures DistinctKeys(RowCosts(headers, row))
    ensures forall e | e in RowCosts(headers, row) :: e.0 != "" && IsLowerCase(e.0) && (e.1 != 0.0 || e.0 == "discount")
  {
    forall j | 0 <= j < |headers| ensures IsLowerCase(CategoryNames(headers)[j]) {
      CategoryNameAt(headers, j);
    }
    ColumnsCostsKeys(CategoryNames(headers), CellValues(row), ColumnCount(headers, row));
  }

  /** Cells beyond the shorter of the header row and the data row are never read. */
  lemma {:induction false} ColumnsBeyondIgnored(headers: seq<Cell>, row: seq<Cell>)
    ensures var m := ColumnCount(headers, row);
      RowCosts(headers, row) == RowCosts(headers[..m], row[..m])
  {
    var m := ColumnCount(headers, row);
    var names := CategoryNames(headers);
    var values := CellValues(row);
    forall i | 0 <= i < m ensures CategoryNames(headers[..m])[i] == names[i] && CellValues(row[..m])[i] == values[i] {
      CategoryNameAt(headers[..m], i);
      CategoryNameAt(headers, i);
      CellValueAt(row[..m], i);
      CellValueAt(row, i);
    }
    assert CategoryNames(headers[..m]) == names[..m];
    assert CellValues(row[..m]) == values[..m];
    ColumnsPrefix(names, values, m, m);
  }

  /** The costs after `n` columns depend on the first `m` >= `n` names and values only. */
  lemma {:induction false} ColumnsPrefix(names: seq<string>, values: seq<real>, m: nat, n: nat)
    requires m <= |names| && m <= |values| && n <= m
    ensures ColumnsCosts(names, values, n) == ColumnsCosts(names[..m], values[..m], n)
  {
    if n > 1 {
      ColumnsPrefix(names, values, m, n - 1);
    }
  }

  /** Every plan key of the table is the non-empty trimmed key of a row after the header row, holding that row's costs. */
  lemma {:induction false} RowsDataKeys(grid: Grid, headers: seq<Cell>, n: nat)
    requires n <= 1 || n <= |grid|
    ensures forall key | key in RowsData(grid, headers, n) ::
      key != "" && exists i | 1 <= i < n ::
        IsPlanRow(grid[i]) && RowKey(grid[i]) == key && RowsData(grid, headers, n)[key] == RowCosts(headers, grid[i])
  {
    if n > 1 {
      RowsDataKeys(grid, headers, n - 1);
    }
  }

  /**
   * Every later row with a key yields an entry under that key, holding that row's costs unless
   * a later row carries the same key: the last such row wins, wholesale.
   */
  lemma {:induction false} RowsDataLastWins(grid: Grid, headers: seq<Cell>, n: nat, i: nat)
    requires n <= 1 || n <= |grid|
    requires 1 <= i < n && IsPlanRow(grid[i])
    requires forall i' | i < i' < n :: !(IsPlanRow(grid[i']) && RowKey(grid[i']) == RowKey(grid[i]))
    ensures RowKey(grid[i]) in RowsData(grid, headers, n)
    ensures RowsData(grid, headers, n)[RowKey(grid[i])] == RowCosts(headers, grid[i])
  {
    if i < n - 1 {
      RowsDataLastWins(grid, headers, n - 1, i);
    }
  }

  /** The table's plan keys come from rows 1 onwards, trimmed and non-empty, each holding the costs of such a row. */
  lemma LoadedKeys(grid: Grid)
    ensures forall key | key in LoadSheet(grid) ::
      key != "" && exists i | 1 <= i < |grid| ::
        IsPlanRow(grid[i]) && RowKey(grid[i]) == key && LoadSheet(grid)[key] == RowCosts(grid[0], grid[i])
  {
    RowsDataKeys(grid, Headers(grid), |grid|);
  }

  /**
   * Each data row with a non-empty key is in the table, with the costs its cells give under the
   * headers of row 0, unless a later row has the same key.
   */
  lemma LastRowWins(grid: Grid, i: nat)
    requires 1 <= i < |grid| && IsPlanRow(grid[i])
    requires forall i' | i < i' < |grid| :: !(IsPlanRow(grid[i']) && RowKey(grid[i']) == RowKey(grid[i]))
    ensures RowKey(grid[i]) in LoadSheet(grid)
    ensures LoadSheet(grid)[RowKey(grid[i])] == RowCosts(grid[0], grid[i])
  {
    RowsDataLastWins(grid, Headers(grid), |grid|, i);
  }

  /** Every cost a loaded plan holds is under a non-empty lower-case category, non-zero unless it is the discount. */
  lemma LoadedCosts(grid: Grid, key: string)
    requires key in LoadSheet(grid)
    ensures DistinctKeys(LoadSheet(grid)[key])
    ensures forall e | e in LoadSheet(grid)[key] :: e.0 != "" && IsLowerCase(e.0) && (e.1 != 0.0 || e.0 == "discount")
  {
    LoadedKeys(grid);
    var i :| 1 <= i < |grid| && IsPlanRow(grid[i]) && RowKey(grid[i]) == key && LoadSheet(grid)[key] == RowCosts(grid[0], grid[i]);
    RowCostsKeys(grid[0], grid[i]);
  }
}
