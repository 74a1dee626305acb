/**
 * The data a survey dashboard works on: a column of a data frame read from a
 * survey file, and the value-label dictionaries that come with it.
 */
module SurveyData {
  import opened Wrappers

  /** A cell value: SPSS numeric variables hold doubles, string variables hold text. */
  datatype Value = Number(x: real) | Text(s: string)

  /** A cell of a column; a missing cell (NaN, system-missing) is None. */
  type Cell = Option<Value>

  /**
   * One column of the data frame. Whether the column is numeric is a property
   * of its dtype, that is of the whole column, not of each cell; the flag is
   * taken as given and is not checked against the kinds of the cells.
   */
  datatype Column = Column(name: string, isNumeric: bool, cells: seq<Cell>)

  /** The value labels of one variable: coded value to human-readable label. */
  type CodeLabels = map<Value, string>

  /** The value labels of a whole file, keyed by variable (column) name. */
  type ValueLabels = map<string, CodeLabels>

  /** The distinct values present in a column; missing cells are dropped. */
  function Present(cells: seq<Cell>): (vs: set<Value>)
    ensures forall v :: v in vs <==> Some(v) in cells
  {
    set c | c in cells && c.Some? :: c.value
  }

  /** The number of distinct non-missing values (pandas `nunique` with its default dropna). */
  function NUnique(cells: seq<Cell>): (n: nat)
    ensures n <= |cells|
    ensures n == 0 <==> forall i :: 0 <= i < |cells| ==> cells[i].None?
  {
    PresentAtMostRows(cells);
    PresentEmptyIffAllMissing(cells);
    |Present(cells)|
  }

  /** A column has no present value exactly when every cell is missing. */
  lemma PresentEmptyIffAllMissing(cells: seq<Cell>)
    ensures |Present(cells)| == 0 <==> forall i :: 0 <= i < |cells| ==> cells[i].None?
  {
    if exists i :: 0 <= i < |cells| && cells[i].Some? {
      var i :| 0 <= i < |cells| && cells[i].Some?;
      assert cells[i].value in Present(cells);
    } else {
      assert Present(cells) == {};
    }
  }

  /** How the present values of a column split into its first cell and the rest. */
  lemma PresentCons(cells: seq<Cell>)
    requires cells != []
    ensures Present(cells) == (if cells[0].Some? then {cells[0].value} else {}) + Present(cells[1..])
  {
  }

  /** A column never has more distinct values than rows. */
  lemma {:induction false} PresentAtMostRows(cells: seq<Cell>)
    ensures |Present(cells)| <= |cells|
  {
    if cells != [] {
      PresentAtMostRows(cells[1..]);
      PresentCons(cells);
    }
  }

  /** A column with no missing and no repeated cell has exactly one distinct value per row. */
  lemma {:induction false} NUniqueOfDistinctRows(cells: seq<Cell>)
    requires forall i :: 0 <= i < |cells| ==> cells[i].Some?
    requires forall i, j :: 0 <= i < j < |cells| ==> cells[i] != cells[j]
    ensures NUnique(cells) == |cells|
  {
    if cells != [] {
      NUniqueOfDistinctRows(cells[1..]);
      PresentCons(cells);
    }
  }

  /**
   * The frequency table of a column (pandas `value_counts` with its default
   * dropna): every distinct present value with the number of rows holding it.
   */
  function ValueCounts(cells: seq<Cell>): (counts: map<Value, nat>)
    ensures counts.Keys == Present(cells)
    ensures forall v :: v in counts ==> counts[v] == multiset(cells)[Some(v)] && counts[v] > 0
  {
    if cells == [] then map[]
    else
      assert cells == [cells[0]] + cells[1..];
      PresentCons(cells);
      var rest := ValueCounts(cells[1..]);
      match cells[0]
      case None => rest
      case Some(v) => rest[v := if v in rest then rest[v] + 1 else 1]
  }
}
