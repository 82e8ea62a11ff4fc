/**
 The table the batch report works on: a header of distinct column names and
 rows of cells, one cell per column. `SetColumn` is the column assignment
 `frame[name] = values` the report uses to attach its results.
 */
module Frame {

  /** One cell of the table: a float, an integer or a piece of text. */
  datatype Cell = Num(x: real) | Int(n: int) | Text(s: string)

  datatype Frame = Frame(columns: seq<string>, rows: seq<seq<Cell>>)

  /** Column names are unique and every row has one cell per column. */
  predicate Distinct(columns: seq<string>)
  {
    forall i, j :: 0 <= i < j < |columns| ==> columns[i] != columns[j]
  }

  predicate Valid(f: Frame)
  {
    && Distinct(f.columns)
    && forall i :: 0 <= i < |f.rows| ==> |f.rows[i]| == |f.columns|
  }

  /** Position of the first column with the given name. */
  function IndexOf(columns: seq<string>, name: string): (k: nat)
    requires name in columns
    ensures k < |columns| && columns[k] == name
    ensures name !in columns[..k]
  {
    if columns[0] == name then 0
    else
      var k := 1 + IndexOf(columns[1..], name);
      assert columns[..k] == [columns[0]] + columns[1..][..k - 1];
      k
  }

  /** The cells of one column, top to bottom. */
  function Column(f: Frame, name: string): (c: seq<Cell>)
    requires Valid(f) && name in f.columns
    ensures |c| == |f.rows|
    ensures forall i :: 0 <= i < |f.rows| ==> c[i] == f.rows[i][IndexOf(f.columns, name)]
  {
    var k := IndexOf(f.columns, name);
    seq(|f.rows|, i requires 0 <= i < |f.rows| => f.rows[i][k])
  }

  /**
   Column assignment: an existing column keeps its position and gets the new
   cells; a new column is appended after all existing ones.
   */
  function SetColumn(f: Frame, name: string, values: seq<Cell>): (g: Frame)
    requires Valid(f) && |values| == |f.rows|
    ensures Valid(g)
    ensures |g.rows| == |f.rows|
    ensures name in f.columns ==> g.columns == f.columns
    ensures name !in f.columns ==> g.columns == f.columns + [name]
    ensures name !in f.columns ==>
      forall i :: 0 <= i < |f.rows| ==> g.rows[i] == f.rows[i] + [values[i]]
  {
    if name in f.columns then
      var k := IndexOf(f.columns, name);
      Frame(f.columns, seq(|f.rows|, i requires 0 <= i < |f.rows| => f.rows[i][k := values[i]]))
    else
      var g := Frame(f.columns + [name],
                     seq(|f.rows|, i requires 0 <= i < |f.rows| => f.rows[i] + [values[i]]));
      assert Distinct(g.columns) by {
        forall i, j | 0 <= i < j < |g.columns|
          ensures g.columns[i] != g.columns[j]
        {
          if j == |f.columns| {
            assert g.columns[i] == f.columns[i];
          }
        }
      }
      g
  }

  /** Reading back a column just assigned yields exactly the assigned cells. */
  lemma ColumnOfSetColumn(f: Frame, name: string, values: seq<Cell>)
    requires Valid(f) && |values| == |f.rows|
    ensures name in SetColumn(f, name, values).columns
    ensures Column(SetColumn(f, name, values), name) == values
  {
  }

  /** Assigning one column leaves every other column's cells as they were. */
  lemma ColumnOfSetColumnOther(f: Frame, name: string, values: seq<Cell>, other: string)
    requires Valid(f) && |values| == |f.rows|
    requires other in f.columns && other != name
    ensures other in SetColumn(f, name, values).columns
    ensures Column(SetColumn(f, name, values), other) == Column(f, other)
  {
  }
}
