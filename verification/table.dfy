/**
  The raw question/answer table as pandas presents it to `HospitalDataProcessor`:
  rows in frame order, each with its index label and its cells by column name.
*/
module Table {

  /** A cell: pandas' NaN/None, or a text value. */
  datatype Cell = Missing | Text(text: string)

  /** One row as `DataFrame.iterrows` yields it: the index label and the row's cells. */
  datatype Row = Row(index: int, cells: map<string, Cell>)

  /** A data frame: its column labels and its rows in order. */
  datatype Frame = Frame(columns: set<string>, rows: seq<Row>)

  const QuestionColumn: string := "질문"
  const AnswerColumn: string := "답변"

  /** `row.get(column, '')`: the cell, or the empty text when the row has no such column. */
  function Get(row: Row, column: string): (c: Cell)
    ensures column in row.cells ==> c == row.cells[column]
    ensures column !in row.cells ==> c == Text("")
  {
    if column in row.cells then row.cells[column] else Text("")
  }

  /** `df[column]` as a sequence of cells, for a column the frame has. */
  function Column(df: Frame, column: string): (col: seq<Cell>)
    ensures |col| == |df.rows|
  {
    seq(|df.rows|, i requires 0 <= i < |df.rows| =>
      if column in df.rows[i].cells then df.rows[i].cells[column] else Missing)
  }
}
