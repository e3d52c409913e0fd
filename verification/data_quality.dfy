/**
  The count fields of `HospitalDataProcessor.analyze_data_quality`: total rows, NaN cells
  in the question and answer columns, distinct questions and duplicated questions.
*/
module DataQuality {
  import opened Common
  import opened Table

  datatype Quality = Quality(
    totalSamples: nat,
    missingQuestions: nat,
    missingAnswers: nat,
    uniqueQuestions: nat,
    duplicateQuestions: nat)

  /** What the analysis raises: a column lookup fails, or `.str` is used on a non-text column. */
  datatype QualityError = KeyError(column: string) | StrAccessorError(column: string)

  /** `series.isna().sum()`. */
  function CountMissing(col: seq<Cell>): (n: nat)
    ensures n <= |col|
    ensures n > 0 <==> Missing in col
    ensures n == multiset(col)[Missing]
  {
    if col == [] then 0
    else
      var init := col[..|col| - 1];
      assert col == init + [col[|col| - 1]];
      CountMissing(init) + (if col[|col| - 1] == Missing then 1 else 0)
  }

  /** The distinct text values of a column; NaN is not a value for `nunique`. */
  function TextValues(col: seq<Cell>): (vs: set<string>)
    ensures forall t :: t in vs <==> Text(t) in col
  {
    if col == [] then {}
    else
      var init := col[..|col| - 1];
      assert col == init + [col[|col| - 1]];
      TextValues(init) + (if col[|col| - 1].Text? then {col[|col| - 1].text} else {})
  }

  /** `series.nunique()`: distinct values, NaN excluded. */
  function UniqueCount(col: seq<Cell>): (u: nat)
    ensures u == |TextValues(col)|
    ensures u == 0 <==> forall i :: 0 <= i < |col| ==> col[i].Missing?
  {
    var vs := TextValues(col);
    assert forall i :: 0 <= i < |col| && col[i].Text? ==> col[i].text in vs;
    |vs|
  }

  /** The distinct cells of a column, NaN included. */
  function Cells(col: seq<Cell>): (cs: set<Cell>)
    ensures forall c :: c in cs <==> c in col
  {
    if col == [] then {}
    else
      var init := col[..|col| - 1];
      assert col == init + [col[|col| - 1]];
      Cells(init) + {col[|col| - 1]}
  }

  /**
    `series.duplicated().sum()`: the number of positions whose cell equals a cell at an
    earlier position (NaN counts as equal to NaN). Every position is either the first
    occurrence of a distinct cell or a duplicate.
  */
  function DuplicateCount(col: seq<Cell>): (n: nat)
    ensures n + |Cells(col)| == |col|
  {
    if col == [] then 0
    else
      var init, last := col[..|col| - 1], col[|col| - 1];
      assert col == init + [last];
      var n := DuplicateCount(init);
      assert Cells(col) == Cells(init) + {last};
      if last in init then
        assert Cells(col) == Cells(init);
        n + 1
      else
        assert last !in Cells(init);
        n
  }

  /**
    In reading `series.str` the column must hold text; CSV loading gives a non-empty
    column with no text cell at all a float dtype, on which `.str` raises.
  */
  predicate StrAccessorFails(col: seq<Cell>): (b: bool)
    ensures b <==> |col| > 0 && UniqueCount(col) == 0
  {
    |col| > 0 && forall i :: 0 <= i < |col| ==> col[i] == Missing
  }

  /** `analyze_data_quality(df)`, fields evaluated in the order of the dict literal. */
  function AnalyzeDataQuality(df: Frame): (r: Result<Quality, QualityError>)
    ensures r.Success? <==>
      && QuestionColumn in df.columns && AnswerColumn in df.columns
      && !StrAccessorFails(Column(df, QuestionColumn)) && !StrAccessorFails(Column(df, AnswerColumn))
    ensures r.Success? ==> r.value.totalSamples == |df.rows|
    ensures r.Success? ==> r.value.missingQuestions <= r.value.totalSamples
    ensures r.Success? ==> r.value.missingAnswers <= r.value.totalSamples
    ensures r.Success? ==>
      && r.value.missingQuestions == multiset(Column(df, QuestionColumn))[Missing]
      && r.value.missingAnswers == multiset(Column(df, AnswerColumn))[Missing]
      && r.value.uniqueQuestions == |TextValues(Column(df, QuestionColumn))|
      && r.value.duplicateQuestions + |Cells(Column(df, QuestionColumn))| == |df.rows|
    ensures r.Failure? && QuestionColumn !in df.columns ==> r.error == KeyError(QuestionColumn)
    ensures QuestionColumn in df.columns && AnswerColumn !in df.columns ==>
      r == Failure(KeyError(AnswerColumn))
    ensures r.Failure? && QuestionColumn in df.columns && AnswerColumn in df.columns ==>
      r.error == StrAccessorError(
        if StrAccessorFails(Column(df, QuestionColumn)) then QuestionColumn else AnswerColumn)
  {
    if QuestionColumn !in df.columns then Failure(KeyError(QuestionColumn))
    else if AnswerColumn !in df.columns then Failure(KeyError(AnswerColumn))
    else
      var questions := Column(df, QuestionColumn);
      var answers := Column(df, AnswerColumn);
      if StrAccessorFails(questions) then Failure(StrAccessorError(QuestionColumn))
      else if StrAccessorFails(answers) then Failure(StrAccessorError(AnswerColumn))
      else Success(Quality(
        |df.rows|,
        CountMissing(questions),
        CountMissing(answers),
        UniqueCount(questions),
        DuplicateCount(questions)))
  }
}

/** How the question counts of the quality report relate to each other. */
module DataQualityProperties {
  import opened Common
  import opened Table
  import opened DataQuality

  /** The distinct cells are the distinct texts, plus NaN when the column has one. */
  lemma {:induction false} CellsAreTextsAndNaN(col: seq<Cell>)
    ensures |Cells(col)| == |TextValues(col)| + (if Missing in col then 1 else 0)
    decreases |col|
  {
    if col != [] {
      var init, last := col[..|col| - 1], col[|col| - 1];
      assert col == init + [last];
      CellsAreTextsAndNaN(init);
      assert Cells(col) == Cells(init) + {last};
      assert TextValues(col) == TextValues(init) + (if last.Text? then {last.text} else {});
      match last
      case Missing =>
        AddMissing(Cells(init));
      case Text(t) =>
        assert (Missing in col) == (Missing in init);
        AddText(Cells(init), TextValues(init), t, if Missing in init then 1 else 0);
    }
  }

  lemma AddMissing(cs: set<Cell>)
    ensures |cs + {Missing}| == |cs| + (if Missing in cs then 0 else 1)
  {
    if Missing in cs {
      assert cs + {Missing} == cs;
    }
  }

  lemma AddText(cs: set<Cell>, vs: set<string>, t: string, m: nat)
    requires |cs| == |vs| + m
    requires Text(t) in cs <==> t in vs
    ensures |cs + {Text(t)}| == |vs + {t}| + m
  {
    if t in vs {
      assert cs + {Text(t)} == cs && vs + {t} == vs;
    }
  }

  /** Distinct texts plus NaN cells never outnumber the rows. */
  lemma {:induction false} UniqueAndMissingFit(col: seq<Cell>)
    ensures UniqueCount(col) + CountMissing(col) <= |col|
    decreases |col|
  {
    if col != [] {
      var init, last := col[..|col| - 1], col[|col| - 1];
      UniqueAndMissingFit(init);
      assert CountMissing(col) == CountMissing(init) + (if last == Missing then 1 else 0);
      var vs := TextValues(init);
      assert TextValues(col) == vs + (if last.Text? then {last.text} else {});
      if last.Text? {
        assert |vs + {last.text}| <= |vs| + 1;
      }
    }
  }

  /**
    Every row is either the first occurrence of a distinct text, the first NaN, or a
    duplicate; and distinct texts plus NaN cells never outnumber the rows.
  */
  lemma ColumnCountsAddUp(col: seq<Cell>)
    ensures UniqueCount(col) + DuplicateCount(col) + (if CountMissing(col) > 0 then 1 else 0) == |col|
    ensures UniqueCount(col) + CountMissing(col) <= |col|
  {
    CellsAreTextsAndNaN(col);
    UniqueAndMissingFit(col);
  }

  /** The invariant of a successful report: unique + duplicate + (1 if any NaN) == total. */
  lemma QualityCountsAddUp(df: Frame)
    requires AnalyzeDataQuality(df).Success?
    ensures var q := AnalyzeDataQuality(df).value;
      && q.uniqueQuestions + q.duplicateQuestions + (if q.missingQuestions > 0 then 1 else 0) == q.totalSamples
      && q.uniqueQuestions + q.missingQuestions <= q.totalSamples
  {
    ColumnCountsAddUp(Column(df, QuestionColumn));
  }

  /** A column with no repeated cell has no duplicates. */
  lemma {:induction false} DistinctColumnHasNoDuplicates(col: seq<Cell>)
    requires forall i, j :: 0 <= i < j < |col| ==> col[i] != col[j]
    ensures DuplicateCount(col) == 0
    decreases |col|
  {
    if col != [] {
      var init := col[..|col| - 1];
      DistinctColumnHasNoDuplicates(init);
      assert col[|col| - 1] !in init;
    }
  }
}
