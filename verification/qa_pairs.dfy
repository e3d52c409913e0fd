/**
  `HospitalDataProcessor.create_qa_pairs`: walks the rows in frame order, cleans the
  question and answer cells, and emits one Q&A pair per row whose cleaned question and
  cleaned answer are both non-empty. The pair keeps the row's index label as its `id`,
  so ids are not renumbered after dropped rows.

  The cell-cleaning function is a parameter here; `QAPairCleaning.ProcessorPairs` plugs in
  `preprocess_text`.
*/
module QAPairs {
  import opened Table

  /** A metadata value: row labels are integers, everything else is text. */
  datatype Value = IntValue(i: int) | StrValue(s: string)

  /** One Q&A unit, with the five keys of the dictionary the source builds. */
  datatype QAPair = QAPair(
    id: int,
    question: string,
    answer: string,
    category: string,
    metadata: map<string, Value>)

  const Category: string := "hospital"
  const SourceTag: string := "hospital_qa"

  /** A cell-cleaning function; in the processor, `preprocess_text`. */
  type Cleaner = Cell -> string

  function CleanQuestion(clean: Cleaner, row: Row): string
  {
    clean(Get(row, QuestionColumn))
  }

  function CleanAnswer(clean: Cleaner, row: Row): string
  {
    clean(Get(row, AnswerColumn))
  }

  /** The condition `if question and answer` on the cleaned cells. */
  predicate Keeps(clean: Cleaner, row: Row)
  {
    CleanQuestion(clean, row) != "" && CleanAnswer(clean, row) != ""
  }

  /** The provenance metadata recorded for a row label. */
  function Provenance(index: int): map<string, Value>
  {
    map["source" := StrValue(SourceTag), "index" := IntValue(index)]
  }

  /** The dictionary appended for a kept row. */
  function MakePair(clean: Cleaner, row: Row): QAPair
  {
    QAPair(row.index, CleanQuestion(clean, row), CleanAnswer(clean, row), Category, Provenance(row.index))
  }

  /** The shape of every emitted pair, whatever row it came from. */
  predicate WellFormedPair(p: QAPair)
  {
    && p.question != "" && p.answer != ""
    && p.category == Category
    && p.metadata.Keys == {"source", "index"}
    && p.metadata["source"] == StrValue(SourceTag)
    && p.metadata["index"] == IntValue(p.id)
  }

  /** `p` is the pair that some kept row of `rows` produces. */
  ghost predicate FromKeptRow(clean: Cleaner, rows: seq<Row>, p: QAPair)
  {
    exists i :: 0 <= i < |rows| && Keeps(clean, rows[i]) && p == MakePair(clean, rows[i])
  }

  /** Pairs produced from the rows after the first are produced from the rows. */
  lemma FromKeptRowOfTail(clean: Cleaner, rows: seq<Row>, rest: seq<QAPair>)
    requires rows != []
    requires forall k :: 0 <= k < |rest| ==> FromKeptRow(clean, rows[1..], rest[k])
    ensures forall k :: 0 <= k < |rest| ==> FromKeptRow(clean, rows, rest[k])
  {
    forall k | 0 <= k < |rest| ensures FromKeptRow(clean, rows, rest[k]) {
      assert FromKeptRow(clean, rows[1..], rest[k]);
      var j :| 0 <= j < |rows[1..]| && Keeps(clean, rows[1..][j]) && rest[k] == MakePair(clean, rows[1..][j]);
      assert rows[1..][j] == rows[j + 1];
    }
  }

  /** `create_qa_pairs` over the rows of `df.iterrows()`. */
  function CreateQAPairs(clean: Cleaner, rows: seq<Row>): (pairs: seq<QAPair>)
    ensures |pairs| <= |rows|
    ensures forall k :: 0 <= k < |pairs| ==> WellFormedPair(pairs[k])
    ensures forall k :: 0 <= k < |pairs| ==> FromKeptRow(clean, rows, pairs[k])
  {
    if rows == [] then []
    else
      var rest := CreateQAPairs(clean, rows[1..]);
      FromKeptRowOfTail(clean, rows, rest);
      if Keeps(clean, rows[0]) then
        assert FromKeptRow(clean, rows, MakePair(clean, rows[0]));
        [MakePair(clean, rows[0])] + rest
      else rest
  }
}

/** Order, completeness and identity of the pairs `create_qa_pairs` emits. */
module QAPairProperties {
  import opened Table
  import opened QAPairs

  /** A single row yields a pair exactly when both its cleaned question and answer are non-empty. */
  lemma SingleRowIff(clean: Cleaner, row: Row)
    ensures CreateQAPairs(clean, [row]) == [MakePair(clean, row)] <==> Keeps(clean, row)
    ensures CreateQAPairs(clean, [row]) == [] <==> !Keeps(clean, row)
  {
    assert [row][1..] == [];
  }

  /** The rows are processed in order: the output for a concatenation is the concatenated output. */
  lemma {:induction false} CreateQAPairsConcat(clean: Cleaner, a: seq<Row>, b: seq<Row>)
    ensures CreateQAPairs(clean, a + b) == CreateQAPairs(clean, a) + CreateQAPairs(clean, b)
    decreases |a|
  {
    if a == [] {
      assert a + b == b;
    } else {
      assert (a + b)[1..] == a[1..] + b;
      CreateQAPairsConcat(clean, a[1..], b);
    }
  }

  /** A row's pair is in the output exactly when the row is kept. */
  lemma {:induction false} KeptRowIsEmitted(clean: Cleaner, rows: seq<Row>, i: int)
    requires 0 <= i < |rows|
    ensures MakePair(clean, rows[i]) in CreateQAPairs(clean, rows) <==> Keeps(clean, rows[i])
    decreases |rows|
  {
    var pairs := CreateQAPairs(clean, rows);
    if Keeps(clean, rows[i]) && i > 0 {
      KeptRowIsEmitted(clean, rows[1..], i - 1);
      assert rows[1..][i - 1] == rows[i];
    }
    if MakePair(clean, rows[i]) in pairs {
      var k :| 0 <= k < |pairs| && pairs[k] == MakePair(clean, rows[i]);
      assert WellFormedPair(pairs[k]);
    }
  }

  predicate IndicesIncrease(rows: seq<Row>)
  {
    forall i, j :: 0 <= i < j < |rows| ==> rows[i].index < rows[j].index
  }

  predicate IdsIncrease(pairs: seq<QAPair>)
  {
    forall k, l :: 0 <= k < l < |pairs| ==> pairs[k].id < pairs[l].id
  }

  /** Every id comes from some row label, so a lower bound on the labels bounds the ids. */
  lemma IdsAboveBound(clean: Cleaner, rows: seq<Row>, bound: int)
    requires forall i :: 0 <= i < |rows| ==> bound < rows[i].index
    ensures forall k :: 0 <= k < |CreateQAPairs(clean, rows)| ==> bound < CreateQAPairs(clean, rows)[k].id
  {
    var pairs := CreateQAPairs(clean, rows);
    forall k | 0 <= k < |pairs| ensures bound < pairs[k].id {
      assert FromKeptRow(clean, rows, pairs[k]);
    }
  }

  /**
    With strictly increasing row labels (a default `RangeIndex`), the ids strictly increase;
    they may still have gaps where rows were dropped.
  */
  lemma {:induction false} IdsFollowRowOrder(clean: Cleaner, rows: seq<Row>)
    requires IndicesIncrease(rows)
    ensures IdsIncrease(CreateQAPairs(clean, rows))
    decreases |rows|
  {
    if rows != [] {
      var rest := CreateQAPairs(clean, rows[1..]);
      assert IndicesIncrease(rows[1..]);
      IdsFollowRowOrder(clean, rows[1..]);
      IdsAboveBound(clean, rows[1..], rows[0].index);
      if Keeps(clean, rows[0]) {
        var p0 := MakePair(clean, rows[0]);
        assert CreateQAPairs(clean, rows) == [p0] + rest;
        assert p0.id == rows[0].index;
        IdsIncreaseCons(p0, rest);
      } else {
        assert CreateQAPairs(clean, rows) == rest;
      }
    }
  }

  lemma IdsIncreaseCons(p0: QAPair, rest: seq<QAPair>)
    requires IdsIncrease(rest)
    requires forall k :: 0 <= k < |rest| ==> p0.id < rest[k].id
    ensures IdsIncrease([p0] + rest)
  {
    var pairs := [p0] + rest;
    forall k, l | 0 <= k < l < |pairs| ensures pairs[k].id < pairs[l].id {
      assert pairs[l] == rest[l - 1];
      if k > 0 {
        assert pairs[k] == rest[k - 1];
      }
    }
  }

  /** Strictly increasing ids are pairwise distinct. */
  lemma IdsUnique(clean: Cleaner, rows: seq<Row>)
    requires IndicesIncrease(rows)
    ensures var pairs := CreateQAPairs(clean, rows);
      forall k, l :: 0 <= k < |pairs| && 0 <= l < |pairs| && k != l ==> pairs[k].id != pairs[l].id
  {
    IdsFollowRowOrder(clean, rows);
  }
}

/** `create_qa_pairs` with the processor's own `preprocess_text` as the cleaning function. */
module QAPairCleaning {
  import opened Chars
  import opened Table
  import opened TextCleaning
  import opened CleaningProperties
  import opened QAPairs
  import opened QAPairProperties

  /** `self.preprocess_text` as a cleaning function. */
  function Preprocessor(cc: CharClasses): Cleaner
  {
    cell => PreprocessText(cc, cell)
  }

  function ProcessorPairs(cc: CharClasses, rows: seq<Row>): seq<QAPair>
  {
    CreateQAPairs(Preprocessor(cc), rows)
  }

  /** Text as cleaning leaves it: allowed characters, plain single spaces, no newline. */
  predicate CleanedText(cc: CharClasses, s: string)
  {
    && (forall i :: 0 <= i < |s| ==> CleanChar(cc, s[i]))
    && NoDoubleSpace(s)
    && '\n' !in s
  }

  /** A NaN cell or an absent column drops the row. */
  lemma MissingCellDropsRow(cc: CharClasses, row: Row)
    requires || QuestionColumn !in row.cells || row.cells[QuestionColumn] == Missing
             || AnswerColumn !in row.cells || row.cells[AnswerColumn] == Missing
    ensures ProcessorPairs(cc, [row]) == []
  {
    SingleRowIff(Preprocessor(cc), row);
  }

  /** Every emitted question and answer is the cleaned cell value, in cleaned form. */
  lemma ProcessorPairsCleaned(cc: CharClasses, rows: seq<Row>)
    requires cc.Valid()
    ensures forall k :: 0 <= k < |ProcessorPairs(cc, rows)| ==>
      CleanedText(cc, ProcessorPairs(cc, rows)[k].question) &&
      CleanedText(cc, ProcessorPairs(cc, rows)[k].answer)
  {
    var pairs := ProcessorPairs(cc, rows);
    forall k | 0 <= k < |pairs|
      ensures CleanedText(cc, pairs[k].question) && CleanedText(cc, pairs[k].answer)
    {
      assert FromKeptRow(Preprocessor(cc), rows, pairs[k]);
      var i :| 0 <= i < |rows| && Keeps(Preprocessor(cc), rows[i]) && pairs[k] == MakePair(Preprocessor(cc), rows[i]);
      var q, a := Get(rows[i], QuestionColumn), Get(rows[i], AnswerColumn);
      assert pairs[k].question == PreprocessText(cc, q);
      assert pairs[k].answer == PreprocessText(cc, a);
      CleanNoDoubleSpace(cc, q);
      CleanHasNoOtherWhitespace(cc, q);
      CleanNoDoubleSpace(cc, a);
      CleanHasNoOtherWhitespace(cc, a);
    }
  }

  /** Cleaned questions contain no newline, which the document content relies on. */
  lemma ProcessorQuestionsHaveNoNewline(cc: CharClasses, rows: seq<Row>)
    requires cc.Valid()
    ensures forall k :: 0 <= k < |ProcessorPairs(cc, rows)| ==> '\n' !in ProcessorPairs(cc, rows)[k].question
  {
    ProcessorPairsCleaned(cc, rows);
  }
}
