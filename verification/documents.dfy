/**
  `HospitalRAGSystem.create_documents`: one LangChain document per Q&A pair, whose page
  content joins question and answer under Korean labels and whose metadata merges the
  pair's fields with the pair's own metadata map.
*/
module Documents {
  import opened Common
  import opened QAPairs

  /** A LangChain `Document`: page content and metadata. */
  datatype Document = Document(content: string, metadata: map<string, Value>)

  const QuestionLabel: string := "질문: "
  const AnswerLabel: string := "\n답변: "

  /** The f-string `"질문: {question}\n답변: {answer}"`. */
  function Content(question: string, answer: string): (c: string)
    ensures |c| == |QuestionLabel| + |question| + |AnswerLabel| + |answer|
    ensures c[..|QuestionLabel|] == QuestionLabel
    ensures c[|QuestionLabel|..|QuestionLabel| + |question|] == question
    ensures c[|QuestionLabel| + |question|..|c| - |answer|] == AnswerLabel
    ensures c[|c| - |answer|..] == answer
  {
    QuestionLabel + question + AnswerLabel + answer
  }

  /**
    The dict literal `{'id': …, 'question': …, 'answer': …, 'category': …, **qa['metadata']}`:
    the unpacked metadata comes last, so on a shared key its value wins.
  */
  function DocumentMetadata(p: QAPair): (m: map<string, Value>)
    ensures m.Keys == {"id", "question", "answer", "category"} + p.metadata.Keys
    ensures forall k :: k in p.metadata ==> m[k] == p.metadata[k]
    ensures "id" !in p.metadata ==> m["id"] == IntValue(p.id)
    ensures "question" !in p.metadata ==> m["question"] == StrValue(p.question)
    ensures "answer" !in p.metadata ==> m["answer"] == StrValue(p.answer)
    ensures "category" !in p.metadata ==> m["category"] == StrValue(p.category)
  {
    map["id" := IntValue(p.id), "question" := StrValue(p.question),
        "answer" := StrValue(p.answer), "category" := StrValue(p.category)] + p.metadata
  }

  function MakeDocument(p: QAPair): Document
  {
    Document(Content(p.question, p.answer), DocumentMetadata(p))
  }

  /** `create_documents`: the documents of the pairs, one each, in order. */
  function CreateDocuments(pairs: seq<QAPair>): (docs: seq<Document>)
    ensures |docs| == |pairs|
    ensures forall i :: 0 <= i < |pairs| ==> docs[i] == MakeDocument(pairs[i])
  {
    if pairs == [] then [] else [MakeDocument(pairs[0])] + CreateDocuments(pairs[1..])
  }

  /** The position of the first `c` in `s`, or `|s|` when there is none. */
  function IndexOf(s: string, c: char): (n: nat)
    ensures n <= |s|
    ensures n < |s| ==> s[n] == c
    ensures forall j :: 0 <= j < n ==> s[j] != c
  {
    if s == [] then 0
    else if s[0] == c then 0
    else 1 + IndexOf(s[1..], c)
  }

  /**
    Reads the question and answer back out of a page content: the question runs from
    the first label to the first newline, which must start the answer label.
  */
  function ParseContent(content: string): Option<(string, string)>
  {
    if |content| < |QuestionLabel| || content[..|QuestionLabel|] != QuestionLabel then None
    else
      var rest := content[|QuestionLabel|..];
      var n := IndexOf(rest, '\n');
      if |rest| - n < |AnswerLabel| || rest[n..n + |AnswerLabel|] != AnswerLabel then None
      else Some((rest[..n], rest[n + |AnswerLabel|..]))
  }
}

/** The page content determines the pair's text, and the metadata its fields. */
module DocumentProperties {
  import opened Common
  import opened QAPairs
  import opened Documents

  /** A question without a newline and its answer are recovered from the page content. */
  lemma ContentRoundTrip(question: string, answer: string)
    requires '\n' !in question
    ensures ParseContent(Content(question, answer)) == Some((question, answer))
  {
    var content := Content(question, answer);
    assert content[..|QuestionLabel|] == QuestionLabel;
    var rest := content[|QuestionLabel|..];
    assert rest == question + AnswerLabel + answer;
    assert rest[|question|] == '\n';
    assert forall j :: 0 <= j < |question| ==> rest[j] == question[j];
    var n := IndexOf(rest, '\n');
    assert n == |question|;
    assert rest[n..n + |AnswerLabel|] == AnswerLabel;
    assert rest[..n] == question;
    assert rest[n + |AnswerLabel|..] == answer;
  }

  /** Different pairs (questions without newlines) give different page contents. */
  lemma ContentInjective(q1: string, a1: string, q2: string, a2: string)
    requires '\n' !in q1 && '\n' !in q2
    requires Content(q1, a1) == Content(q2, a2)
    ensures q1 == q2 && a1 == a2
  {
    ContentRoundTrip(q1, a1);
    ContentRoundTrip(q2, a2);
  }

  /**
    For a pair built by `create_qa_pairs`, the document metadata holds exactly the pair's
    id, question, answer and category plus its provenance, with `index` equal to `id`.
  */
  lemma WellFormedPairMetadata(p: QAPair)
    requires WellFormedPair(p)
    ensures MakeDocument(p).metadata == map[
      "id" := IntValue(p.id), "question" := StrValue(p.question),
      "answer" := StrValue(p.answer), "category" := StrValue(Category),
      "source" := StrValue(SourceTag), "index" := IntValue(p.id)]
  {
    var m := MakeDocument(p).metadata;
    var expected := map[
      "id" := IntValue(p.id), "question" := StrValue(p.question),
      "answer" := StrValue(p.answer), "category" := StrValue(Category),
      "source" := StrValue(SourceTag), "index" := IntValue(p.id)];
    assert m.Keys == expected.Keys;
    forall k | k in m ensures m[k] == expected[k] {
    }
  }
}
