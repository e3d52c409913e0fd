/**
  The state of a `HospitalRAGSystem` and its `query` method. The retrieval chain
  (retriever, prompt stuffing and the hosted language model) is opaque: a function from
  the question to either the chain's output or the error it raises.
*/
module RagState {
  import opened Common
  import opened Documents

  /** What one call `qa_chain({"query": question})` returns or raises. */
  datatype ChainOutcome =
    | ChainResult(result: string, sourceDocuments: seq<Document>)
    | ChainError(message: string)

  /** A `RetrievalQA` chain. */
  type Chain = string -> ChainOutcome

  /** The embedding model `setup_embeddings` selects. */
  datatype EmbeddingModel = OpenAIEmbeddings | SentenceTransformer

  /** The retriever over the vector store: the documents it was built from and its `k`. */
  datatype Retriever = Retriever(documents: seq<Document>, k: int)

  /** The fields of a `HospitalRAGSystem`; `topK` is the configured `rag.top_k`. */
  datatype RagSystem = RagSystem(
    topK: int,
    embeddings: Option<EmbeddingModel>,
    retriever: Option<Retriever>,
    qaChain: Option<Chain>)

  /** The constructor: configuration read, every component `None`. */
  function NewSystem(topK: int): (sys: RagSystem)
    ensures sys.topK == topK
    ensures sys.embeddings.None? && sys.retriever.None? && sys.qaChain.None?
  {
    RagSystem(topK, None, None, None)
  }
}

module RagQuery {
  import opened Common
  import opened Documents
  import opened RagState

  /** The dictionary `query` returns; the not-initialized answer carries no `question` key. */
  datatype QueryResult = QueryResult(
    answer: string,
    sourceDocuments: seq<Document>,
    confidence: real,
    question: Option<string>)

  const NotInitializedAnswer: string := "RAG 시스템이 초기화되지 않았습니다."
  const ErrorPrefix: string := "질의 처리 중 오류가 발생했습니다: "
  /** `str(ZeroDivisionError)` for `len(source_docs) / 0`. */
  const DivisionByZeroMessage: string := "division by zero"

  const NotInitialized: QueryResult := QueryResult(NotInitializedAnswer, [], 0.0, None)

  /** The `except` branch: the error text, no sources, zero confidence, the question echoed. */
  function QueryFailed(question: string, message: string): (r: QueryResult)
    ensures r.sourceDocuments == [] && r.confidence == 0.0 && r.question == Some(question)
    ensures |r.answer| == |ErrorPrefix| + |message|
    ensures r.answer[..|ErrorPrefix|] == ErrorPrefix && r.answer[|ErrorPrefix|..] == message
  {
    QueryResult(ErrorPrefix + message, [], 0.0, Some(question))
  }

  /** `min(1.0, retrieved / top_k)`, on exact rationals. */
  function Confidence(retrieved: nat, topK: int): (c: real)
    requires topK != 0
    ensures topK > 0 ==> 0.0 <= c <= 1.0
    ensures topK > 0 ==> (c == 1.0 <==> retrieved >= topK)
    ensures topK > 0 && retrieved < topK ==> c == retrieved as real / topK as real
    ensures topK < 0 ==> c <= 0.0
  {
    var ratio := retrieved as real / topK as real;
    if ratio < 1.0 then ratio else 1.0
  }

  /** `query(question)`. */
  function Query(sys: RagSystem, question: string): (r: QueryResult)
    ensures sys.qaChain.None? ==> r == NotInitialized
    ensures sys.qaChain.Some? ==> r.question == Some(question)
    ensures sys.qaChain.Some? && sys.qaChain.value(question).ChainResult? && sys.topK != 0 ==>
      var out := sys.qaChain.value(question);
      && r.answer == out.result
      && r.sourceDocuments == out.sourceDocuments
      && r.confidence == Confidence(|out.sourceDocuments|, sys.topK)
    ensures sys.qaChain.Some? && sys.qaChain.value(question).ChainError? ==>
      r == QueryFailed(question, sys.qaChain.value(question).message)
    ensures sys.qaChain.Some? && sys.qaChain.value(question).ChainResult? && sys.topK == 0 ==>
      r == QueryFailed(question, DivisionByZeroMessage)
    ensures sys.topK >= 0 ==> 0.0 <= r.confidence <= 1.0
    ensures r.sourceDocuments == [] ==> r.confidence <= 0.0
  {
    match sys.qaChain
    case None => NotInitialized
    case Some(chain) =>
      match chain(question)
      case ChainError(message) => QueryFailed(question, message)
      case ChainResult(answer, sources) =>
        if sys.topK == 0 then QueryFailed(question, DivisionByZeroMessage)
        else QueryResult(answer, sources, Confidence(|sources|, sys.topK), Some(question))
  }
}

/** The confidence heuristic as an ordering signal, and what positive confidence means. */
module QueryProperties {
  import opened Common
  import opened Documents
  import opened RagState
  import opened RagQuery

  /** More retrieved sources never lower the confidence. */
  lemma ConfidenceMonotone(n1: nat, n2: nat, topK: int)
    requires topK > 0 && n1 <= n2
    ensures Confidence(n1, topK) <= Confidence(n2, topK)
  {
    var k := topK as real;
    assert n1 as real / k <= n2 as real / k by {
      assert n2 as real / k - n1 as real / k == (n2 - n1) as real / k;
    }
  }

  /**
    Positive confidence means exactly: the system is initialized, `top_k` is positive,
    the chain answered and returned at least one source.
  */
  lemma PositiveConfidenceIff(sys: RagSystem, question: string)
    ensures Query(sys, question).confidence > 0.0 <==>
      && sys.qaChain.Some?
      && sys.topK > 0
      && sys.qaChain.value(question).ChainResult?
      && |sys.qaChain.value(question).sourceDocuments| > 0
  {
    if sys.qaChain.Some? && sys.topK > 0 && sys.qaChain.value(question).ChainResult? {
      var n := |sys.qaChain.value(question).sourceDocuments|;
      if n > 0 {
        assert n as real / sys.topK as real > 0.0;
      }
    }
  }

  /** Every failure inside `query`, a raising chain or `top_k == 0`, gives the same error shape. */
  lemma FailureShape(sys: RagSystem, question: string)
    requires sys.qaChain.Some?
    requires sys.qaChain.value(question).ChainError? || sys.topK == 0
    ensures var r := Query(sys, question);
      && r.sourceDocuments == [] && r.confidence == 0.0 && r.question == Some(question)
      && |r.answer| >= |ErrorPrefix| && r.answer[..|ErrorPrefix|] == ErrorPrefix
  {
  }
}
