/**
  `load_qa_data` and `initialize_system`. Whether the OpenAI constructors accept, the
  training file loads, the vector store builds and the chain constructs depends on the
  network, the API key and installed libraries; those outcomes are an input here
  (`Environment`). The vector store and chain steps catch their own exceptions and then
  leave their field unchanged; the embeddings step falls back to a local model instead.
*/
module RagInit {
  import opened Common
  import opened QAPairs
  import opened Documents
  import opened RagState

  /** Reading `data/processed/train_qa_pairs.pkl`: the unpickled list, or the error raised. */
  datatype LoadOutcome = Unpickled(pairs: seq<QAPair>) | LoadError(message: string)

  /** What the outside world does to each setup step. */
  datatype Environment = Environment(
    openAIEmbeddingsAccepted: bool,          // `OpenAIEmbeddings(...)` constructs without raising
    trainingFile: LoadOutcome,
    vectorStoreBuilds: bool,                 // splitting, `Chroma.from_documents` and `as_retriever` succeed with OpenAI embeddings
    chainFactory: Option<Retriever -> Chain>)  // `OpenAI(...)` and `RetrievalQA.from_chain_type`; None when they raise

  /** `load_qa_data`: the unpickled list, or `[]` when opening or unpickling raises. */
  function LoadQAData(file: LoadOutcome): (pairs: seq<QAPair>)
    ensures file.LoadError? ==> pairs == []
    ensures file.Unpickled? ==> pairs == file.pairs
  {
    match file
    case Unpickled(pairs) => pairs
    case LoadError(_) => []
  }

  /** `setup_embeddings`: the OpenAI model, or the local fallback when its constructor raises. */
  function SetupEmbeddings(sys: RagSystem, env: Environment): (r: RagSystem)
    ensures r.embeddings == Some(OpenAIEmbeddings) <==> env.openAIEmbeddingsAccepted
    ensures r.embeddings.Some?
    ensures r.topK == sys.topK && r.retriever == sys.retriever && r.qaChain == sys.qaChain
  {
    sys.(embeddings := Some(if env.openAIEmbeddingsAccepted then OpenAIEmbeddings else SentenceTransformer))
  }

  /**
    `setup_vectorstore`: on success a retriever with `k = top_k`; on failure nothing changes.
    `Chroma.from_documents` embeds the chunks through the LangChain `embed_documents`
    method, which a `SentenceTransformer` does not have, so the build raises (and is
    caught) unless the OpenAI embeddings were selected.
  */
  function SetupVectorstore(sys: RagSystem, documents: seq<Document>, env: Environment): (r: RagSystem)
    ensures r.topK == sys.topK && r.embeddings == sys.embeddings && r.qaChain == sys.qaChain
    ensures r.retriever != sys.retriever ==> env.vectorStoreBuilds && sys.embeddings == Some(OpenAIEmbeddings)
    ensures env.vectorStoreBuilds && sys.embeddings == Some(OpenAIEmbeddings) ==>
      r.retriever.Some? && r.retriever.value.documents == documents
    ensures r.retriever.Some? && r.retriever != sys.retriever ==> r.retriever.value.k == sys.topK
  {
    if env.vectorStoreBuilds && sys.embeddings == Some(OpenAIEmbeddings) then
      sys.(retriever := Some(Retriever(documents, sys.topK)))
    else sys
  }

  /**
    `setup_qa_chain`: building the chain needs a retriever (`retriever=None` fails
    validation) and a working model; on success the chain over the current retriever
    replaces any earlier one, on failure nothing changes.
  */
  function SetupQAChain(sys: RagSystem, env: Environment): (r: RagSystem)
    ensures r.topK == sys.topK && r.embeddings == sys.embeddings && r.retriever == sys.retriever
    ensures sys.retriever.Some? && env.chainFactory.Some? ==>
      r.qaChain == Some(env.chainFactory.value(sys.retriever.value))
    ensures !(sys.retriever.Some? && env.chainFactory.Some?) ==> r.qaChain == sys.qaChain
  {
    if sys.retriever.Some? && env.chainFactory.Some? then
      sys.(qaChain := Some(env.chainFactory.value(sys.retriever.value)))
    else sys
  }

  datatype InitOutcome = InitOutcome(ok: bool, system: RagSystem)

  /** `initialize_system`: returns `False` only when no training pair was loaded. */
  function InitializeSystem(sys: RagSystem, env: Environment): (out: InitOutcome)
    ensures out.ok <==> LoadQAData(env.trainingFile) != []
    ensures out.system.topK == sys.topK
    ensures out.system.embeddings.Some?
    ensures !out.ok ==> out.system.retriever == sys.retriever && out.system.qaChain == sys.qaChain
    ensures out.system.embeddings == Some(OpenAIEmbeddings) <==> env.openAIEmbeddingsAccepted
    ensures out.ok && env.vectorStoreBuilds && env.openAIEmbeddingsAccepted ==>
      out.system.retriever == Some(Retriever(CreateDocuments(LoadQAData(env.trainingFile)), sys.topK))
    ensures !(env.vectorStoreBuilds && env.openAIEmbeddingsAccepted) ==> out.system.retriever == sys.retriever
    ensures out.ok && out.system.retriever.Some? && env.chainFactory.Some? ==>
      out.system.qaChain == Some(env.chainFactory.value(out.system.retriever.value))
    ensures !(out.ok && out.system.retriever.Some? && env.chainFactory.Some?) ==>
      out.system.qaChain == sys.qaChain
  {
    var withEmbeddings := SetupEmbeddings(sys, env);
    var pairs := LoadQAData(env.trainingFile);
    if pairs == [] then InitOutcome(false, withEmbeddings)
    else
      var documents := CreateDocuments(pairs);
      var withStore := SetupVectorstore(withEmbeddings, documents, env);
      InitOutcome(true, SetupQAChain(withStore, env))
  }
}

/** What a caller of the whole pipeline can rely on: initialization followed by queries. */
module RagProperties {
  import opened Common
  import opened Chars
  import opened Table
  import opened QAPairs
  import opened QAPairProperties
  import opened QAPairCleaning
  import opened Documents
  import opened DocumentProperties
  import opened RagState
  import opened RagQuery
  import opened RagInit

  /** With no training data, a fresh system stays uninitialized and every query says so. */
  lemma EmptyTrainingDataLeavesSystemUninitialized(topK: int, env: Environment, question: string)
    requires LoadQAData(env.trainingFile) == []
    ensures var out := InitializeSystem(NewSystem(topK), env);
      !out.ok && Query(out.system, question) == NotInitialized
  {
  }

  /**
    `initialize_system` reports success even when the vector store could not be built;
    the system then answers every query with the not-initialized result.
  */
  lemma SuccessDespiteFailedVectorStore(topK: int, env: Environment, question: string)
    requires LoadQAData(env.trainingFile) != []
    requires !env.vectorStoreBuilds
    ensures var out := InitializeSystem(NewSystem(topK), env);
      out.ok && Query(out.system, question) == NotInitialized
  {
  }

  /**
    When the OpenAI embeddings cannot be constructed, the fallback model cannot back the
    vector store either: initialization still reports `True`, and every query gets the
    not-initialized answer.
  */
  lemma FallbackEmbeddingsLeaveSystemUninitialized(topK: int, env: Environment, question: string)
    requires LoadQAData(env.trainingFile) != []
    requires !env.openAIEmbeddingsAccepted
    ensures var out := InitializeSystem(NewSystem(topK), env);
      && out.ok && out.system.embeddings == Some(SentenceTransformer)
      && Query(out.system, question) == NotInitialized
  {
  }

  /**
    After a fully successful initialization, a query runs the chain built over the
    retriever of exactly the loaded pairs' documents, with `k = top_k`.
  */
  lemma InitializedQueryUsesLoadedDocuments(topK: int, env: Environment, question: string)
    requires LoadQAData(env.trainingFile) != []
    requires env.openAIEmbeddingsAccepted && env.vectorStoreBuilds && env.chainFactory.Some?
    ensures var out := InitializeSystem(NewSystem(topK), env);
      var retriever := Retriever(CreateDocuments(LoadQAData(env.trainingFile)), topK);
      && out.ok
      && out.system.qaChain == Some(env.chainFactory.value(retriever))
      && Query(out.system, question).question == Some(question)
  {
  }

  /**
    When the training file holds the processor's own output for `rows`, initialization
    succeeds exactly when some row has a non-empty cleaned question and answer.
  */
  lemma InitSucceedsIffSomeRowKept(cc: CharClasses, rows: seq<Row>, topK: int, env: Environment)
    requires env.trainingFile == Unpickled(ProcessorPairs(cc, rows))
    ensures InitializeSystem(NewSystem(topK), env).ok <==>
      exists i :: 0 <= i < |rows| && Keeps(Preprocessor(cc), rows[i])
  {
    var pairs := ProcessorPairs(cc, rows);
    if pairs != [] {
      assert FromKeptRow(Preprocessor(cc), rows, pairs[0]);
    }
    if exists i :: 0 <= i < |rows| && Keeps(Preprocessor(cc), rows[i]) {
      var i :| 0 <= i < |rows| && Keeps(Preprocessor(cc), rows[i]);
      KeptRowIsEmitted(Preprocessor(cc), rows, i);
    }
  }

  /** The document of one cleaned pair reads back as the pair and records `index == id`. */
  lemma PairDocumentRoundTrip(p: QAPair)
    requires WellFormedPair(p)
    requires '\n' !in p.question
    ensures ParseContent(MakeDocument(p).content) == Some((p.question, p.answer))
    ensures MakeDocument(p).metadata["index"] == MakeDocument(p).metadata["id"] == IntValue(p.id)
  {
    ContentRoundTrip(p.question, p.answer);
    WellFormedPairMetadata(p);
  }

  /**
    Every document built from the processor's pairs reads back as its pair's question and
    answer, and carries `index == id` in its metadata.
  */
  lemma ProcessorDocumentsRoundTrip(cc: CharClasses, rows: seq<Row>)
    requires cc.Valid()
    ensures var pairs := ProcessorPairs(cc, rows);
      var docs := CreateDocuments(pairs);
      forall i :: 0 <= i < |docs| ==>
        && ParseContent(docs[i].content) == Some((pairs[i].question, pairs[i].answer))
        && docs[i].metadata["index"] == docs[i].metadata["id"] == IntValue(pairs[i].id)
  {
    var pairs := ProcessorPairs(cc, rows);
    var docs := CreateDocuments(pairs);
    ProcessorQuestionsHaveNoNewline(cc, rows);
    forall i | 0 <= i < |docs|
      ensures ParseContent(docs[i].content) == Some((pairs[i].question, pairs[i].answer))
      ensures docs[i].metadata["index"] == docs[i].metadata["id"] == IntValue(pairs[i].id)
    {
      assert docs[i] == MakeDocument(pairs[i]);
      PairDocumentRoundTrip(pairs[i]);
    }
  }
}
