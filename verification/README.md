# Hospital Q&A assistant: data-shaping core in Dafny

This project models the deterministic core of a hospital customer-support
question-answering assistant. The assistant answers with retrieval-augmented generation.
The model covers two source files.

- `src/data_processing.py` (`HospitalDataProcessor`):
  - `preprocess_text` cleans one cell in three steps. It strips the text, deletes every
    character outside `[\w\s가-힣.,!?]`, and turns each whitespace run into one space.
  - `create_qa_pairs` filters and maps the table rows. A row becomes a pair only when
    its cleaned question and answer are both non-empty. The pair keeps the row's index
    label as its `id`.
  - `analyze_data_quality`: only the count fields are modelled.
- `src/rag_system.py` (`HospitalRAGSystem`):
  - `create_documents` builds one document per pair. The content is
    `"질문: …\n답변: …"`, and the metadata merges the pair's fields with its metadata map.
  - `query` has three outcomes: not initialized, an answer, or the error answer. On an
    answer the confidence is `min(1, sources / top_k)`.
  - `load_qa_data` returns `[]` on any failure.
  - `initialize_system`: its control flow, including the early `False` exit.

Modules, in dependency order:

| file | modules |
|---|---|
| `common.dfy` | `Common`: `Option`, `Result` |
| `table.dfy` | `Table`: cells, rows, frames, `row.get`, column extraction |
| `text_cleaning.dfy` | `Chars` (character classes), `TextCleaning` (`preprocess_text`) |
| `cleaning_properties.dfy` | `CleaningProperties` |
| `qa_pairs.dfy` | `QAPairs`, `QAPairProperties`, `QAPairCleaning` |
| `data_quality.dfy` | `DataQuality`, `DataQualityProperties` |
| `documents.dfy` | `Documents`, `DocumentProperties` |
| `rag_query.dfy` | `RagState`, `RagQuery`, `QueryProperties` |
| `rag_init.dfy` | `RagInit`, `RagProperties` |

Modelling choices:

- **Character classes.** Python's `\w` and `\s` are Unicode tables. The model keeps
  them abstract, as two predicates in a `CharClasses` value. `str.strip()` uses the same
  whitespace predicate as `\s`, so one predicate serves both.
  - `CharClasses.Valid()` only asks that the six ASCII whitespace characters are in `\s`,
    as Python documents.
  - The Hangul syllable range U+AC00..U+D7A3 is concrete, and so are `. , ! ?`.
- **Regex passes.** `re.sub(r'\s+', ' ', …)` is modelled by `Collapse`. It replaces each
  maximal whitespace run with one space. That is what a leftmost, greedy,
  non-overlapping substitution does.
- **Cleaning function as a parameter.** `CreateQAPairs` takes the cleaning function as
  an argument. `QAPairCleaning.ProcessorPairs` passes in `PreprocessText`, and the
  properties that depend on cleaning are proved there.
- **Opaque chain.** The retrieval chain is a function from the question to an outcome:
  either `result` with `source_documents`, or the raised error's message. A
  `RetrievalQA` result dict without one of those keys raises inside `query`'s `try`; it
  is one more `ChainError`.
- **Setup outcomes as inputs.** Whether the OpenAI constructors accept, the training
  file loads, the vector store builds and the chain constructs is an input
  (`Environment`). These outcomes depend on the network, the API key and installed
  libraries.
  - `setup_vectorstore` and `setup_qa_chain` catch their own exceptions and then leave
    their field as it was.
  - `setup_embeddings` does not: when `OpenAIEmbeddings` raises, it replaces the
    embeddings with a local `SentenceTransformer`.
  - The fallback object has no LangChain `embed_documents` method, so
    `Chroma.from_documents` raises with it. That exception is caught, and the vector
    store is never built after the fallback. `SetupVectorstore` builds only when the
    OpenAI embeddings were selected.
- **Exact confidence.** Confidence is an exact rational (`real`); Python floats are not
  modelled.
- **Not-initialized result.** In the source this result dict has no `question` key.
  Here `QueryResult.question` is an `Option`.
- **The `.str` failure.** `analyze_data_quality` reads `df['질문'].str` and
  `df['답변'].str` for the mean lengths. `.str` raises on a non-empty column with no
  text value, because CSV loading gives such a column a float dtype. A header-only
  column keeps the object dtype, and `.str` works on it. The model reports that failure,
  in the order the dict literal evaluates its fields. It does not model the mean lengths
  themselves.

Two behaviours of the code worth knowing:

- **Cleaning is not idempotent.** `"@ a"` cleans to `" a"`, which cleans to `"a"`,
  because stripping runs before deletion (`CleanNotIdempotent`). What does hold:
  - cleaning is idempotent on text without disallowed characters (`CleanIdempotentOnAllowed`);
  - a third pass always equals the second (`CleanThirdPassIsSecond`).
- **`initialize_system` returns `True` whenever training data was loaded.** This holds
  even when the vector store or the chain could not be set up, and every query then gets
  the not-initialized answer (`SuccessDespiteFailedVectorStore`,
  `FallbackEmbeddingsLeaveSystemUninitialized`).

## Model

| member | source | states |
|---|---|---|
| `TextCleaning.PreprocessText` | src/data_processing.py:33-47 | A NaN/None cell yields `""`. A text output is never longer than its input. Every output character is a plain space or an allowed non-whitespace character. |
| `TextCleaning.Strip` | src/data_processing.py:39 | The result is one contiguous window of the input with only whitespace before and after it, and the window neither starts nor ends with whitespace. The result equals the input exactly when the input has no leading or trailing whitespace. |
| `TextCleaning.RemoveDisallowed` | src/data_processing.py:42 | Each character of `[\w\s가-힣.,!?]` occurs in the result exactly as often as in the input, and no other character occurs. The result equals the input exactly when every input character is allowed. |
| `TextCleaning.Collapse` | src/data_processing.py:45 | Every output character is `' '` or non-whitespace. On allowed input every character is clean. The output is no longer than the input. |
| `TextCleaning.TrimLeft` | src/data_processing.py:39 | The result is a suffix that does not start with whitespace. Everything dropped is whitespace. |
| `TextCleaning.TrimRight` | src/data_processing.py:39 | The result is a prefix that does not end with whitespace. Everything dropped is whitespace. |
| `CleaningProperties.CollapseRun` | src/data_processing.py:45 | A maximal whitespace run between two stretches of text becomes exactly one `' '`, whatever its length or characters; it is never deleted. |
| `CleaningProperties.CollapseNoDoubleSpace` | src/data_processing.py:45 | Replacing whitespace runs never leaves two adjacent spaces. |
| `CleaningProperties.CollapseKeepsContent` | src/data_processing.py:45 | Replacing whitespace runs keeps the non-whitespace characters, in order. |
| `CleaningProperties.CollapseFixed` | src/data_processing.py:45 | Text whose only whitespace is single plain spaces is unchanged by the substitution. |
| `CleaningProperties.StripKeepsContent` | src/data_processing.py:39-42 | Stripping before deletion loses no non-whitespace character. |
| `CleaningProperties.CleanNoDoubleSpace` | src/data_processing.py:45 | The cleaned output never has two consecutive spaces. |
| `CleaningProperties.PreprocessJoinsRunWithOneSpace` | src/data_processing.py:33-47 | Two allowed words separated by any whitespace run, tab or newline included, clean to the two cleaned words joined by one space. |
| `CleaningProperties.CleanHasNoOtherWhitespace` | src/data_processing.py:42-45 | No tab, newline or other whitespace besides `' '` survives cleaning. |
| `CleaningProperties.CleanKeepsAllowedContent` | src/data_processing.py:39-45 | The output's non-whitespace characters are exactly the input's allowed non-whitespace characters, in order. |
| `CleaningProperties.CleanOfAllowedIsCanonical` | src/data_processing.py:39-45 | Text with no disallowed character cleans to canonical form: clean characters, single spaces, nothing leading or trailing. |
| `CleaningProperties.CollapseCanonical` | src/data_processing.py:45 | Allowed text without leading or trailing whitespace becomes canonical after the substitution. |
| `CleaningProperties.CleanFixedPointIff` | src/data_processing.py:39-45 | Cleaning returns a text unchanged if and only if the text is canonical. |
| `CleaningProperties.CleanIdempotentOnAllowed` | src/data_processing.py:39-45 | On text with no disallowed character, cleaning twice equals cleaning once. |
| `CleaningProperties.CleanThirdPassIsSecond` | src/data_processing.py:39-45 | For every text, a third cleaning pass changes nothing after the second. |
| `CleaningProperties.CleanNotIdempotent` | src/data_processing.py:39-45 | `"@ a"` cleans to `" a"`, which cleans to `"a"`, so cleaning is not idempotent in general. |
| `QAPairs.CreateQAPairs` | src/data_processing.py:49-69 | There are never more pairs than rows. Each pair is the pair of some kept row: row label as `id`, cleaned cells as question and answer, `category == "hospital"`, metadata `{source: "hospital_qa", index: id}`. |
| `QAPairProperties.SingleRowIff` | src/data_processing.py:54-58 | A row yields its pair exactly when the cleaned question and answer are both non-empty; otherwise it yields nothing. |
| `QAPairProperties.CreateQAPairsConcat` | src/data_processing.py:53-69 | Output order follows row order: the pairs of `a + b` are the pairs of `a` followed by those of `b`. |
| `QAPairProperties.KeptRowIsEmitted` | src/data_processing.py:53-67 | A row's pair is in the output if and only if the row is kept. |
| `QAPairProperties.IdsAboveBound` | src/data_processing.py:59 | Every id is some row's label, so a bound on the labels bounds the ids. |
| `QAPairProperties.IdsFollowRowOrder` | src/data_processing.py:53-60 | With strictly increasing row labels, the emitted ids strictly increase, with gaps where rows were dropped. |
| `QAPairProperties.IdsUnique` | src/data_processing.py:53-60 | With strictly increasing row labels, the emitted ids are pairwise distinct. |
| `QAPairCleaning.MissingCellDropsRow` | src/data_processing.py:54-57 | An absent question/answer column (the `''` default) or a NaN cell drops the row. |
| `QAPairCleaning.ProcessorPairsCleaned` | src/data_processing.py:54-61 | Every emitted question and answer is in cleaned form: clean characters, no double space, no newline. |
| `QAPairCleaning.ProcessorQuestionsHaveNoNewline` | src/data_processing.py:54-60 | No emitted question contains a newline. |
| `DataQuality.CountMissing` | src/data_processing.py:75-76 | The count is the number of NaN cells in the column, hence at most its length and positive exactly when some cell is NaN. |
| `DataQuality.TextValues` | src/data_processing.py:79 | A string is among the distinct values exactly when some cell holds it. |
| `DataQuality.UniqueCount` | src/data_processing.py:79 | `nunique()` is the number of distinct question texts, NaN excluded; it is zero exactly when every cell is NaN. |
| `DataQuality.Cells` | src/data_processing.py:80 | A cell value is among the distinct cells exactly when it occurs in the column, NaN included. |
| `DataQuality.DuplicateCount` | src/data_processing.py:80 | Duplicates plus distinct cell values, NaN counted as one value, equal the column length. |
| `DataQuality.StrAccessorFails` | src/data_processing.py:77-78 | `.str` fails exactly on a non-empty column with no text value. |
| `DataQuality.AnalyzeDataQuality` | src/data_processing.py:71-83 | The report succeeds exactly when both columns exist and neither is a non-empty column without text. The error is the first failure in the order the fields are evaluated: `KeyError('질문')`, then `KeyError('답변')`, then the `.str` failure of the question column, then that of the answer column. On success: `total_samples` is the row count; `missing_questions` and `missing_answers` are the NaN counts of their own columns; `unique_questions` is the number of distinct question texts; `duplicate_questions` plus the distinct question cells is the row count. |
| `DataQualityProperties.CellsAreTextsAndNaN` | src/data_processing.py:79-80 | The distinct cells are the distinct texts plus one NaN value when any cell is NaN. |
| `DataQualityProperties.UniqueAndMissingFit` | src/data_processing.py:75-79 | Distinct texts plus NaN cells never outnumber the rows. |
| `DataQualityProperties.ColumnCountsAddUp` | src/data_processing.py:75-80 | unique + duplicates + (1 if any NaN) equals the column length, and unique + missing is at most that length. |
| `DataQualityProperties.QualityCountsAddUp` | src/data_processing.py:73-81 | In a successful report, `unique_questions + duplicate_questions + (1 if missing_questions > 0) == total_samples`. |
| `DataQualityProperties.DistinctColumnHasNoDuplicates` | src/data_processing.py:80 | A column with no repeated cell has no duplicated entries. |
| `Table.Get` | src/data_processing.py:54-55 | A cell the row has is returned as it is, NaN included; a column the row lacks reads as `""`. |
| `Documents.Content` | src/rag_system.py:61 | The content is the question label, the question, the answer label and the answer, each at its own position. |
| `Documents.DocumentMetadata` | src/rag_system.py:64-71 | The keys are `id`, `question`, `answer`, `category` plus the pair's metadata keys. A key in the pair's metadata takes its value from there. The other fixed keys carry the pair's fields. |
| `Documents.CreateDocuments` | src/rag_system.py:55-75 | Exactly one document per pair, in the same order. Each has content `"질문: " + question + "\n답변: " + answer` and the merged metadata. |
| `DocumentProperties.ContentRoundTrip` | src/rag_system.py:61 | A question without a newline and its answer can be read back from the page content. |
| `DocumentProperties.ContentInjective` | src/rag_system.py:61 | Distinct (newline-free) question/answer pairs give distinct contents. |
| `DocumentProperties.WellFormedPairMetadata` | src/rag_system.py:64-71 | For a pair from `create_qa_pairs`, document metadata is exactly id, question, answer, category, `source == "hospital_qa"` and `index == id`. |
| `RagState.NewSystem` | src/rag_system.py:19-27 | A new system keeps the configured `top_k` and has no embeddings, retriever or chain. |
| `RagQuery.Confidence` | src/rag_system.py:146 | For `top_k > 0`: confidence lies in [0,1], equals 1 exactly when `sources >= top_k`, and is `sources / top_k` below that. For `top_k < 0` it is at most 0. |
| `RagQuery.QueryFailed` | src/rag_system.py:155-161 | The error answer: no sources, confidence 0, the question echoed, and the answer is the error prefix followed by exactly the message. |
| `RagQuery.Query` | src/rag_system.py:128-161 | Without a chain: the fixed not-initialized answer, no sources, confidence 0, no question key. On success: the chain's answer and sources unchanged, question echoed, ratio confidence. On a raising chain or `top_k == 0`: error-prefixed answer, no sources, confidence 0. |
| `QueryProperties.ConfidenceMonotone` | src/rag_system.py:146 | More retrieved sources never lower the confidence. |
| `QueryProperties.PositiveConfidenceIff` | src/rag_system.py:128-161 | Confidence is positive exactly when a chain exists, `top_k > 0`, and the chain answered with at least one source. |
| `QueryProperties.FailureShape` | src/rag_system.py:155-161 | Every failure yields no sources, confidence 0, the echoed question and an answer starting with the error prefix. |
| `RagInit.LoadQAData` | src/rag_system.py:44-53 | Any open/unpickle failure yields `[]`; otherwise the unpickled list. |
| `RagInit.SetupEmbeddings` | src/rag_system.py:29-42 | The OpenAI model is selected exactly when its constructor accepts. Otherwise the local model is selected. Nothing else changes. |
| `RagInit.SetupVectorstore` | src/rag_system.py:77-104 | The store builds only with the OpenAI embeddings. When it builds, the retriever covers exactly the given documents with `k = top_k`. On failure nothing changes. The chain and embeddings are untouched. |
| `RagInit.SetupQAChain` | src/rag_system.py:106-126 | With a retriever and a constructible model, the chain becomes the one built over the current retriever, replacing any earlier chain. Otherwise the chain is unchanged. The other fields are untouched. |
| `RagInit.InitializeSystem` | src/rag_system.py:163-187 | Returns `False` exactly when the loaded training list is empty, and then sets up no vector store or chain. The OpenAI embeddings are used exactly when they construct. With data, OpenAI embeddings and a building store, the retriever covers exactly the loaded pairs' documents with `k = top_k`. With data, a retriever and a constructible model, the chain is the one built over that retriever. In every other case the chain is unchanged. |
| `RagProperties.EmptyTrainingDataLeavesSystemUninitialized` | src/rag_system.py:171-175 | With no training data, a new system reports `False` and every query returns the not-initialized result. |
| `RagProperties.SuccessDespiteFailedVectorStore` | src/rag_system.py:177-187 | With training data but a failing vector store, initialization still reports `True`, and queries return the not-initialized result. |
| `RagProperties.FallbackEmbeddingsLeaveSystemUninitialized` | src/rag_system.py:29-42 | When the OpenAI embeddings fail, the local model is selected and initialization still reports `True`, yet every query gets the not-initialized answer. |
| `RagProperties.InitializedQueryUsesLoadedDocuments` | src/rag_system.py:177-187 | After full success, the chain is built over the retriever of exactly the loaded pairs' documents, and queries echo the question. |
| `RagProperties.InitSucceedsIffSomeRowKept` | src/rag_system.py:171-175 | When the training file holds the processor's output, initialization succeeds iff some row has a non-empty cleaned question and answer. |
| `RagProperties.PairDocumentRoundTrip` | src/rag_system.py:61-71 | The document of a cleaned pair reads back as that pair, and its metadata has `index == id`. |
| `RagProperties.ProcessorDocumentsRoundTrip` | src/rag_system.py:55-75 | Every document built from the processor's pairs reads back as its pair's question and answer, with `index == id` in its metadata. |

## Left out

- `\w` and `\s`: the Unicode tables behind them are abstract predicates. Only the ASCII whitespace members are assumed.
- Non-text cell values: `str(text)` of a number is not modelled. A cell is NaN/None or text.
- `str(e)` messages: the model does not compute exception texts. A chain error carries its message as given; only the `top_k == 0` message is spelled out.
- A `top_k` key missing from the configuration: `top_k` is a plain integer here. The source would raise `KeyError` inside `query`'s `try` and return the error answer.
- Records without the expected keys: pickled pairs are typed records here. A record missing `question`, `answer`, `category` or `metadata` would raise out of `create_documents`.
- Fallback embedding failure: if the local `SentenceTransformer` fallback itself raises, the exception escapes `initialize_system`. `SetupEmbeddings` always yields a model.
- Foreign library and network calls: chunking with `RecursiveCharacterTextSplitter`, embedding, Chroma persistence, similarity search and its ordering, and the OpenAI model. The chain is an opaque function, and the retriever records only the documents it was built from and its `k`.
- Repeated builds into the same persist directory: not modelled.
- Float arithmetic: confidence is exact.
- The mean-length fields of `analyze_data_quality`: these are floating-point pandas means.
- I/O and process state: `load_data`, `save_processed_data`, YAML configuration loading, `main`, console output, `os.getenv`, `st.cache_resource` and the Streamlit app.
